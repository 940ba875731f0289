/** Percent-encoding (section 2.1 of RFC 3986): a byte written as `%` and two upper-case
    hexadecimal digits, read back with digits of either case. */
module Percent {
  import opened Wrappers
  import opened Utf8

  function HexDigit(n: int): (r: byte)
    requires 0 <= n < 16
    ensures r < 0x80
  {
    if n < 10 then (0x30 + n) as byte else (0x37 + n) as byte
  }

  function HexValue(c: char): (r: Option<nat>)
    ensures r.Some? ==> r.value < 16
  {
    if '0' <= c <= '9' then Some(c as int - '0' as int)
    else if 'A' <= c <= 'F' then Some(c as int - 'A' as int + 10)
    else if 'a' <= c <= 'f' then Some(c as int - 'a' as int + 10)
    else None
  }

  lemma {:induction false} HexValueDigit(n: int)
    requires 0 <= n < 16
    ensures HexValue(ByteChar(HexDigit(n))) == Some(n)
  {
  }

  function ByteChar(b: byte): char { (b as int) as char }

  /** A byte's code point as a character: the ISO-8859-1 reading JavaScript strings give bytes. */
  function AsString(bs: seq<byte>): (r: string)
    ensures |r| == |bs| && forall i :: 0 <= i < |bs| ==> r[i] == ByteChar(bs[i])
  {
    if bs == [] then [] else [ByteChar(bs[0])] + AsString(bs[1..])
  }

  lemma {:induction false} AsStringConcat(a: seq<byte>, b: seq<byte>)
    ensures AsString(a + b) == AsString(a) + AsString(b)
  {
    assert |AsString(a + b)| == |AsString(a) + AsString(b)|;
    forall i | 0 <= i < |a + b| ensures AsString(a + b)[i] == (AsString(a) + AsString(b))[i] {
      if i < |a| {
        assert (a + b)[i] == a[i];
      } else {
        assert (a + b)[i] == b[i - |a|];
      }
    }
  }

  predicate AsciiBytes(bs: seq<byte>) { forall i :: 0 <= i < |bs| ==> bs[i] < 0x80 }

  /** An ASCII byte string survives the trip to a JavaScript string and back through UTF-8. */
  lemma {:induction false} AsciiRoundTrip(bs: seq<byte>)
    requires AsciiBytes(bs)
    ensures IsAscii(AsString(bs)) && Encode(AsString(bs)) == bs
  {
    EncodeAscii(AsString(bs));
  }

  function Triplet(b: byte): (r: seq<byte>)
    ensures |r| == 3 && AsciiBytes(r) && r[0] == 0x25
  {
    [0x25, HexDigit(b as int / 16), HexDigit(b as int % 16)]
  }

  /** The byte a leading `%XX` writes, if the string starts with one. */
  function PercentByte(s: string): (r: Option<byte>)
  {
    if |s| >= 3 && s[0] == '%' && HexValue(s[1]).Some? && HexValue(s[2]).Some? then
      Some((HexValue(s[1]).value * 16 + HexValue(s[2]).value) as byte)
    else None
  }

  lemma {:induction false} PercentByteTriplet(b: byte, t: string)
    ensures PercentByte(AsString(Triplet(b)) + t) == Some(b)
  {
    var s := AsString(Triplet(b)) + t;
    HexValueDigit(b as int / 16);
    HexValueDigit(b as int % 16);
    assert s[0] == '%' && s[1] == ByteChar(HexDigit(b as int / 16)) && s[2] == ByteChar(HexDigit(b as int % 16));
  }
}
