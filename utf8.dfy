/** UTF-8, as both JavaScript URI functions and the URL Standard use it: the encoding of a string
    of Unicode scalar values as bytes, and a strict decoder that accepts exactly the well-formed
    sequences of table 3-7 of the Unicode Standard. A Dafny `char` is a scalar value, so a string
    here never holds a lone surrogate. */
module Utf8 {
  import opened Wrappers

  newtype byte = x: int | 0 <= x < 256

  predicate IsContinuation(b: byte) { 0x80 <= b < 0xC0 }

  /** The number of bytes a lead byte announces, 0 for a continuation byte or 0xF8 and above. */
  function LeadLength(b: byte): nat {
    if b < 0x80 then 1
    else if b < 0xC0 then 0
    else if b < 0xE0 then 2
    else if b < 0xF0 then 3
    else if b < 0xF8 then 4
    else 0
  }

  function EncodeChar(c: char): (r: seq<byte>)
    ensures 1 <= |r| <= 4
    ensures |r| == 1 <==> c as int < 0x80
    ensures |r| == 1 ==> r[0] as int == c as int
    ensures LeadLength(r[0]) == |r|
    ensures forall i :: 1 <= i < |r| ==> IsContinuation(r[i])
    ensures |r| > 1 ==> r[0] >= 0xC2
  {
    var cp := c as int;
    if cp < 0x80 then [cp as byte]
    else if cp < 0x800 then [(0xC0 + cp / 64) as byte, (0x80 + cp % 64) as byte]
    else if cp < 0x10000 then
      [(0xE0 + cp / 4096) as byte, (0x80 + (cp / 64) % 64) as byte, (0x80 + cp % 64) as byte]
    else
      [(0xF0 + cp / 262144) as byte, (0x80 + (cp / 4096) % 64) as byte, (0x80 + (cp / 64) % 64) as byte,
       (0x80 + cp % 64) as byte]
  }

  function Encode(s: string): (r: seq<byte>)
    ensures |s| <= |r| <= 4 * |s|
  {
    if s == [] then [] else EncodeChar(s[0]) + Encode(s[1..])
  }

  predicate ValidScalar(cp: int) { 0 <= cp < 0xD800 || 0xE000 <= cp < 0x110000 }

  function Payload(b: byte): int { b as int - 0x80 }

  /** The first character of `bs` and the number of bytes it takes, or `None` when `bs` does not
      start with a well-formed sequence: a stray continuation byte, 0xC0 or 0xC1, a missing or bad
      continuation, an overlong form, a surrogate, or a value above U+10FFFF. */
  function DecodeFirst(bs: seq<byte>): (r: Option<(char, nat)>)
    ensures r.Some? ==> 1 <= r.value.1 <= |bs| && r.value.1 == LeadLength(bs[0])
  {
    if |bs| == 0 then None
    else
      var b0 := bs[0] as int;
      if b0 < 0x80 then Some((b0 as char, 1))
      else if 0xC2 <= b0 < 0xE0 then
        if |bs| >= 2 && IsContinuation(bs[1]) then Some((((b0 - 0xC0) * 64 + Payload(bs[1])) as char, 2))
        else None
      else if 0xE0 <= b0 < 0xF0 then
        if |bs| >= 3 && IsContinuation(bs[1]) && IsContinuation(bs[2]) then
          var cp := (b0 - 0xE0) * 4096 + Payload(bs[1]) * 64 + Payload(bs[2]);
          if 0x800 <= cp && !(0xD800 <= cp < 0xE000) then Some((cp as char, 3)) else None
        else None
      else if 0xF0 <= b0 < 0xF5 then
        if |bs| >= 4 && IsContinuation(bs[1]) && IsContinuation(bs[2]) && IsContinuation(bs[3]) then
          var cp := (b0 - 0xF0) * 262144 + Payload(bs[1]) * 4096 + Payload(bs[2]) * 64 + Payload(bs[3]);
          if 0x10000 <= cp < 0x110000 then Some((cp as char, 4)) else None
        else None
      else None
  }

  function Decode(bs: seq<byte>): Option<string>
    decreases |bs|
  {
    if bs == [] then Some([])
    else match DecodeFirst(bs)
      case None => None
      case Some((c, n)) =>
        match Decode(bs[n..])
        case None => None
        case Some(rest) => Some([c] + rest)
  }

  /** The decoder reads an encoded character back, whatever follows it. */
  lemma {:induction false} DecodeFirstEncodeChar(c: char, rest: seq<byte>)
    ensures DecodeFirst(EncodeChar(c) + rest) == Some((c, |EncodeChar(c)|))
  {
    var e := EncodeChar(c);
    var bs := e + rest;
    var cp := c as int;
    assert bs[0] == e[0];
    if cp < 0x80 {
    } else if cp < 0x800 {
      assert bs[1] == e[1];
      assert (cp / 64) * 64 + cp % 64 == cp;
    } else if cp < 0x10000 {
      assert bs[1] == e[1] && bs[2] == e[2];
      assert (cp / 4096) * 4096 + ((cp / 64) % 64) * 64 + cp % 64 == cp by {
        Split3(cp);
      }
    } else {
      assert bs[1] == e[1] && bs[2] == e[2] && bs[3] == e[3];
      assert (cp / 262144) * 262144 + ((cp / 4096) % 64) * 4096 + ((cp / 64) % 64) * 64 + cp % 64 == cp by {
        Split4(cp);
      }
    }
  }

  lemma {:induction false} Split3(cp: int)
    requires 0 <= cp
    ensures (cp / 4096) * 4096 + ((cp / 64) % 64) * 64 + cp % 64 == cp
  {
    var q := cp / 64;
    assert q * 64 + cp % 64 == cp;
    assert (q / 64) * 64 + q % 64 == q;
    assert q / 64 == cp / 4096;
  }

  lemma {:induction false} Split4(cp: int)
    requires 0 <= cp
    ensures (cp / 262144) * 262144 + ((cp / 4096) % 64) * 4096 + ((cp / 64) % 64) * 64 + cp % 64 == cp
  {
    var q := cp / 64;
    Split3(q);
    assert q * 64 + cp % 64 == cp;
    assert q / 4096 == cp / 262144;
    assert q / 64 == cp / 4096;
  }

  lemma {:induction false} EncodeConcat(a: string, b: string)
    ensures Encode(a + b) == Encode(a) + Encode(b)
  {
    if a == [] {
      assert a + b == b;
    } else {
      assert (a + b)[1..] == a[1..] + b;
      EncodeConcat(a[1..], b);
    }
  }

  /** Decoding an encoding gives back the string. */
  lemma {:induction false} DecodeEncode(s: string)
    ensures Decode(Encode(s)) == Some(s)
  {
    if s != [] {
      var e := EncodeChar(s[0]);
      DecodeFirstEncodeChar(s[0], Encode(s[1..]));
      assert (e + Encode(s[1..]))[|e|..] == Encode(s[1..]);
      DecodeEncode(s[1..]);
      assert [s[0]] + s[1..] == s;
    }
  }

  /** One step of a successful decode: the first character, then the decode of the rest. */
  lemma {:induction false} DecodeStep(bs: seq<byte>, s: string)
    requires bs != [] && Decode(bs) == Some(s)
    ensures DecodeFirst(bs).Some?
    ensures var n := DecodeFirst(bs).value.1;
      s != [] && s[0] == DecodeFirst(bs).value.0 && Decode(bs[n..]) == Some(s[1..])
  {
  }

  /** A string whose first character encodes to the first `n` bytes and whose rest encodes to the
      remaining bytes encodes to all of them. */
  lemma {:induction false} EncodeGlue(bs: seq<byte>, n: nat, s: string)
    requires s != [] && n <= |bs|
    requires EncodeChar(s[0]) == bs[..n] && Encode(s[1..]) == bs[n..]
    ensures Encode(s) == bs
  {
    assert bs == bs[..n] + bs[n..];
  }

  /** The decoder accepts nothing but encodings: what it returns encodes back to its input. */
  lemma {:induction false} EncodeDecode(bs: seq<byte>, s: string)
    requires Decode(bs) == Some(s)
    ensures Encode(s) == bs
    decreases |bs|
  {
    if bs != [] {
      DecodeStep(bs, s);
      var n := DecodeFirst(bs).value.1;
      EncodeDecode(bs[n..], s[1..]);
      EncodeCharDecodeFirst(bs);
      EncodeGlue(bs, n, s);
    }
  }

  lemma {:induction false} EncodeCharDecodeFirst(bs: seq<byte>)
    requires DecodeFirst(bs).Some?
    ensures EncodeChar(DecodeFirst(bs).value.0) == bs[..DecodeFirst(bs).value.1]
  {
    var n := DecodeFirst(bs).value.1;
    if n == 2 {
      EncodeCharDecodeTwo(bs);
    } else if n == 3 {
      EncodeCharDecodeThree(bs);
    } else if n == 4 {
      EncodeCharDecodeFour(bs);
    }
  }

  lemma {:induction false} EncodeCharDecodeTwo(bs: seq<byte>)
    requires DecodeFirst(bs).Some? && DecodeFirst(bs).value.1 == 2
    ensures EncodeChar(DecodeFirst(bs).value.0) == bs[..2]
  {
    Digits2(bs[0] as int - 0xC0, Payload(bs[1]));
  }

  lemma {:induction false} EncodeCharDecodeThree(bs: seq<byte>)
    requires DecodeFirst(bs).Some? && DecodeFirst(bs).value.1 == 3
    ensures EncodeChar(DecodeFirst(bs).value.0) == bs[..3]
  {
    Digits3(bs[0] as int - 0xE0, Payload(bs[1]), Payload(bs[2]));
  }

  lemma {:induction false} EncodeCharDecodeFour(bs: seq<byte>)
    requires DecodeFirst(bs).Some? && DecodeFirst(bs).value.1 == 4
    ensures EncodeChar(DecodeFirst(bs).value.0) == bs[..4]
  {
    Digits4(bs[0] as int - 0xF0, Payload(bs[1]), Payload(bs[2]), Payload(bs[3]));
  }

  lemma {:induction false} Digits2(a: int, b: int)
    requires 0 <= a && 0 <= b < 64
    ensures (a * 64 + b) / 64 == a && (a * 64 + b) % 64 == b
  {
  }

  lemma {:induction false} Digits3(a: int, b: int, c: int)
    requires 0 <= a && 0 <= b < 64 && 0 <= c < 64
    ensures var cp := a * 4096 + b * 64 + c; cp / 4096 == a && (cp / 64) % 64 == b && cp % 64 == c
  {
    var cp := a * 4096 + b * 64 + c;
    Digits2(a * 64 + b, c);
    assert cp == (a * 64 + b) * 64 + c;
    Digits2(a, b);
    assert cp / 4096 == (cp / 64) / 64;
  }

  lemma {:induction false} Digits4(a: int, b: int, c: int, d: int)
    requires 0 <= a && 0 <= b < 64 && 0 <= c < 64 && 0 <= d < 64
    ensures var cp := a * 262144 + b * 4096 + c * 64 + d;
      cp / 262144 == a && (cp / 4096) % 64 == b && (cp / 64) % 64 == c && cp % 64 == d
  {
    var cp := a * 262144 + b * 4096 + c * 64 + d;
    var q := a * 4096 + b * 64 + c;
    assert cp == q * 64 + d;
    Digits2(q, d);
    Digits3(a, b, c);
    var hi := a * 64 + b;
    var lo := c * 64 + d;
    assert cp == hi * 4096 + lo && 0 <= lo < 4096;
    assert cp / 4096 == hi;
    Digits2(a, b);
    assert cp == a * 262144 + (b * 4096 + lo) && 0 <= b * 4096 + lo < 262144;
  }

  predicate IsAscii(s: string) { forall i :: 0 <= i < |s| ==> s[i] as int < 0x80 }

  /** An ASCII string encodes byte for byte. */
  lemma {:induction false} EncodeAscii(s: string)
    requires IsAscii(s)
    ensures |Encode(s)| == |s| && forall i :: 0 <= i < |s| ==> Encode(s)[i] as int == s[i] as int
  {
    if s != [] {
      EncodeAscii(s[1..]);
    }
  }
}
