/** JavaScript's `encodeURIComponent` and `decodeURIComponent` (ECMA-262, the Encode and Decode
    abstract operations of the URI handling functions). `encodeURIComponent` writes the UTF-8 bytes
    of every character outside the unreserved set as `%XX`; it throws only for a lone surrogate,
    which a Dafny string cannot hold. `decodeURIComponent` throws a URIError, here `None`, for a
    malformed escape or an invalid UTF-8 sequence. */
module UriComponent {
  import opened Wrappers
  import opened Utf8
  import opened Percent

  /** ASCII letters and digits and `-_.!~*'()`. */
  predicate Unreserved(b: byte) {
    || 0x30 <= b <= 0x39 || 0x41 <= b <= 0x5A || 0x61 <= b <= 0x7A
    || b == 0x2D || b == 0x5F || b == 0x2E || b == 0x21 || b == 0x7E || b == 0x2A || b == 0x27
    || b == 0x28 || b == 0x29
  }

  function EncodeByte(b: byte): (r: seq<byte>)
    ensures AsciiBytes(r)
  {
    if Unreserved(b) then [b] else Triplet(b)
  }

  function EncodeBytes(bs: seq<byte>): (r: seq<byte>)
    ensures AsciiBytes(r)
  {
    if bs == [] then [] else EncodeByte(bs[0]) + EncodeBytes(bs[1..])
  }

  /** The output is ASCII made of unreserved characters and `%XX` escapes. */
  function EncodeUriComponent(s: string): (r: string)
    ensures IsAscii(r)
  {
    AsciiRoundTrip(EncodeBytes(Encode(s)));
    AsString(EncodeBytes(Encode(s)))
  }

  function Prepend(c: char, r: Option<string>): Option<string> {
    match r
    case None => None
    case Some(t) => Some([c] + t)
  }

  /** `k` escapes of continuation bytes at the start of `s`. */
  function Continuations(s: string, k: nat): (r: Option<seq<byte>>)
    ensures r.Some? ==> |r.value| == k && 3 * k <= |s|
    ensures r.Some? ==> forall i :: 0 <= i < k ==> IsContinuation(r.value[i])
  {
    if k == 0 then Some([])
    else match PercentByte(s)
      case None => None
      case Some(b) =>
        if !IsContinuation(b) then None
        else match Continuations(s[3..], k - 1)
          case None => None
          case Some(more) => Some([b] + more)
  }

  function DecodeUriComponent(s: string): Option<string>
    decreases |s|
  {
    if s == [] then Some([])
    else if s[0] != '%' then Prepend(s[0], DecodeUriComponent(s[1..]))
    else match PercentByte(s)
      case None => None
      case Some(b) =>
        if b < 0x80 then Prepend(ByteChar(b), DecodeUriComponent(s[3..]))
        else
          var n := LeadLength(b);
          if n < 2 then None
          else match Continuations(s[3..], n - 1)
            case None => None
            case Some(more) =>
              match DecodeFirst([b] + more)
              case None => None
              case Some((c, _)) => Prepend(c, DecodeUriComponent(s[3 * n..]))
  }

  lemma {:induction false} EncodeBytesConcat(a: seq<byte>, b: seq<byte>)
    ensures EncodeBytes(a + b) == EncodeBytes(a) + EncodeBytes(b)
  {
    if a == [] {
      assert a + b == b;
    } else {
      assert (a + b)[1..] == a[1..] + b;
      EncodeBytesConcat(a[1..], b);
    }
  }

  /** Escaped continuation bytes are read back by `Continuations`. */
  lemma {:induction false} ContinuationsOfEscapes(bs: seq<byte>, t: string)
    requires forall i :: 0 <= i < |bs| ==> IsContinuation(bs[i])
    ensures |EncodeBytes(bs)| == 3 * |bs|
    ensures Continuations(AsString(EncodeBytes(bs)) + t, |bs|) == Some(bs)
  {
    if bs != [] {
      var tail := EncodeBytes(bs[1..]);
      ContinuationsOfEscapes(bs[1..], t);
      assert EncodeBytes(bs) == Triplet(bs[0]) + tail;
      EscapeStep(bs[0], tail, t, |bs| - 1, bs[1..]);
      assert [bs[0]] + bs[1..] == bs;
    }
  }

  lemma {:induction false} EscapeStep(b: byte, tail: seq<byte>, t: string, k: nat, more: seq<byte>)
    requires IsContinuation(b) && Continuations(AsString(tail) + t, k) == Some(more)
    ensures Continuations(AsString(Triplet(b) + tail) + t, k + 1) == Some([b] + more)
  {
    var rest := AsString(tail) + t;
    AsStringConcat(Triplet(b), tail);
    var s := AsString(Triplet(b) + tail) + t;
    assert s == AsString(Triplet(b)) + rest;
    PercentByteTriplet(b, rest);
    assert s[3..] == rest;
    ContinuationsStep(s, k + 1, b);
  }

  lemma {:induction false} ContinuationsStep(s: string, k: nat, b: byte)
    requires k > 0 && PercentByte(s) == Some(b) && IsContinuation(b)
    ensures Continuations(s, k) == match Continuations(s[3..], k - 1)
      case None => None
      case Some(more) => Some([b] + more)
  {
  }

  /** The escapes of one character decode to that character, whatever follows. */
  lemma {:induction false} DecodeEncodedChar(c: char, t: string)
    ensures DecodeUriComponent(AsString(EncodeBytes(EncodeChar(c))) + t) == Prepend(c, DecodeUriComponent(t))
  {
    var e := EncodeChar(c);
    assert EncodeBytes(e) == EncodeByte(e[0]) + EncodeBytes(e[1..]);
    if |e| == 1 {
      assert EncodeBytes(e[1..]) == [];
      DecodeEncodedAscii(c, t);
    } else {
      DecodeEncodedMultiByte(c, t);
    }
  }

  lemma {:induction false} DecodeEncodedAscii(c: char, t: string)
    requires c as int < 0x80
    ensures DecodeUriComponent(AsString(EncodeByte(EncodeChar(c)[0])) + t) == Prepend(c, DecodeUriComponent(t))
  {
    var b := EncodeChar(c)[0];
    var s := AsString(EncodeByte(b)) + t;
    if Unreserved(b) {
      assert s == [c] + t;
      assert s[1..] == t;
    } else {
      PercentByteTriplet(b, t);
      assert s[3..] == t;
    }
  }

  lemma {:induction false} DecodeEncodedMultiByte(c: char, t: string)
    requires c as int >= 0x80
    ensures DecodeUriComponent(AsString(Triplet(EncodeChar(c)[0]) + EncodeBytes(EncodeChar(c)[1..])) + t)
         == Prepend(c, DecodeUriComponent(t))
  {
    var e := EncodeChar(c);
    var s := AsString(Triplet(e[0]) + EncodeBytes(e[1..])) + t;
    var more := AsString(EncodeBytes(e[1..])) + t;
    AsStringConcat(Triplet(e[0]), EncodeBytes(e[1..]));
    assert s == AsString(Triplet(e[0])) + more;
    PercentByteTriplet(e[0], more);
    assert s[3..] == more;
    ContinuationsOfEscapes(e[1..], t);
    assert [e[0]] + e[1..] == e;
    DecodeFirstEncodeChar(c, []);
    assert e + [] == e;
    assert s[3 * |e|..] == t;
    MultiByteStep(s, e[0], e[1..], c);
  }

  /** One escaped multi-byte character at the head of the input. */
  lemma {:induction false} MultiByteStep(s: string, b: byte, more: seq<byte>, c: char)
    requires PercentByte(s) == Some(b) && b >= 0x80 && LeadLength(b) >= 2
    requires Continuations(s[3..], LeadLength(b) - 1) == Some(more)
    requires DecodeFirst([b] + more).Some? && DecodeFirst([b] + more).value.0 == c
    ensures DecodeUriComponent(s) == Prepend(c, DecodeUriComponent(s[3 * LeadLength(b)..]))
  {
  }

  /** `decodeURIComponent(encodeURIComponent(s)) == s` for every string of scalar values. */
  lemma {:induction false} DecodeEncode(s: string)
    ensures DecodeUriComponent(EncodeUriComponent(s)) == Some(s)
  {
    if s != [] {
      var head := EncodeBytes(EncodeChar(s[0]));
      var tail := EncodeBytes(Encode(s[1..]));
      EncodeBytesConcat(EncodeChar(s[0]), Encode(s[1..]));
      AsStringConcat(head, tail);
      DecodeEncodedChar(s[0], AsString(tail));
      DecodeEncode(s[1..]);
      assert [s[0]] + s[1..] == s;
    }
  }
}
