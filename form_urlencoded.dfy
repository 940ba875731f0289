/** The application/x-www-form-urlencoded format of section 5 of the URL Standard, which
    `URLSearchParams` uses: the serializer of section 5.2 and the parser of section 5.1. Names and
    values are UTF-8 encoded; every byte other than ASCII letters, digits, `*`, `-`, `.` and `_` is
    percent-encoded, except that a space becomes `+`. */
module FormUrlencoded {
  import opened Wrappers
  import opened Utf8
  import opened Percent

  type Pair = (string, string)

  const Amp: byte := 0x26
  const Eq: byte := 0x3D
  const Plus: byte := 0x2B
  const Space: byte := 0x20
  const PercentSign: byte := 0x25

  /** The bytes the form-urlencoded percent-encode set leaves alone. */
  predicate FormSafe(b: byte) {
    0x30 <= b <= 0x39 || 0x41 <= b <= 0x5A || 0x61 <= b <= 0x7A || b == 0x2A || b == 0x2D || b == 0x2E || b == 0x5F
  }

  function EncodeByte(b: byte): (r: seq<byte>)
    ensures AsciiBytes(r) && Amp !in r && Eq !in r
  {
    if FormSafe(b) then [b] else if b == Space then [Plus] else Triplet(b)
  }

  function EncodeBytes(bs: seq<byte>): (r: seq<byte>)
    ensures AsciiBytes(r) && Amp !in r && Eq !in r
  {
    if bs == [] then [] else EncodeByte(bs[0]) + EncodeBytes(bs[1..])
  }

  /** A name or a value, percent-encoded after encoding with UTF-8. */
  function EncodeComponent(s: string): (r: seq<byte>)
    ensures AsciiBytes(r) && Amp !in r && Eq !in r
  {
    EncodeBytes(Encode(s))
  }

  function SerializePair(p: Pair): (r: seq<byte>)
    ensures AsciiBytes(r) && Eq in r && Amp !in r
  {
    var r := EncodeComponent(p.0) + [Eq] + EncodeComponent(p.1);
    assert r[|EncodeComponent(p.0)|] == Eq;
    r
  }

  /** The pairs, each `name=value`, joined by `&`. */
  function SerializeBytes(pairs: seq<Pair>): (r: seq<byte>)
    ensures AsciiBytes(r)
  {
    if pairs == [] then []
    else if |pairs| == 1 then SerializePair(pairs[0])
    else SerializePair(pairs[0]) + [Amp] + SerializeBytes(pairs[1..])
  }

  function Serialize(pairs: seq<Pair>): string {
    AsString(SerializeBytes(pairs))
  }

  /** The byte sequences between the delimiters; one sequence when there is no delimiter. */
  function SplitOn(bs: seq<byte>, d: byte): (r: seq<seq<byte>>)
    ensures |r| >= 1
  {
    if bs == [] then [[]]
    else if bs[0] == d then [[]] + SplitOn(bs[1..], d)
    else
      var rest := SplitOn(bs[1..], d);
      [[bs[0]] + rest[0]] + rest[1..]
  }

  /** The bytes before the first delimiter and those after it, or all of them and none. */
  function SplitFirst(bs: seq<byte>, d: byte): (seq<byte>, seq<byte>) {
    if bs == [] then ([], [])
    else if bs[0] == d then ([], bs[1..])
    else
      var rest := SplitFirst(bs[1..], d);
      ([bs[0]] + rest.0, rest.1)
  }

  function ReplacePlus(bs: seq<byte>): (r: seq<byte>)
    ensures |r| == |bs| && forall i :: 0 <= i < |bs| ==> r[i] == if bs[i] == Plus then Space else bs[i]
  {
    if bs == [] then [] else [if bs[0] == Plus then Space else bs[0]] + ReplacePlus(bs[1..])
  }

  predicate IsHexByte(b: byte) { HexValue(ByteChar(b)).Some? }

  /** Percent-decoding (section 1.3 of the URL Standard): a `%` not followed by two hexadecimal
      digits is kept as it is. */
  function PercentDecode(bs: seq<byte>): seq<byte> {
    if bs == [] then []
    else if bs[0] == PercentSign && |bs| >= 3 && IsHexByte(bs[1]) && IsHexByte(bs[2]) then
      [(HexValue(ByteChar(bs[1])).value * 16 + HexValue(ByteChar(bs[2])).value) as byte] + PercentDecode(bs[3..])
    else [bs[0]] + PercentDecode(bs[1..])
  }

  function DecodeComponent(bs: seq<byte>): Option<string> {
    Decode(PercentDecode(ReplacePlus(bs)))
  }

  /** One `name=value` sequence; without `=` the whole sequence is the name and the value is empty. */
  function ParsePiece(piece: seq<byte>): Option<Pair> {
    var (name, value) := SplitFirst(piece, Eq);
    match DecodeComponent(name)
    case None => None
    case Some(n) =>
      match DecodeComponent(value)
      case None => None
      case Some(v) => Some((n, v))
  }

  /** Empty sequences are skipped. */
  function ParsePieces(pieces: seq<seq<byte>>): Option<seq<Pair>> {
    if pieces == [] then Some([])
    else if pieces[0] == [] then ParsePieces(pieces[1..])
    else match ParsePiece(pieces[0])
      case None => None
      case Some(p) =>
        match ParsePieces(pieces[1..])
        case None => None
        case Some(rest) => Some([p] + rest)
  }

  /** The parser, over the UTF-8 encoding of its input. Where the URL Standard decodes malformed
      UTF-8 with replacement characters, this model gives `None`. */
  function Parse(input: string): Option<seq<Pair>> {
    ParsePieces(SplitOn(Encode(input), Amp))
  }

  lemma {:induction false} SplitOnWithout(a: seq<byte>, d: byte)
    requires d !in a
    ensures SplitOn(a, d) == [a]
  {
    if a != [] {
      SplitOnWithout(a[1..], d);
      assert [a[0]] + a[1..] == a;
    }
  }

  lemma {:induction false} SplitOnAt(a: seq<byte>, d: byte, b: seq<byte>)
    requires d !in a
    ensures SplitOn(a + [d] + b, d) == [a] + SplitOn(b, d)
  {
    if a == [] {
      assert a + [d] + b == [d] + b;
      assert ([d] + b)[1..] == b;
    } else {
      assert (a + [d] + b)[1..] == a[1..] + [d] + b;
      SplitOnAt(a[1..], d, b);
      assert [a[0]] + a[1..] == a;
    }
  }

  lemma {:induction false} SplitFirstAt(a: seq<byte>, d: byte, b: seq<byte>)
    requires d !in a
    ensures SplitFirst(a + [d] + b, d) == (a, b)
  {
    if a == [] {
      assert a + [d] + b == [d] + b;
      assert ([d] + b)[1..] == b;
    } else {
      assert (a + [d] + b)[1..] == a[1..] + [d] + b;
      SplitFirstAt(a[1..], d, b);
      assert [a[0]] + a[1..] == a;
    }
  }

  /** The serialized pairs, one sequence each. */
  function Pieces(pairs: seq<Pair>): seq<seq<byte>> {
    if pairs == [] then [] else [SerializePair(pairs[0])] + Pieces(pairs[1..])
  }

  lemma {:induction false} PiecesIndex(pairs: seq<Pair>)
    ensures |Pieces(pairs)| == |pairs|
    ensures forall i :: 0 <= i < |pairs| ==> Pieces(pairs)[i] == SerializePair(pairs[i])
  {
    if pairs != [] {
      PiecesIndex(pairs[1..]);
    }
  }

  /** The sequences between the `&` are exactly the serialized pairs. */
  lemma {:induction false} SplitSerialized(pairs: seq<Pair>)
    requires pairs != []
    ensures SplitOn(SerializeBytes(pairs), Amp) == Pieces(pairs)
  {
    var head := SerializePair(pairs[0]);
    if |pairs| == 1 {
      SplitOnWithout(head, Amp);
      assert Pieces(pairs) == [head];
    } else {
      var rest := pairs[1..];
      SplitSerialized(rest);
      assert SerializeBytes(pairs) == head + [Amp] + SerializeBytes(rest);
      SplitOnAt(head, Amp, SerializeBytes(rest));
    }
  }

  lemma {:induction false} ReplacePlusConcat(a: seq<byte>, b: seq<byte>)
    ensures ReplacePlus(a + b) == ReplacePlus(a) + ReplacePlus(b)
  {
  }

  lemma {:induction false} HexByteDigit(n: int)
    requires 0 <= n < 16
    ensures IsHexByte(HexDigit(n)) && HexValue(ByteChar(HexDigit(n))) == Some(n)
  {
    HexValueDigit(n);
  }

  /** Percent-decoding with `+` as space reads one encoded byte back, whatever follows. */
  lemma {:induction false} DecodeEncodedByte(b: byte, t: seq<byte>)
    ensures PercentDecode(ReplacePlus(EncodeByte(b)) + t) == [b] + PercentDecode(t)
  {
    var e := EncodeByte(b);
    if FormSafe(b) {
      assert ReplacePlus(e) + t == [b] + t;
      assert ([b] + t)[1..] == t;
    } else if b == Space {
      assert ReplacePlus(e) + t == [Space] + t;
      assert ([Space] + t)[1..] == t;
    } else {
      HexByteDigit(b as int / 16);
      HexByteDigit(b as int % 16);
      assert ReplacePlus(e) == e;
      assert (e + t)[3..] == t;
      assert (e + t)[0] == PercentSign && (e + t)[1] == e[1] && (e + t)[2] == e[2];
    }
  }

  lemma {:induction false} DecodeEncodedBytes(bs: seq<byte>)
    ensures PercentDecode(ReplacePlus(EncodeBytes(bs))) == bs
  {
    if bs != [] {
      ReplacePlusConcat(EncodeByte(bs[0]), EncodeBytes(bs[1..]));
      DecodeEncodedByte(bs[0], ReplacePlus(EncodeBytes(bs[1..])));
      DecodeEncodedBytes(bs[1..]);
      assert [bs[0]] + bs[1..] == bs;
    }
  }

  lemma {:induction false} DecodeEncodedComponent(s: string)
    ensures DecodeComponent(EncodeComponent(s)) == Some(s)
  {
    DecodeEncodedBytes(Encode(s));
    DecodeEncode(s);
  }

  lemma {:induction false} ParseSerializedPair(p: Pair)
    ensures ParsePiece(SerializePair(p)) == Some(p)
  {
    SplitFirstAt(EncodeComponent(p.0), Eq, EncodeComponent(p.1));
    DecodeEncodedComponent(p.0);
    DecodeEncodedComponent(p.1);
  }

  /** Pieces that are all non-empty and each parse to a pair parse to those pairs, in order. */
  lemma {:induction false} ParsePiecesEach(pieces: seq<seq<byte>>, pairs: seq<Pair>)
    requires |pieces| == |pairs|
    requires forall i :: 0 <= i < |pieces| ==> pieces[i] != [] && ParsePiece(pieces[i]) == Some(pairs[i])
    ensures ParsePieces(pieces) == Some(pairs)
  {
    if pieces != [] {
      ParsePiecesEach(pieces[1..], pairs[1..]);
      assert [pairs[0]] + pairs[1..] == pairs;
    }
  }

  lemma {:induction false} ParseSerializedPieces(pairs: seq<Pair>)
    ensures ParsePieces(Pieces(pairs)) == Some(pairs)
  {
    var pieces := Pieces(pairs);
    PiecesIndex(pairs);
    forall i | 0 <= i < |pieces| ensures pieces[i] != [] && ParsePiece(pieces[i]) == Some(pairs[i]) {
      assert Eq in pieces[i];
      ParseSerializedPair(pairs[i]);
    }
    ParsePiecesEach(pieces, pairs);
  }

  /** Parsing a serialization gives back the same pairs in the same order. */
  lemma {:induction false} ParseSerialize(pairs: seq<Pair>)
    ensures Parse(Serialize(pairs)) == Some(pairs)
  {
    AsciiRoundTrip(SerializeBytes(pairs));
    if pairs == [] {
      assert Serialize(pairs) == [] && Encode([]) == [];
      assert SplitOn([], Amp) == [[]];
      var pieces: seq<seq<byte>> := [[]];
      assert pieces[1..] == [];
    } else {
      SplitSerialized(pairs);
      ParseSerializedPieces(pairs);
    }
  }

  /** The serialization is ASCII, and its only `&` are the separators. */
  lemma {:induction false} SerializeShape(pairs: seq<Pair>)
    ensures IsAscii(Serialize(pairs))
    ensures pairs != [] ==> |SplitOn(SerializeBytes(pairs), Amp)| == |pairs|
  {
    AsciiRoundTrip(SerializeBytes(pairs));
    if pairs != [] {
      SplitSerialized(pairs);
      PiecesIndex(pairs);
    }
  }
}
