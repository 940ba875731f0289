/** JavaScript's `btoa` and `atob`: the base64 encoding of section 4 of RFC 4648, with `=` padding,
    over a string whose code units are bytes, and the URL Standard's forgiving-base64 decode, which
    ignores ASCII white space and accepts missing padding. */
module Base64 {
  import opened Wrappers
  import opened Utf8
  import opened Percent

  /** The alphabet of table 1 of RFC 4648: `A`-`Z`, `a`-`z`, `0`-`9`, `+` and `/`. */
  predicate InAlphabet(c: char) {
    'A' <= c <= 'Z' || 'a' <= c <= 'z' || '0' <= c <= '9' || c == '+' || c == '/'
  }

  newtype sextet = x: int | 0 <= x < 64

  function Index64(c: char): (r: Option<sextet>)
    ensures r.Some? <==> InAlphabet(c)
  {
    if 'A' <= c <= 'Z' then Some((c as int - 'A' as int) as sextet)
    else if 'a' <= c <= 'z' then Some((c as int - 'a' as int + 26) as sextet)
    else if '0' <= c <= '9' then Some((c as int - '0' as int + 52) as sextet)
    else if c == '+' then Some(62)
    else if c == '/' then Some(63)
    else None
  }

  function Char64(n: int): (c: char)
    requires 0 <= n < 64
    ensures InAlphabet(c) && Index64(c) == Some(n as sextet)
  {
    if n < 26 then ('A' as int + n) as char
    else if n < 52 then ('a' as int + n - 26) as char
    else if n < 62 then ('0' as int + n - 52) as char
    else if n == 62 then '+' else '/'
  }

  /** The six-bit groups of section 4 of RFC 4648: four per three bytes, then two for a last single
      byte or three for a last pair, the missing bits being zero. */
  function Sextets(bs: seq<byte>): (r: seq<sextet>)
  {
    if |bs| == 0 then []
    else
      var b0 := bs[0] as int;
      if |bs| == 1 then [(b0 / 4) as sextet, ((b0 % 4) * 16) as sextet]
      else
        var b1 := bs[1] as int;
        if |bs| == 2 then [(b0 / 4) as sextet, ((b0 % 4) * 16 + b1 / 16) as sextet, ((b1 % 16) * 4) as sextet]
        else
          var b2 := bs[2] as int;
          [(b0 / 4) as sextet, ((b0 % 4) * 16 + b1 / 16) as sextet, ((b1 % 16) * 4 + b2 / 64) as sextet,
           (b2 % 64) as sextet] + Sextets(bs[3..])
  }

  /** Whole groups of four, then two or three for a last single byte or pair. */
  lemma {:induction false} SextetsLength(bs: seq<byte>)
    ensures |Sextets(bs)| % 4 == (if |bs| % 3 == 0 then 0 else |bs| % 3 + 1)
    ensures |bs| <= |Sextets(bs)|
    decreases |bs|
  {
    if |bs| >= 3 {
      SextetsLength(bs[3..]);
      var k := |Sextets(bs[3..])|;
      assert |Sextets(bs)| == 4 + k;
      assert |bs[3..]| == |bs| - 3;
      assert (|bs| - 3) % 3 == |bs| % 3;
      assert (4 + k) % 4 == k % 4;
    }
  }

  function Chars(cs: seq<sextet>): (r: string)
    ensures |r| == |cs| && forall i :: 0 <= i < |cs| ==> r[i] == Char64(cs[i] as int)
  {
    if cs == [] then [] else [Char64(cs[0] as int)] + Chars(cs[1..])
  }

  /** The encoding before its padding. */
  function EncodeBody(bs: seq<byte>): string {
    Chars(Sextets(bs))
  }

  function Padding(n: nat): (r: string)
    ensures forall i :: 0 <= i < |r| ==> r[i] == '='
  {
    if n % 3 == 1 then "==" else if n % 3 == 2 then "=" else ""
  }

  predicate IsLatin1(s: string) { forall i :: 0 <= i < |s| ==> s[i] as int < 0x100 }

  function Latin1Bytes(s: string): (r: seq<byte>)
    requires IsLatin1(s)
    ensures AsString(r) == s
  {
    if s == [] then [] else [(s[0] as int) as byte] + Latin1Bytes(s[1..])
  }

  /** `btoa`: the encoding of the string's code units, or the InvalidCharacterError it throws for a
      character above U+00FF. */
  function Btoa(s: string): (r: Option<string>)
    ensures r.Some? <==> IsLatin1(s)
  {
    if IsLatin1(s) then Some(EncodeBody(Latin1Bytes(s)) + Padding(|Latin1Bytes(s)|)) else None
  }

  /** The output of `btoa` is a whole number of four-character groups: alphabet characters followed
      by at most two `=`. */
  lemma {:induction false} BtoaShape(s: string)
    requires IsLatin1(s)
    ensures var r := Btoa(s).value;
      && |r| % 4 == 0
      && (forall i :: 0 <= i < |r| ==> if i < |r| - 2 then InAlphabet(r[i]) else InAlphabet(r[i]) || r[i] == '=')
      && (forall i, j :: 0 <= i < j < |r| && r[i] == '=' ==> r[j] == '=')
  {
    var bs := Latin1Bytes(s);
    var body := EncodeBody(bs);
    var pad := Padding(|bs|);
    var r := body + pad;
    assert Btoa(s).value == r;
    SextetsLength(bs);
    PaddedLength(|body|, |bs|);
    forall i | 0 <= i < |r|
      ensures if i < |r| - 2 then InAlphabet(r[i]) else InAlphabet(r[i]) || r[i] == '='
    {
      if i < |body| { assert r[i] == body[i]; } else { assert r[i] == pad[i - |body|]; }
    }
    forall i, j | 0 <= i < j < |r| && r[i] == '=' ensures r[j] == '=' {
      if i >= |body| { assert r[j] == pad[j - |body|]; }
    }
  }

  /** The padding completes the last group of four and is at most two characters. */
  lemma {:induction false} PaddedLength(bodyLength: nat, n: nat)
    requires bodyLength % 4 == (if n % 3 == 0 then 0 else n % 3 + 1)
    ensures (bodyLength + |Padding(n)|) % 4 == 0 && |Padding(n)| <= 2
  {
  }

  /** ASCII white space as the Infra Standard defines it: tab, line feed, form feed, carriage
      return and space. */
  predicate AsciiWhitespace(c: char) {
    c == '\t' || c == '\n' || c == '\U{000C}' || c == '\r' || c == ' '
  }

  function RemoveWhitespace(s: string): (r: string)
    ensures |r| <= |s|
  {
    if s == [] then []
    else if AsciiWhitespace(s[0]) then RemoveWhitespace(s[1..])
    else [s[0]] + RemoveWhitespace(s[1..])
  }

  /** The data with one or two trailing `=` removed when its length is a multiple of four. */
  function StripPadding(d: string): string {
    if |d| % 4 == 0 && |d| >= 2 && d[|d| - 2..] == "==" then d[..|d| - 2]
    else if |d| % 4 == 0 && |d| >= 1 && d[|d| - 1] == '=' then d[..|d| - 1]
    else d
  }

  function Indices(s: string): (r: Option<seq<sextet>>)
    ensures r.Some? ==> |r.value| == |s|
  {
    if s == [] then Some([])
    else match Index64(s[0])
      case None => None
      case Some(n) =>
        match Indices(s[1..])
        case None => None
        case Some(rest) => Some([n] + rest)
  }

  /** Four six-bit values make three bytes; a last two make one byte and a last three make two,
      the leftover bits being dropped. A single leftover value makes nothing. */
  function DecodeIndices(cs: seq<sextet>): seq<byte>
  {
    if |cs| < 2 then []
    else
      var b0 := (cs[0] as int * 4 + cs[1] as int / 16) as byte;
      if |cs| == 2 then [b0]
      else
        var b1 := ((cs[1] as int % 16) * 16 + cs[2] as int / 4) as byte;
        if |cs| == 3 then [b0, b1]
        else [b0, b1, ((cs[2] as int % 4) * 64 + cs[3] as int) as byte] + DecodeIndices(cs[4..])
  }

  /** `atob`: forgiving-base64 decode, failing (a thrown InvalidCharacterError) when the length
      without white space and padding leaves remainder one by four or a character is outside the
      alphabet. */
  function Atob(s: string): Option<string> {
    var data := StripPadding(RemoveWhitespace(s));
    if |data| % 4 == 1 then None
    else match Indices(data)
      case None => None
      case Some(cs) => Some(AsString(DecodeIndices(cs)))
  }

  lemma {:induction false} Group3(b0: int, b1: int, b2: int)
    requires 0 <= b0 < 256 && 0 <= b1 < 256 && 0 <= b2 < 256
    ensures var c1 := (b0 % 4) * 16 + b1 / 16; var c2 := (b1 % 16) * 4 + b2 / 64;
      && (b0 / 4) * 4 + c1 / 16 == b0
      && (c1 % 16) * 16 + c2 / 4 == b1
      && (c2 % 4) * 64 + b2 % 64 == b2
  {
  }

  lemma {:induction false} IndicesChars(cs: seq<sextet>)
    ensures Indices(Chars(cs)) == Some(cs)
  {
    if cs != [] {
      IndicesChars(cs[1..]);
      assert Chars(cs)[1..] == Chars(cs[1..]);
      assert [cs[0]] + cs[1..] == cs;
    }
  }

  /** A last group of one or two bytes decodes back to those bytes. */
  lemma {:induction false} DecodeShortGroup(bs: seq<byte>)
    requires 1 <= |bs| <= 2
    ensures DecodeIndices(Sextets(bs)) == bs
  {
    if |bs| == 1 {
      Group3(bs[0] as int, 0, 0);
    } else {
      Group3(bs[0] as int, bs[1] as int, 0);
    }
  }

  /** Four sextets decode back to the three bytes they came from, before the rest. */
  lemma {:induction false} DecodeFullGroup(bs: seq<byte>)
    requires |bs| >= 3
    ensures DecodeIndices(Sextets(bs)) == bs[..3] + DecodeIndices(Sextets(bs[3..]))
  {
    Group3(bs[0] as int, bs[1] as int, bs[2] as int);
    var cs := Sextets(bs);
    assert cs[4..] == Sextets(bs[3..]);
    assert bs[..3] == [bs[0], bs[1], bs[2]];
  }

  lemma {:induction false} DecodeSextets(bs: seq<byte>)
    ensures DecodeIndices(Sextets(bs)) == bs
    decreases |bs|
  {
    if |bs| >= 3 {
      DecodeFullGroup(bs);
      DecodeSextets(bs[3..]);
      assert bs == bs[..3] + bs[3..];
    } else if |bs| > 0 {
      DecodeShortGroup(bs);
    }
  }

  lemma {:induction false} DecodeEncodeBody(bs: seq<byte>)
    ensures Indices(EncodeBody(bs)) == Some(Sextets(bs))
    ensures DecodeIndices(Sextets(bs)) == bs
  {
    IndicesChars(Sextets(bs));
    DecodeSextets(bs);
  }

  lemma {:induction false} NoWhitespace(s: string)
    requires forall i :: 0 <= i < |s| ==> !AsciiWhitespace(s[i])
    ensures RemoveWhitespace(s) == s
  {
    if s != [] {
      NoWhitespace(s[1..]);
    }
  }

  lemma {:induction false} StripPaddingBody(bs: seq<byte>)
    ensures StripPadding(EncodeBody(bs) + Padding(|bs|)) == EncodeBody(bs)
  {
    var body := EncodeBody(bs);
    SextetsLength(bs);
    assert |body| > 0 ==> InAlphabet(body[|body| - 1]);
    if |bs| % 3 == 1 {
      StripTwo(body);
    } else if |bs| % 3 == 2 {
      StripOne(body);
    } else {
      assert body + Padding(|bs|) == body;
    }
  }

  lemma {:induction false} StripTwo(body: string)
    requires |body| % 4 == 2
    ensures StripPadding(body + "==") == body
  {
    var enc := body + "==";
    assert enc[|enc| - 2..] == "==";
    assert enc[..|enc| - 2] == body;
  }

  lemma {:induction false} StripOne(body: string)
    requires |body| % 4 == 3 && body[|body| - 1] != '='
    ensures StripPadding(body + "=") == body
  {
    var enc := body + "=";
    assert enc[|enc| - 2] == body[|body| - 1];
    assert enc[|enc| - 2..] != "==";
    assert enc[..|enc| - 1] == body;
  }

  /** `atob(btoa(s)) == s` for every string of code units up to U+00FF. */
  lemma {:induction false} AtobBtoa(s: string)
    requires IsLatin1(s)
    ensures Atob(Btoa(s).value) == Some(s)
  {
    var bs := Latin1Bytes(s);
    var body := EncodeBody(bs);
    var enc := body + Padding(|bs|);
    EncodingHasNoWhitespace(bs);
    StripPaddingBody(bs);
    DecodeEncodeBody(bs);
    SextetsLength(bs);
    AtobSteps(enc, body);
  }

  lemma {:induction false} EncodingHasNoWhitespace(bs: seq<byte>)
    ensures RemoveWhitespace(EncodeBody(bs) + Padding(|bs|)) == EncodeBody(bs) + Padding(|bs|)
  {
    var body := EncodeBody(bs);
    var enc := body + Padding(|bs|);
    assert forall i :: 0 <= i < |body| ==> InAlphabet(body[i]);
    assert forall i :: 0 <= i < |enc| ==> InAlphabet(enc[i]) || enc[i] == '=';
    NoWhitespace(enc);
  }

  lemma {:induction false} AtobSteps(enc: string, body: string)
    requires RemoveWhitespace(enc) == enc && StripPadding(enc) == body
    requires |body| % 4 != 1 && Indices(body).Some?
    ensures Atob(enc) == Some(AsString(DecodeIndices(Indices(body).value)))
  {
  }

  /** What the decoder forgives: missing padding and white space. */
  lemma {:induction false} AtobAccepts()
    ensures Atob("QQ") == Some("A")
    ensures Atob("Q Q=\n=") == Some("A")
  {
    assert Index64('Q') == Some(16);
    assert Indices("QQ") == Some([16, 16]) by {
      assert "Q"[1..] == [] && Indices([]) == Some([]);
      assert Indices("Q") == Some([16 as sextet] + []);
      assert [16 as sextet] + [] == [16];
      assert "QQ"[0] == 'Q' && "QQ"[1..] == "Q";
      assert Indices("QQ") == Some([16 as sextet] + [16]);
      assert [16 as sextet] + [16 as sextet] == [16, 16];
    }
    assert DecodeIndices([16, 16]) == [65];
    assert AsString([65]) == "A";
    assert RemoveWhitespace("QQ") == "QQ" by {
      NoWhitespace("QQ");
    }
    assert StripPadding("QQ") == "QQ";
    RemoveWhitespaceExample();
    assert StripPadding("QQ==") == "QQ" by {
      assert "QQ=="[2..] == "==";
      assert "QQ=="[..2] == "QQ";
    }
  }

  /** What it refuses: a length of remainder one by four, and a character outside the alphabet. */
  lemma {:induction false} AtobRejects()
    ensures Atob("Q") == None
    ensures Atob("QQ!=") == None
  {
    assert RemoveWhitespace("Q") == "Q" by {
      NoWhitespace("Q");
    }
    assert RemoveWhitespace("QQ!=") == "QQ!=" by {
      NoWhitespace("QQ!=");
    }
    assert StripPadding("QQ!=") == "QQ!" by {
      assert "QQ!="[2..] == "!=";
      assert "QQ!="[..3] == "QQ!";
    }
    assert Indices("QQ!") == None by {
      assert "QQ!"[1..] == "Q!" && "Q!"[1..] == "!";
      assert Index64('!') == None;
      assert Indices("!") == None;
    }
  }

  lemma {:induction false} RemoveWhitespaceExample()
    ensures RemoveWhitespace("Q Q=\n=") == "QQ=="
  {
    assert "Q Q=\n="[1..] == " Q=\n=";
    assert " Q=\n="[1..] == "Q=\n=";
    assert "Q=\n="[1..] == "=\n=";
    assert "=\n="[1..] == "\n=";
    assert "\n="[1..] == "=";
    assert "="[1..] == [];
    assert RemoveWhitespace("=") == "=";
    assert RemoveWhitespace("\n=") == "=";
    assert RemoveWhitespace("=\n=") == "==";
    assert RemoveWhitespace("Q=\n=") == "Q==";
    assert RemoveWhitespace(" Q=\n=") == "Q==";
  }
}
