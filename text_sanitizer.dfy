/** `sanitizeText` of apps/web/src/app/modules/campaigns/create/utils/compression.utils.ts, and the
    same removals repeated until they change nothing. */
module TextSanitizer {
  import opened Wrappers
  import opened Strings

  /** `.replace(/[<>]/g, '')` */
  function RemoveAngles(s: string): (r: string)
    ensures |r| <= |s| && (|r| == |s| ==> r == s)
    ensures forall c :: c in r ==> c in s && c != '<' && c != '>'
  {
    if s == [] then []
    else if s[0] == '<' || s[0] == '>' then RemoveAngles(s[1..])
    else [s[0]] + RemoveAngles(s[1..])
  }

  /** `/javascript:/i` matches at the start of `s`; the flag folds ASCII letters only. */
  predicate JsAtStart(s: string) {
    |s| >= 11 && Lower(s[..11]) == "javascript:"
  }

  /** `.replace(/javascript:/gi, '')`: matches are removed left to right and the scan goes on after
      each removed match. */
  function RemoveJs(s: string): (r: string)
    ensures |r| <= |s| && (|r| == |s| ==> r == s)
    ensures forall c :: c in r ==> c in s
  {
    if JsAtStart(s) then RemoveJs(s[11..])
    else if s == [] then []
    else [s[0]] + RemoveJs(s[1..])
  }

  /** `\w` */
  predicate IsWord(c: char) { IsAlnum(c) || c == '_' }

  /** The number of word characters `s` starts with. */
  function WordRun(s: string): (n: nat)
    ensures n <= |s|
    ensures forall k :: 0 <= k < n ==> IsWord(s[k])
    ensures n < |s| ==> !IsWord(s[n])
  {
    if s != [] && IsWord(s[0]) then 1 + WordRun(s[1..]) else 0
  }

  /** The length of the `/on\w+=/i` match at the start of `s`, if there is one. Since `=` is no
      word character, the greedy `\w+` must stop right before the `=`. */
  function HandlerAtStart(s: string): (r: Option<nat>)
    ensures r.Some? ==> 4 <= r.value <= |s|
  {
    if |s| >= 2 && LowerChar(s[0]) == 'o' && LowerChar(s[1]) == 'n' then
      var n := WordRun(s[2..]);
      if n >= 1 && 2 + n < |s| && s[2 + n] == '=' then Some(3 + n) else None
    else None
  }

  /** `.replace(/on\w+=/gi, '')` */
  function RemoveHandlers(s: string): (r: string)
    ensures |r| <= |s| && (|r| == |s| ==> r == s)
    ensures forall c :: c in r ==> c in s
    decreases |s|
  {
    match HandlerAtStart(s)
    case Some(n) => RemoveHandlers(s[n..])
    case None => if s == [] then [] else [s[0]] + RemoveHandlers(s[1..])
  }

  const MaxTextLength: nat := 1000

  /** `.slice(0, 1000)` */
  function Truncate(s: string): (r: string)
    ensures |r| <= MaxTextLength && |r| <= |s| && r == s[..|r|]
  {
    if |s| <= MaxTextLength then s else s[..MaxTextLength]
  }

  /** `sanitizeText`, as written. */
  function SanitizeText(text: string): (r: string)
    ensures |r| <= MaxTextLength
  {
    Truncate(Trim(RemoveHandlers(RemoveJs(RemoveAngles(text)))))
  }

  /** Where `Trim` cuts `s`: the result is the slice of `s` from this offset on. */
  function TrimOffset(s: string): nat {
    |s| - |TrimStart(s)|
  }

  lemma {:induction false} TrimIsSlice(s: string)
    ensures TrimOffset(s) + |Trim(s)| <= |s|
    ensures Trim(s) == s[TrimOffset(s)..TrimOffset(s) + |Trim(s)|]
  {
    var t := TrimStart(s);
    var a := |s| - |t|;
    var r := TrimEnd(t);
    assert t == s[a..];
    assert r == t[..|r|];
  }

  /** The output has no angle bracket and at most 1000 characters. */
  lemma {:induction false} SanitizeTextNoAngles(text: string)
    ensures var r := SanitizeText(text); |r| <= 1000 && '<' !in r && '>' !in r
  {
    var h := RemoveHandlers(RemoveJs(RemoveAngles(text)));
    TrimIsSlice(h);
    var t := Trim(h);
    assert forall c :: c in t ==> c in h;
    assert forall c :: c in Truncate(t) ==> c in t;
  }

  // ------------------------------------------------ sanitizeText, repeated to a fixed point

  function Scrub(s: string): (r: string)
    decreases |s|
  {
    var t := RemoveHandlers(RemoveJs(RemoveAngles(s)));
    if t == s then s else Scrub(t)
  }

  /** `sanitizeText` with its three removals repeated until they change nothing. */
  function SanitizeTextFixed(text: string): (r: string)
    ensures |r| <= MaxTextLength
  {
    Truncate(Trim(Scrub(text)))
  }

  /** Nothing any of the three removals would remove, wherever it looked. */
  predicate Clean(s: string) {
    && (forall i :: 0 <= i < |s| ==> s[i] != '<' && s[i] != '>')
    && (forall i :: 0 <= i <= |s| ==> !JsAtStart(s[i..]))
    && (forall i :: 0 <= i <= |s| ==> HandlerAtStart(s[i..]).None?)
  }

  lemma {:induction false} RemoveJsIdentity(s: string)
    requires RemoveJs(s) == s
    ensures forall i :: 0 <= i <= |s| ==> !JsAtStart(s[i..])
    decreases |s|
  {
    if JsAtStart(s) {
      assert false;
    } else if s != [] {
      assert RemoveJs(s[1..]) == s[1..];
      RemoveJsIdentity(s[1..]);
      forall i | 1 <= i <= |s| ensures !JsAtStart(s[i..]) {
        assert s[i..] == s[1..][i - 1..];
      }
    }
  }

  lemma {:induction false} RemoveHandlersIdentity(s: string)
    requires RemoveHandlers(s) == s
    ensures forall i :: 0 <= i <= |s| ==> HandlerAtStart(s[i..]).None?
    decreases |s|
  {
    if HandlerAtStart(s).Some? {
      assert false;
    } else if s != [] {
      assert RemoveHandlers(s[1..]) == s[1..];
      RemoveHandlersIdentity(s[1..]);
      forall i | 1 <= i <= |s| ensures HandlerAtStart(s[i..]).None? {
        assert s[i..] == s[1..][i - 1..];
      }
    }
  }

  /** A fixed point of the three removals has nothing left for any of them. */
  lemma {:induction false} ScrubIsClean(s: string)
    ensures Clean(Scrub(s))
    decreases |s|
  {
    var t := RemoveHandlers(RemoveJs(RemoveAngles(s)));
    if t == s {
      var a := RemoveAngles(s);
      assert |a| == |s| && a == s;
      assert RemoveJs(s) == s;
      RemoveJsIdentity(s);
      RemoveHandlersIdentity(s);
      forall i | 0 <= i < |s| ensures s[i] != '<' && s[i] != '>' {
        assert s[i] in a;
      }
    } else {
      ScrubIsClean(t);
    }
  }

  lemma {:induction false} JsAtStartPrefix(u: string, v: string)
    requires JsAtStart(u) && u <= v
    ensures JsAtStart(v)
  {
    assert u[..11] == v[..11];
  }

  lemma {:induction false} WordRunPrefix(u: string, v: string)
    requires WordRun(u) < |u| && u <= v
    ensures WordRun(v) == WordRun(u)
    decreases |u|
  {
    if IsWord(u[0]) {
      assert u[1..] <= v[1..];
      WordRunPrefix(u[1..], v[1..]);
    }
  }

  lemma {:induction false} HandlerAtStartPrefix(u: string, v: string)
    requires HandlerAtStart(u).Some? && u <= v
    ensures HandlerAtStart(v) == HandlerAtStart(u)
  {
    assert u[2..] <= v[2..];
    WordRunPrefix(u[2..], v[2..]);
    var n := WordRun(u[2..]);
    assert v[2 + n] == u[2 + n];
  }

  /** A piece of a clean string is clean. */
  lemma {:induction false} CleanSlice(s: string, a: nat, b: nat)
    requires Clean(s) && a <= b <= |s|
    ensures Clean(s[a..b])
  {
    var t := s[a..b];
    forall i | 0 <= i < |t| ensures t[i] != '<' && t[i] != '>' {
      assert t[i] == s[a + i];
    }
    forall i | 0 <= i <= |t| ensures !JsAtStart(t[i..]) && HandlerAtStart(t[i..]).None? {
      assert t[i..] <= s[a + i..];
      if JsAtStart(t[i..]) {
        JsAtStartPrefix(t[i..], s[a + i..]);
      }
      if HandlerAtStart(t[i..]).Some? {
        HandlerAtStartPrefix(t[i..], s[a + i..]);
      }
    }
  }

  /** The corrected sanitiser leaves no angle bracket, no `javascript:` in any case, and no
      `on…=` handler, within 1000 characters. */
  lemma {:induction false} SanitizeTextFixedClean(text: string)
    ensures Clean(SanitizeTextFixed(text))
  {
    var u := Scrub(text);
    ScrubIsClean(text);
    TrimIsSlice(u);
    var t := Trim(u);
    CleanSlice(u, TrimOffset(u), TrimOffset(u) + |t|);
    CleanSlice(t, 0, |Truncate(t)|);
  }

  /** On text the three removals leave unchanged, the correction agrees with the original. */
  lemma {:induction false} SanitizersAgreeOnFixedPoints(text: string)
    requires RemoveHandlers(RemoveJs(RemoveAngles(text))) == text
    ensures SanitizeTextFixed(text) == SanitizeText(text)
  {
  }

}
