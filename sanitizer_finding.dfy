/** An input on which `sanitizeText` of
    apps/web/src/app/modules/campaigns/create/utils/compression.utils.ts leaves a `javascript:`
    behind: each removal runs once, so removing one match can join the text around it into a new
    one. */
module SanitizerFinding {
  import opened Strings
  import opened TextSanitizer

  lemma {:induction false} NoAnglesUnchanged(s: string)
    requires '<' !in s && '>' !in s
    ensures RemoveAngles(s) == s
  {
    if s != [] {
      NoAnglesUnchanged(s[1..]);
      assert [s[0]] + s[1..] == s;
    }
  }

  lemma {:induction false} ShortUnchanged(s: string)
    requires |s| < 11
    ensures RemoveJs(s) == s
  {
    if s != [] {
      ShortUnchanged(s[1..]);
      assert [s[0]] + s[1..] == s;
    }
  }

  lemma {:induction false} NoEqualsUnchanged(s: string)
    requires '=' !in s
    ensures RemoveHandlers(s) == s
  {
    if s != [] {
      NoEqualsUnchanged(s[1..]);
      assert [s[0]] + s[1..] == s;
    }
  }

  lemma {:induction false} JsMatch(t: string)
    requires |t| >= 11 && t[..11] == "javascript:"
    ensures JsAtStart(t)
  {
    var l := Lower(t[..11]);
    assert forall k :: 0 <= k < 11 ==> l[k] == LowerChar(t[k]);
  }

  lemma {:induction false} JsMismatch(t: string, k: nat)
    requires k < 11 && k < |t| && LowerChar(t[k]) != "javascript:"[k]
    ensures !JsAtStart(t)
  {
    if |t| >= 11 {
      assert Lower(t[..11])[k] == LowerChar(t[k]);
    }
  }

  /** No match starts in the first `k` positions, so they are copied. */
  lemma {:induction false} RemoveJsSkip(s: string, k: nat)
    requires k <= |s| && forall j :: 0 <= j < k ==> !JsAtStart(s[j..])
    ensures RemoveJs(s) == s[..k] + RemoveJs(s[k..])
    decreases k
  {
    if k > 0 {
      var t := s[1..];
      assert s[0..] == s;
      assert RemoveJs(s) == [s[0]] + RemoveJs(t);
      forall j | 0 <= j < k - 1 ensures !JsAtStart(t[j..]) {
        assert t[j..] == s[j + 1..];
      }
      RemoveJsSkip(t, k - 1);
      assert t[k - 1..] == s[k..];
      assert [s[0]] + t[..k - 1] == s[..k];
      assert [s[0]] + (t[..k - 1] + RemoveJs(s[k..])) == ([s[0]] + t[..k - 1]) + RemoveJs(s[k..]);
    }
  }

  /** A `javascript:` at position 4 is removed and the four characters before it are joined with
      the seven after it. */
  lemma {:induction false} RemoveJsJoins(s: string)
    requires |s| == 22 && s[4..15] == "javascript:"
    requires LowerChar(s[1]) != 'j' && LowerChar(s[2]) != 'j' && LowerChar(s[3]) != 'j' && LowerChar(s[4]) != 's'
    ensures RemoveJs(s) == s[..4] + s[15..]
  {
    ShortUnchanged(s[15..]);
    JsMatch(s[4..]);
    assert s[4..][11..] == s[15..];
    JsMismatch(s[3..], 0);
    JsMismatch(s[2..], 0);
    JsMismatch(s[1..], 0);
    JsMismatch(s, 4);
    assert s[0..] == s;
    RemoveJsSkip(s, 4);
  }

  lemma {:induction false} PlainUnchanged(r: string)
    requires '=' !in r && r != [] && !IsSpace(r[0]) && !IsSpace(r[|r| - 1])
    ensures Trim(RemoveHandlers(r)) == r
  {
    NoEqualsUnchanged(r);
    assert TrimStart(r) == r;
    assert TrimEnd(r) == r;
  }

  /** The removal is a single pass: in `"java" + "javascript:" + "script:"` it removes the one
      match and so joins the text around it into a new `javascript:`, which it keeps. */
  lemma {:induction false} SanitizeTextKeepsJavascript(s: string)
    requires |s| == 22 && s[..4] == "java" && s[4..15] == "javascript:" && s[15..] == "script:"
    ensures SanitizeText(s) == "javascript:"
  {
    assert s[..4][1] == s[1] && s[..4][2] == s[2] && s[..4][3] == s[3];
    assert s[4..15][0] == s[4];
    forall i | 0 <= i < |s| ensures s[i] != '<' && s[i] != '>' {
      if i < 4 {
        assert s[i] == s[..4][i];
      } else if i < 15 {
        assert s[i] == s[4..15][i - 4];
      } else {
        assert s[i] == s[15..][i - 15];
      }
    }
    NoAnglesUnchanged(s);
    RemoveJsJoins(s);
    Joined();
    JoinedSurvives();
  }

  lemma {:induction false} Joined()
    ensures "java" + "script:" == "javascript:"
  {
  }

  /** What the first pass leaves is kept by the rest of the pipeline. */
  lemma {:induction false} JoinedSurvives()
    ensures Truncate(Trim(RemoveHandlers("javascript:"))) == "javascript:"
  {
    var r := "javascript:";
    assert r[0] == 'j' && r[10] == ':';
    assert forall i :: 0 <= i < |r| ==> r[i] != '=';
    PlainUnchanged(r);
  }
}
