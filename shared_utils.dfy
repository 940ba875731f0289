/** The helpers of shared/src/utils/index.ts shared by the web app and the services: Malagasy phone
    numbers, language choice and the small French/Malagasy dictionary, business sectors, the
    complexity score of an AI prompt, retry with exponential backoff, and the offline text
    "compression" made of `encodeURIComponent` and `btoa`. */
module SharedUtils {
  import opened Wrappers
  import opened Strings
  import opened Seqs
  import opened JsNumber
  import Utf8
  import Base64
  import UriComponent

  // ---------------------------------------------------------------- whitespace

  /** `s.replace(/\s/g, '')` */
  function RemoveSpaces(s: string): (r: string)
    ensures |r| <= |s|
    ensures forall i :: 0 <= i < |r| ==> !IsSpace(r[i])
  {
    if s == [] then [] else if IsSpace(s[0]) then RemoveSpaces(s[1..]) else [s[0]] + RemoveSpaces(s[1..])
  }

  lemma {:induction false} RemoveSpacesConcat(a: string, b: string)
    ensures RemoveSpaces(a + b) == RemoveSpaces(a) + RemoveSpaces(b)
  {
    if a == [] {
      assert a + b == b;
    } else {
      assert (a + b)[1..] == a[1..] + b;
      RemoveSpacesConcat(a[1..], b);
    }
  }

  lemma {:induction false} RemoveSpacesWithout(s: string)
    requires forall i :: 0 <= i < |s| ==> !IsSpace(s[i])
    ensures RemoveSpaces(s) == s
  {
    if s != [] {
      RemoveSpacesWithout(s[1..]);
      assert [s[0]] + s[1..] == s;
    }
  }

  // ---------------------------------------------------------------- phone numbers

  predicate DigitsAt(s: string, i: nat, n: nat) {
    i + n <= |s| && forall k :: i <= k < i + n ==> IsDigit(s[k])
  }

  /** The two digits after the prefix: 32 to 39 or 70 to 79. */
  predicate OperatorCode(a: char, b: char) {
    (a == '3' && '2' <= b <= '9') || (a == '7' && IsDigit(b))
  }

  /** `^(\+261|0)(3[2-9]|7[0-9])[0-9]{7}$` */
  predicate PhonePattern(c: string) {
    || (|c| == 13 && c[..4] == "+261" && OperatorCode(c[4], c[5]) && DigitsAt(c, 6, 7))
    || (|c| == 10 && c[0] == '0' && OperatorCode(c[1], c[2]) && DigitsAt(c, 3, 7))
  }

  predicate IsValidMalagasyPhone(phone: string) {
    PhonePattern(RemoveSpaces(phone))
  }

  /** Where `(\+261)(\d{2})(\d{3})(\d{4})` (international) or `(\d{3})(\d{2})(\d{3})(\d{2})`
      (local) matches. */
  predicate GroupsAt(c: string, i: nat, international: bool) {
    if international then i + 13 <= |c| && c[i..i + 4] == "+261" && DigitsAt(c, i + 4, 9)
    else DigitsAt(c, i, 10)
  }

  /** The leftmost match at `i` or after it, as a non-global `replace` finds it. */
  function FirstMatch(c: string, i: nat, international: bool): (r: Option<nat>)
    ensures r.Some? ==> i <= r.value <= |c| && GroupsAt(c, r.value, international)
    ensures r.Some? ==> forall k :: i <= k < r.value ==> !GroupsAt(c, k, international)
    ensures r.None? ==> forall k :: i <= k <= |c| ==> !GroupsAt(c, k, international)
    decreases |c| - i
  {
    if i > |c| then None
    else if GroupsAt(c, i, international) then Some(i)
    else FirstMatch(c, i + 1, international)
  }

  /** The match at `j` replaced by its groups separated by spaces. */
  function Spaced(c: string, j: nat, international: bool): string
    requires GroupsAt(c, j, international)
  {
    if international then
      c[..j] + c[j..j + 4] + " " + c[j + 4..j + 6] + " " + c[j + 6..j + 9] + " " + c[j + 9..j + 13] + c[j + 13..]
    else
      c[..j] + c[j..j + 3] + " " + c[j + 3..j + 5] + " " + c[j + 5..j + 8] + " " + c[j + 8..j + 10] + c[j + 10..]
  }

  function FormatMalagasyPhone(phone: string): string {
    var c := RemoveSpaces(phone);
    if IsPrefix("+261", c) then
      match FirstMatch(c, 0, true)
      case None => c
      case Some(j) => Spaced(c, j, true)
    else if IsPrefix("0", c) then
      match FirstMatch(c, 0, false)
      case None => c
      case Some(j) => Spaced(c, j, false)
    else phone
  }

  /** A number that starts with neither `+261` nor `0` once its spaces are gone is returned as it
      was given, spaces included. */
  lemma {:induction false} FormatOther(phone: string)
    requires !IsPrefix("+261", RemoveSpaces(phone)) && !IsPrefix("0", RemoveSpaces(phone))
    ensures FormatMalagasyPhone(phone) == phone
  {
  }

  /** A valid number is written `+261 XX XXX XXXX` or `0XX XX XXX XX`, and its digits are
      unchanged: removing the spaces again gives the cleaned number. */
  lemma {:induction false} FormatValid(phone: string)
    requires IsValidMalagasyPhone(phone)
    ensures var c, f := RemoveSpaces(phone), FormatMalagasyPhone(phone);
      && RemoveSpaces(f) == c
      && |f| == |c| + 3
      && (if c[0] == '+' then f[4] == ' ' && f[7] == ' ' && f[11] == ' '
          else f[3] == ' ' && f[6] == ' ' && f[10] == ' ')
  {
    var c := RemoveSpaces(phone);
    var intl := c[0] == '+';
    assert GroupsAt(c, 0, intl);
    assert FirstMatch(c, 0, intl) == Some(0);
    if intl {
      assert IsPrefix("+261", c);
      SpacedInternational(c);
    } else {
      assert !IsPrefix("+261", c) && IsPrefix("0", c);
      SpacedLocal(c);
    }
  }

  lemma {:induction false} SpacedInternational(c: string)
    requires |c| == 13 && GroupsAt(c, 0, true)
    ensures var f := Spaced(c, 0, true);
      RemoveSpaces(f) == c && |f| == 16 && f[4] == ' ' && f[7] == ' ' && f[11] == ' '
  {
    var a, b, d, e := c[..4], c[4..6], c[6..9], c[9..13];
    assert Spaced(c, 0, true) == a + " " + b + " " + d + " " + e by {
      assert c[..0] == [] && c[13..] == [];
    }
    assert c == a + b + d + e;
    RemoveSpacesGroups(a, b, d, e);
  }

  lemma {:induction false} SpacedLocal(c: string)
    requires |c| == 10 && GroupsAt(c, 0, false)
    ensures var f := Spaced(c, 0, false);
      RemoveSpaces(f) == c && |f| == 13 && f[3] == ' ' && f[6] == ' ' && f[10] == ' '
  {
    var a, b, d, e := c[..3], c[3..5], c[5..8], c[8..10];
    assert Spaced(c, 0, false) == a + " " + b + " " + d + " " + e by {
      assert c[..0] == [] && c[10..] == [];
    }
    assert c == a + b + d + e;
    RemoveSpacesGroups(a, b, d, e);
  }

  lemma {:induction false} RemoveSpacesGroups(a: string, b: string, d: string, e: string)
    requires forall i :: 0 <= i < |a| ==> !IsSpace(a[i])
    requires forall i :: 0 <= i < |b| ==> !IsSpace(b[i])
    requires forall i :: 0 <= i < |d| ==> !IsSpace(d[i])
    requires forall i :: 0 <= i < |e| ==> !IsSpace(e[i])
    ensures RemoveSpaces(a + " " + b + " " + d + " " + e) == a + b + d + e
  {
    RemoveSpacesWithout(a);
    var ab := a + " " + b;
    RemoveSpacesJoin(a, b);
    var abd := ab + " " + d;
    RemoveSpacesJoin(ab, d);
    RemoveSpacesJoin(abd, e);
  }

  /** A space and a space-free tail: the space goes, the tail stays. */
  lemma {:induction false} RemoveSpacesJoin(x: string, y: string)
    requires forall i :: 0 <= i < |y| ==> !IsSpace(y[i])
    ensures RemoveSpaces(x + " " + y) == RemoveSpaces(x) + y
  {
    var t := " " + y;
    assert x + " " + y == x + t;
    RemoveSpacesConcat(x, t);
    assert t[0] == ' ' && t[1..] == y;
    RemoveSpacesWithout(y);
    assert RemoveSpaces(t) == RemoveSpaces(y);
  }

  /** The operator code decides: 32 is a code, 31 is not; the length must be exact. */
  lemma {:induction false} PhonePatternExamples()
    ensures PhonePattern("0321234567")
    ensures !PhonePattern("0311234567")
    ensures !PhonePattern("+2613412345678")
  {
  }

  // ---------------------------------------------------------------- languages

  datatype Language = Fr | Mg

  /** The user's language, else French for a French browser, else Malagasy. */
  function DetectPreferredLanguage(userLang: Option<Language>, browserLang: Option<string>): (r: Language)
    ensures userLang.Some? ==> r == userLang.value
    ensures userLang.None? ==> (r == Fr <==> browserLang.Some? && IsPrefix("fr", browserLang.value))
  {
    if userLang.Some? then userLang.value
    else if browserLang.Some? && IsPrefix("fr", browserLang.value) then Fr
    else Mg
  }

  /** The dictionary: French, then Malagasy. */
  const Translations: map<string, (string, string)> := map[
    "dashboard" := ("Tableau de bord", "Tohatra"),
    "content" := ("Contenu", "Votoaty"),
    "training" := ("Formation", "Fampianarana"),
    "settings" := ("Paramètres", "Fandrindrana"),
    "create" := ("Créer", "Mamorona"),
    "edit" := ("Modifier", "Manova"),
    "delete" := ("Supprimer", "Mamafa"),
    "save" := ("Enregistrer", "Mitahiry"),
    "cancel" := ("Annuler", "Manafoana"),
    "active" := ("Actif", "Miasa"),
    "inactive" := ("Inactif", "Tsy miasa"),
    "pending" := ("En attente", "Miandry"),
    "completed" := ("Terminé", "Vita"),
    "agriculture" := ("Agriculture", "Fambolena"),
    "artisanat" := ("Artisanat", "Asa tanana"),
    "commerce" := ("Commerce", "Varotra"),
    "restauration" := ("Restauration", "Sakafo"),
    "services" := ("Services", "Serivisy"),
    "tourisme" := ("Tourisme", "Fizahan-tany"),
    "textile" := ("Textile", "Lamba"),
    "transport" := ("Transport", "Fitaterana"),
    "required_field" := ("Ce champ est obligatoire", "Ilaina io sehatra io"),
    "invalid_email" := ("Email invalide", "Email tsy mety"),
    "invalid_phone" := ("Numéro de téléphone invalide", "Nomeraon-telefaona tsy mety"),
    "network_error" := ("Erreur réseau", "Olana amin'ny fifandraisana"),
    "user_created" := ("Utilisateur créé avec succès", "Mpampiasa voaforona tsara"),
    "content_generated" := ("Contenu généré avec succès", "Votoaty voaforona tsara"),
    "payment_success" := ("Paiement effectué avec succès", "Fandoavam-bola vita tsara")
  ]

  /** The entry for the language, or the key itself when there is no non-empty entry. */
  function Translate(key: string, lang: Language): (r: string)
    ensures key !in Translations ==> r == key
    ensures key in Translations && lang == Fr && Translations[key].0 != "" ==> r == Translations[key].0
    ensures key in Translations && lang == Mg && Translations[key].1 != "" ==> r == Translations[key].1
  {
    var entry := if key !in Translations then "" else if lang == Fr then Translations[key].0 else Translations[key].1;
    if entry != "" then entry else key
  }

  lemma {:induction false} TranslateExamples()
    ensures Translate("save", Mg) == "Mitahiry"
    ensures Translate("completed", Fr) == "Terminé"
    ensures Translate("logout", Fr) == "logout"
  {
  }

  // ---------------------------------------------------------------- sectors

  const ValidSectors: seq<string> :=
    ["AGRICULTURE", "ARTISANAT", "COMMERCE", "RESTAURATION", "SERVICES", "TOURISME", "TEXTILE", "TRANSPORT", "AUTRES"]

  predicate IsValidSector(sector: string) {
    Upper(sector) in ValidSectors
  }

  lemma {:induction false} UpperOfLower(s: string)
    ensures Upper(Lower(s)) == Upper(s)
  {
    assert forall i :: 0 <= i < |s| ==> UpperChar(LowerChar(s[i])) == UpperChar(s[i]);
  }

  /** The check ignores case: a name and its lower-case or upper-case form are treated alike. */
  lemma {:induction false} SectorIgnoresCase(sector: string)
    ensures IsValidSector(Lower(sector)) == IsValidSector(sector)
    ensures IsValidSector(Upper(sector)) == IsValidSector(sector)
  {
    UpperOfLower(sector);
    assert forall i :: 0 <= i < |sector| ==> UpperChar(UpperChar(sector[i])) == UpperChar(sector[i]);
    assert Upper(Upper(sector)) == Upper(sector);
  }

  lemma {:induction false} SectorExamples()
    ensures IsValidSector("tourisme") && IsValidSector("Autres")
    ensures !IsValidSector("peche")
  {
    assert Upper("tourisme") == "TOURISME";
    assert Upper("Autres") == "AUTRES";
    assert |Upper("peche")| == 5;
  }

  // ---------------------------------------------------------------- prompt complexity

  /** The maximal runs of whitespace in `s`, not counting one that continues a run already open. */
  function SpaceRuns(s: string, inRun: bool): nat {
    if s == [] then 0
    else if IsSpace(s[0]) then (if inRun then 0 else 1) + SpaceRuns(s[1..], true)
    else SpaceRuns(s[1..], false)
  }

  /** `prompt.split(/\s+/).length`: one piece more than there are whitespace runs, so leading and
      trailing whitespace add empty pieces, and the empty prompt is one piece. */
  function Words(s: string): nat { SpaceRuns(s, false) + 1 }

  predicate IsSpecial(c: char) {
    || c == '!' || c == '@' || c == '#' || c == '$' || c == '%' || c == '^' || c == '&' || c == '*'
    || c == '(' || c == ')' || c == '_' || c == '+' || c == '=' || c == '[' || c == ']' || c == '{'
    || c == '}' || c == '|' || c == ';' || c == '\'' || c == ':' || c == '"' || c == ',' || c == '.'
    || c == '<' || c == '>' || c == '?'
  }

  predicate IsQuestion(c: char) { c == '?' }

  function Score(prompt: string): real {
    (Words(prompt) * 2 + Count(prompt, IsSpecial) * 3 + Count(prompt, IsQuestion) * 5) as real / 10.0
  }

  function CalculateContentComplexity(prompt: string): (r: int)
    ensures 0 <= r <= 100
  {
    var rounded := Round(Score(prompt));
    if rounded < 100 then rounded else 100
  }

  lemma {:induction false} SpaceRunsAppend(s: string, inRun: bool, c: char)
    requires !IsSpace(c)
    ensures SpaceRuns(s + [c], inRun) == SpaceRuns(s, inRun)
  {
    if s == [] {
      assert [] + [c] == [c];
    } else {
      assert (s + [c])[1..] == s[1..] + [c];
      SpaceRunsAppend(s[1..], IsSpace(s[0]), c);
    }
  }

  /** Another question mark never lowers the score: it adds a special character and a question
      and leaves the word count as it was. */
  lemma {:induction false} QuestionRaisesComplexity(prompt: string)
    ensures Score(prompt + "?") == Score(prompt) + 0.8
    ensures CalculateContentComplexity(prompt) <= CalculateContentComplexity(prompt + "?")
  {
    SpaceRunsAppend(prompt, false, '?');
    CountConcat(prompt, "?", IsSpecial);
    CountConcat(prompt, "?", IsQuestion);
    assert Count("?", IsSpecial) == 1 && Count("?", IsQuestion) == 1;
  }

  /** Leading whitespace opens an empty first piece. */
  lemma {:induction false} WordsExamples()
    ensures Words("") == 1 && Words("a b") == 2 && Words(" a  b ") == 4
  {
    assert "a b"[1..] == " b" && " b"[1..] == "b" && "b"[1..] == "";
    assert "b "[1..] == " " && " "[1..] == "";
    assert SpaceRuns("b ", true) == 1;
    assert "  b "[1..] == " b " && " b "[1..] == "b ";
    assert SpaceRuns("  b ", false) == 2;
    assert " a  b "[1..] == "a  b " && "a  b "[1..] == "  b ";
  }

  // ---------------------------------------------------------------- retry with backoff

  /** How the `i`-th call of the retried function settles. */
  datatype Attempt<T> = Resolved(value: T) | Rejected(error: string)

  /** How `retryWithBackoff` settles; `Threw(None)` is the `undefined` it throws when it made no
      call at all. */
  datatype Retried<T> = Returned(value: T) | Threw(error: Option<string>)

  function Pow2(i: nat): (r: nat)
    ensures r >= 1
  {
    if i == 0 then 1 else 2 * Pow2(i - 1)
  }

  /** Calls `fn` up to `maxRetries + 1` times, waiting `baseDelay · 2^i` after the `i`-th failure
      when another try is left. `calls` counts the calls; `delays` lists the waits in order. */
  method RetryWithBackoff<T>(fn: nat -> Attempt<T>, maxRetries: int, baseDelay: int)
    returns (r: Retried<T>, calls: nat, delays: seq<int>)
    ensures r.Returned? <==> exists k :: 0 <= k <= maxRetries && fn(k).Resolved?
    ensures r.Returned? ==> 1 <= calls <= maxRetries + 1 && fn(calls - 1) == Resolved(r.value)
    ensures forall j :: 0 <= j < calls - 1 ==> fn(j).Rejected?
    ensures r.Threw? ==> calls == (if maxRetries < 0 then 0 else maxRetries + 1)
    ensures r.Threw? ==> r.error == (if maxRetries < 0 then None else Some(fn(maxRetries).error))
    ensures |delays| == (if r.Returned? then calls - 1 else if maxRetries < 0 then 0 else maxRetries)
    ensures forall k :: 0 <= k < |delays| ==> delays[k] == baseDelay * Pow2(k)
  {
    var lastError: Option<string> := None;
    var i := 0;
    calls, delays := 0, [];
    while i <= maxRetries
      invariant calls == i
      invariant i == 0 || i <= maxRetries + 1
      invariant forall j :: 0 <= j < i ==> fn(j).Rejected?
      invariant lastError == if i == 0 then None else Some(fn(i - 1).error)
      invariant |delays| == (if i > maxRetries && i > 0 then i - 1 else i)
      invariant forall k :: 0 <= k < |delays| ==> delays[k] == baseDelay * Pow2(k)
      decreases maxRetries + 1 - i
    {
      var outcome := fn(i);
      calls := calls + 1;
      match outcome
      case Resolved(v) =>
        r := Returned(v);
        return;
      case Rejected(e) =>
        lastError := Some(e);
        if i < maxRetries {
          delays := delays + [baseDelay * Pow2(i)];
        }
      i := i + 1;
    }
    r := Threw(lastError);
  }

  function AlwaysDown(i: nat): Attempt<int> { Rejected("network down") }

  function UpOnThirdCall(i: nat): Attempt<int> { if i < 2 then Rejected("timeout") else Resolved(42) }

  /** With the defaults (3 retries, 1000 ms), a function that always fails is called four times,
      with waits of 1, 2 and 4 seconds, and its last error is thrown. */
  method DefaultsAllFail() returns (r: Retried<int>, calls: nat, delays: seq<int>)
    ensures r == Threw(Some("network down")) && calls == 4 && delays == [1000, 2000, 4000]
  {
    r, calls, delays := RetryWithBackoff(AlwaysDown, 3, 1000);
    assert Pow2(2) == 4;
  }

  /** A function that succeeds on its third call returns after two waits. */
  method SucceedsOnThirdCall() returns (r: Retried<int>, calls: nat, delays: seq<int>)
    ensures r == Returned(42) && calls == 3 && delays == [1000, 2000]
  {
    r, calls, delays := RetryWithBackoff(UpOnThirdCall, 3, 1000);
    assert UpOnThirdCall(0).Rejected? && UpOnThirdCall(1).Rejected? && UpOnThirdCall(2) == Resolved(42);
  }

  // ---------------------------------------------------------------- offline compression

  /** `btoa(encodeURIComponent(text))`; the URI encoding is ASCII, so `btoa` never throws here. */
  function CompressText(text: string): string {
    var e := UriComponent.EncodeUriComponent(text);
    assert Base64.IsLatin1(e);
    Base64.Btoa(e).value
  }

  /** `decodeURIComponent(atob(compressed))`, or the input itself when either step throws. */
  function DecompressText(compressed: string): string {
    match Base64.Atob(compressed)
    case None => compressed
    case Some(b) =>
      match UriComponent.DecodeUriComponent(b)
      case None => compressed
      case Some(t) => t
  }

  /** Decompression undoes compression for every string of Unicode scalar values. */
  lemma {:induction false} DecompressCompress(text: string)
    ensures DecompressText(CompressText(text)) == text
  {
    var e := UriComponent.EncodeUriComponent(text);
    assert Base64.IsLatin1(e);
    Base64.AtobBtoa(e);
    UriComponent.DecodeEncode(text);
  }

  /** What compression writes is base64 text: groups of four alphabet characters, with `=` only as
      padding at the end. */
  lemma {:induction false} CompressedAlphabet(text: string)
    ensures var r := CompressText(text);
      && |r| % 4 == 0
      && (forall i :: 0 <= i < |r| ==> Base64.InAlphabet(r[i]) || r[i] == '=')
      && (forall i, j :: 0 <= i < j < |r| && r[i] == '=' ==> r[j] == '=')
  {
    var e := UriComponent.EncodeUriComponent(text);
    assert Base64.IsLatin1(e);
    Base64.BtoaShape(e);
  }

  /** Input that is not base64, or whose decoding is not a URI-encoded string, comes back as it was. */
  lemma {:induction false} DecompressFailure(compressed: string)
    requires Base64.Atob(compressed).None? || UriComponent.DecodeUriComponent(Base64.Atob(compressed).value).None?
    ensures DecompressText(compressed) == compressed
  {
  }

  lemma {:induction false} DecompressExamples()
    ensures DecompressText("Q") == "Q"
    ensures DecompressText("QQ") == "A"
  {
    Base64.AtobRejects();
    Base64.AtobAccepts();
    assert UriComponent.DecodeUriComponent("A") == Some("A") by {
      assert "A"[1..] == [];
    }
  }
}
