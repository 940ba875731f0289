/** The pure helpers of apps/web/src/app/modules/campaigns/create/utils/compression.utils.ts: the
    resize arithmetic of image compression, the image and video file checks, and the text and file
    name sanitisers. */
module CompressionUtils {
  import opened Wrappers
  import opened Strings
  import opened JsNumber

  // ---------------------------------------------------------------- resize

  /** The size before rounding: the width is brought down to `maxWidth`, then the height to
      `maxHeight`, each time keeping the width-to-height ratio. */
  function Fitted(originalWidth: nat, originalHeight: nat, maxWidth: nat, maxHeight: nat): (real, real)
    requires originalWidth > 0 && originalHeight > 0
  {
    var ratio := originalWidth as real / originalHeight as real;
    var w1 := if originalWidth > maxWidth then maxWidth as real else originalWidth as real;
    var h1 := if originalWidth > maxWidth then maxWidth as real / ratio else originalHeight as real;
    if h1 > maxHeight as real then (maxHeight as real * ratio, maxHeight as real) else (w1, h1)
  }

  /** `calculateDimensions`, assigning `width` and `height` step by step. */
  method CalculateDimensions(originalWidth: nat, originalHeight: nat, maxWidth: nat, maxHeight: nat)
    returns (width: int, height: int)
    requires originalWidth > 0 && originalHeight > 0
    ensures width == Round(Fitted(originalWidth, originalHeight, maxWidth, maxHeight).0)
    ensures height == Round(Fitted(originalWidth, originalHeight, maxWidth, maxHeight).1)
  {
    var ratio := originalWidth as real / originalHeight as real;
    var w: real := originalWidth as real;
    var h: real := originalHeight as real;
    if w > maxWidth as real {
      w := maxWidth as real;
      h := w / ratio;
    }
    assert w == if originalWidth > maxWidth then maxWidth as real else originalWidth as real;
    assert h == if originalWidth > maxWidth then maxWidth as real / ratio else originalHeight as real;
    if h > maxHeight as real {
      h := maxHeight as real;
      w := h * ratio;
    }
    ghost var f := Fitted(originalWidth, originalHeight, maxWidth, maxHeight);
    assert w == f.0;
    assert h == f.1;
    width, height := Round(w), Round(h);
  }

  lemma {:induction false} RoundMonotone(x: real, n: int)
    requires x <= n as real
    ensures Round(x) <= n
  {
  }

  lemma {:induction false} DivTimes(x: real, y: real)
    requires y > 0.0
    ensures (x / y) * y == x
  {
  }

  lemma {:induction false} TimesLess(a: real, b: real, c: real)
    requires a < b && c > 0.0
    ensures a * c < b * c
  {
  }

  /** Both ways of writing "has the ratio `ow : oh`" agree. */
  lemma {:induction false} RatioForms(w: real, h: real, ow: real, oh: real)
    requires ow > 0.0 && oh > 0.0 && h * (ow / oh) == w
    ensures w * oh == h * ow
  {
    var ratio := ow / oh;
    DivTimes(ow, oh);
    assert w * oh == (h * ratio) * oh == h * (ratio * oh);
  }

  /** Before the height step, the size already has the original ratio. */
  lemma {:induction false} WidthStepRatio(originalWidth: nat, originalHeight: nat, maxWidth: nat)
    requires originalWidth > 0 && originalHeight > 0
    ensures var ratio := originalWidth as real / originalHeight as real;
      (if originalWidth > maxWidth then maxWidth as real / ratio else originalHeight as real) * ratio
        == if originalWidth > maxWidth then maxWidth as real else originalWidth as real
  {
    var ratio := originalWidth as real / originalHeight as real;
    assert ratio > 0.0;
    if originalWidth > maxWidth {
      DivTimes(maxWidth as real, ratio);
    } else {
      DivTimes(originalWidth as real, originalHeight as real);
    }
  }

  /** The fitted size keeps the original ratio and stays within both bounds. */
  lemma {:induction false} FittedWithinBounds(originalWidth: nat, originalHeight: nat, maxWidth: nat, maxHeight: nat)
    requires originalWidth > 0 && originalHeight > 0
    ensures var f := Fitted(originalWidth, originalHeight, maxWidth, maxHeight);
      && f.0 <= maxWidth as real && f.1 <= maxHeight as real
      && f.1 * (originalWidth as real / originalHeight as real) == f.0
  {
    var ratio := originalWidth as real / originalHeight as real;
    assert ratio > 0.0;
    var w1 := if originalWidth > maxWidth then maxWidth as real else originalWidth as real;
    var h1 := if originalWidth > maxWidth then maxWidth as real / ratio else originalHeight as real;
    WidthStepRatio(originalWidth, originalHeight, maxWidth);
    assert h1 * ratio == w1;
    if h1 > maxHeight as real {
      TimesLess(maxHeight as real, h1, ratio);
    }
  }

  /** The fitted size has the original width-to-height ratio. */
  lemma {:induction false} FittedKeepsRatio(originalWidth: nat, originalHeight: nat, maxWidth: nat, maxHeight: nat)
    requires originalWidth > 0 && originalHeight > 0
    ensures var f := Fitted(originalWidth, originalHeight, maxWidth, maxHeight);
      f.0 * originalHeight as real == f.1 * originalWidth as real
  {
    var f := Fitted(originalWidth, originalHeight, maxWidth, maxHeight);
    FittedWithinBounds(originalWidth, originalHeight, maxWidth, maxHeight);
    RatioForms(f.0, f.1, originalWidth as real, originalHeight as real);
  }

  /** Rounding the fitted size keeps it within both bounds. */
  lemma {:induction false} RoundedWithinBounds(originalWidth: nat, originalHeight: nat, maxWidth: nat, maxHeight: nat)
    requires originalWidth > 0 && originalHeight > 0
    ensures var f := Fitted(originalWidth, originalHeight, maxWidth, maxHeight);
      Round(f.0) <= maxWidth && Round(f.1) <= maxHeight
  {
    var f := Fitted(originalWidth, originalHeight, maxWidth, maxHeight);
    FittedWithinBounds(originalWidth, originalHeight, maxWidth, maxHeight);
    RoundMonotone(f.0, maxWidth);
    RoundMonotone(f.1, maxHeight);
  }

  lemma {:induction false} RoundWhole(n: int)
    ensures Round(n as real) == n
  {
  }

  /** A size already within both bounds is left alone. */
  lemma {:induction false} FittedInBounds(originalWidth: nat, originalHeight: nat, maxWidth: nat, maxHeight: nat)
    requires originalWidth > 0 && originalHeight > 0
    requires originalWidth <= maxWidth && originalHeight <= maxHeight
    ensures var f := Fitted(originalWidth, originalHeight, maxWidth, maxHeight);
      Round(f.0) == originalWidth && Round(f.1) == originalHeight
  {
    assert Fitted(originalWidth, originalHeight, maxWidth, maxHeight) == (originalWidth as real, originalHeight as real);
    RoundWhole(originalWidth);
    RoundWhole(originalHeight);
  }

  // ---------------------------------------------------------------- file checks

  datatype Check = Check(valid: bool, error: Option<string>)

  const ImageTypes: seq<string> := ["image/jpeg", "image/png", "image/webp", "image/gif"]
  const VideoTypes: seq<string> := ["video/mp4", "video/webm", "video/ogg"]
  const MaxImageSize: nat := 10 * 1024 * 1024
  const MaxVideoSize: nat := 100 * 1024 * 1024

  /** `validateImageFile` on the file's MIME type and size in bytes. The type is checked first. */
  function ValidateImageFile(fileType: string, size: int): (r: Check)
    ensures r.valid <==> fileType in ImageTypes && size <= MaxImageSize
    ensures r.valid <==> r.error.None?
    ensures fileType !in ImageTypes ==> r.error == Some("Type de fichier non supporté. Utilisez JPG, PNG, WebP ou GIF.")
    ensures fileType in ImageTypes && size > MaxImageSize ==> r.error == Some("Fichier trop volumineux. Taille maximum : 10MB.")
  {
    if fileType !in ImageTypes then Check(false, Some("Type de fichier non supporté. Utilisez JPG, PNG, WebP ou GIF."))
    else if size > MaxImageSize then Check(false, Some("Fichier trop volumineux. Taille maximum : 10MB."))
    else Check(true, None)
  }

  /** `validateVideoFile`, the same checks with the video types and a 100 MiB limit. */
  function ValidateVideoFile(fileType: string, size: int): (r: Check)
    ensures r.valid <==> fileType in VideoTypes && size <= MaxVideoSize
    ensures r.valid <==> r.error.None?
    ensures fileType !in VideoTypes ==> r.error == Some("Type de fichier non supporté. Utilisez MP4, WebM ou OGG.")
    ensures fileType in VideoTypes && size > MaxVideoSize ==> r.error == Some("Fichier trop volumineux. Taille maximum : 100MB.")
  {
    if fileType !in VideoTypes then Check(false, Some("Type de fichier non supporté. Utilisez MP4, WebM ou OGG."))
    else if size > MaxVideoSize then Check(false, Some("Fichier trop volumineux. Taille maximum : 100MB."))
    else Check(true, None)
  }

  /** An oversized file of an unsupported type is reported for its type. */
  lemma {:induction false} TypeCheckedFirst(size: int)
    requires size > MaxVideoSize
    ensures ValidateImageFile("video/mp4", size).error == Some("Type de fichier non supporté. Utilisez JPG, PNG, WebP ou GIF.")
    ensures ValidateVideoFile("image/png", size).error == Some("Type de fichier non supporté. Utilisez MP4, WebM ou OGG.")
  {
  }

  // ---------------------------------------------------------------- sanitizeFileName

  /** What `[a-zA-Z0-9.-]` matches. */
  predicate FileNameChar(c: char) { IsAlnum(c) || c == '.' || c == '-' }

  predicate NameOrUnderscore(c: char) { FileNameChar(c) || c == '_' }

  /** What a sanitized name is made of. */
  predicate SafeChar(c: char) { IsDigit(c) || IsLowerLetter(c) || c == '.' || c == '-' || c == '_' }

  /** `.replace(/[^a-zA-Z0-9.-]/g, '_')`. A character outside the Basic Multilingual Plane is two
      code units and so two underscores in JavaScript, which the next step merges anyway. */
  function ReplaceSpecial(s: string): (r: string)
    ensures |r| == |s|
    ensures forall i :: 0 <= i < |s| ==> r[i] == if FileNameChar(s[i]) then s[i] else '_'
  {
    seq(|s|, i requires 0 <= i < |s| => if FileNameChar(s[i]) then s[i] else '_')
  }

  function DropUnderscores(s: string): (r: string)
    ensures |r| <= |s| && r == s[|s| - |r|..]
    ensures r == [] || r[0] != '_'
  {
    if s != [] && s[0] == '_' then DropUnderscores(s[1..]) else s
  }

  predicate NoDoubleUnderscore(s: string) {
    forall i :: 0 <= i < |s| - 1 ==> !(s[i] == '_' && s[i + 1] == '_')
  }

  /** `.replace(/_{2,}/g, '_')`: every run of underscores becomes one. */
  function CollapseUnderscores(s: string): (r: string)
    ensures |r| <= |s|
    ensures NoDoubleUnderscore(r)
    ensures r != [] && r[0] == '_' <==> s != [] && s[0] == '_'
    ensures (forall i :: 0 <= i < |s| ==> NameOrUnderscore(s[i])) ==> forall i :: 0 <= i < |r| ==> NameOrUnderscore(r[i])
    decreases |s|
  {
    if s == [] then []
    else if s[0] == '_' then "_" + CollapseUnderscores(DropUnderscores(s))
    else [s[0]] + CollapseUnderscores(s[1..])
  }

  /** `.replace(/^_|_$/g, '')` */
  function StripEdgeUnderscores(s: string): (r: string)
    ensures |r| <= |s|
  {
    var t := if s != [] && s[0] == '_' then s[1..] else s;
    if t != [] && t[|t| - 1] == '_' then t[..|t| - 1] else t
  }

  /** `sanitizeFileName` */
  function SanitizeFileName(fileName: string): string {
    Lower(StripEdgeUnderscores(CollapseUnderscores(ReplaceSpecial(fileName))))
  }

  predicate SafeFileName(s: string) {
    && (forall i :: 0 <= i < |s| ==> SafeChar(s[i]))
    && NoDoubleUnderscore(s)
    && (s == [] || (s[0] != '_' && s[|s| - 1] != '_'))
  }

  lemma {:induction false} StripEdgesSafe(s: string)
    requires forall i :: 0 <= i < |s| ==> NameOrUnderscore(s[i])
    requires NoDoubleUnderscore(s)
    ensures var r := StripEdgeUnderscores(s);
      && (forall i :: 0 <= i < |r| ==> NameOrUnderscore(r[i]))
      && NoDoubleUnderscore(r)
      && (r == [] || (r[0] != '_' && r[|r| - 1] != '_'))
  {
    var t := if s != [] && s[0] == '_' then s[1..] else s;
    assert t == [] || t[0] != '_' by {
      if s != [] && s[0] == '_' && |s| >= 2 {
        assert s[1] != '_';
      }
    }
    assert NoDoubleUnderscore(t);
    if t != [] && t[|t| - 1] == '_' && |t| >= 2 {
      assert t[|t| - 2] != '_';
    }
  }

  lemma {:induction false} LowerSafe(s: string)
    requires forall i :: 0 <= i < |s| ==> NameOrUnderscore(s[i])
    requires NoDoubleUnderscore(s)
    requires s == [] || (s[0] != '_' && s[|s| - 1] != '_')
    ensures SafeFileName(Lower(s))
  {
    var r := Lower(s);
    assert forall i :: 0 <= i < |s| ==> r[i] == LowerChar(s[i]);
    assert forall i :: 0 <= i < |s| ==> (r[i] == '_' <==> s[i] == '_');
  }

  /** What comes out uses only `[a-z0-9._-]`, never two underscores in a row, and neither starts
      nor ends with an underscore. */
  lemma {:induction false} SanitizeFileNameSafe(fileName: string)
    ensures SafeFileName(SanitizeFileName(fileName))
  {
    var p := ReplaceSpecial(fileName);
    assert forall i :: 0 <= i < |p| ==> NameOrUnderscore(p[i]);
    var c := CollapseUnderscores(p);
    StripEdgesSafe(c);
    LowerSafe(StripEdgeUnderscores(c));
  }

  lemma {:induction false} CollapseWithout(s: string)
    requires NoDoubleUnderscore(s)
    ensures CollapseUnderscores(s) == s
    decreases |s|
  {
    if s != [] {
      assert NoDoubleUnderscore(s[1..]);
      CollapseWithout(s[1..]);
      if s[0] == '_' {
        assert s[1..] == [] || s[1] != '_';
        assert DropUnderscores(s) == s[1..];
        assert CollapseUnderscores(s) == "_" + CollapseUnderscores(s[1..]);
      } else {
        assert CollapseUnderscores(s) == [s[0]] + CollapseUnderscores(s[1..]);
      }
      assert [s[0]] + s[1..] == s;
    }
  }

  /** Every step leaves a safe name alone. */
  lemma {:induction false} SafeFileNameUnchanged(s: string)
    requires SafeFileName(s)
    ensures SanitizeFileName(s) == s
  {
    SafeCharsKept(s);
    CollapseWithout(s);
  }

  lemma {:induction false} SafeCharsKept(s: string)
    requires SafeFileName(s)
    ensures ReplaceSpecial(s) == s && StripEdgeUnderscores(s) == s && Lower(s) == s
  {
    assert ReplaceSpecial(s) == s;
    assert Lower(s) == s;
  }

  /** Sanitizing a sanitized name changes nothing. */
  lemma {:induction false} SanitizeFileNameIdempotent(fileName: string)
    ensures SanitizeFileName(SanitizeFileName(fileName)) == SanitizeFileName(fileName)
  {
    SanitizeFileNameSafe(fileName);
    SafeFileNameUnchanged(SanitizeFileName(fileName));
  }

  // ---------------------------------------------------------------- formatFileSize

  /** `formatFileSize` for an empty file; other sizes go through `Math.log`. */
  function FormatEmptyFileSize(): (r: string)
    ensures r == "0 B"
  {
    "0 B"
  }
}
