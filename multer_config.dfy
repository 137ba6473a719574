/**
 * The upload filters of the multer configuration: spreadsheets are accepted
 * by the extension of their original file name (as `path.extname` computes
 * it on POSIX), PDF documents by their MIME type.
 */
module MulterConfig {
  import opened Wrappers

  /** What an uploaded file carries that the filters look at. */
  datatype Upload = Upload(originalname: string, mimetype: string)

  /** The arguments a filter passes to multer's callback `cb(error, accept)`. */
  datatype Verdict = Verdict(error: Option<string>, accept: bool)

  const ExcelOnly := "Only Excel files are allowed"
  const PdfOnly := "Only PDF files are allowed"

  // ---------------------------------------------------------------------
  // path.extname

  /** `p` without its trailing '/' characters. */
  function TrimTrailingSlashes(p: string): (r: string)
    ensures r <= p
    ensures r == [] || r[|r| - 1] != '/'
    ensures p == [] || p[|p| - 1] != '/' ==> r == p
  {
    if p != [] && p[|p| - 1] == '/' then TrimTrailingSlashes(p[..|p| - 1]) else p
  }

  /** The text after the last '/' of `p` (all of `p` when it has none). */
  function LastSegment(p: string): (r: string)
    ensures '/' !in r
    ensures forall c :: c in r ==> c in p
  {
    if p == [] || p[|p| - 1] == '/' then [] else LastSegment(p[..|p| - 1]) + [p[|p| - 1]]
  }

  /** The index of the last '.' in `s`. */
  function LastDot(s: string): (r: Option<nat>)
    ensures r.None? <==> '.' !in s
    ensures r.Some? ==> r.value < |s| && s[r.value] == '.' && '.' !in s[r.value + 1..]
  {
    if s == [] then None
    else if s[|s| - 1] == '.' then Some(|s| - 1)
    else
      var r := LastDot(s[..|s| - 1]);
      assert r.Some? ==> s[r.value + 1..] == s[..|s| - 1][r.value + 1..] + [s[|s| - 1]];
      assert r.None? ==> s == s[..|s| - 1] + [s[|s| - 1]];
      r
  }

  /**
   * `path.extname(p)`: from the last '.' of the last path segment to its end,
   * or "" when that segment has no '.', when its only leading '.' is that
   * last one (".xlsx" has no extension), or when the segment is "..".
   */
  function Extname(p: string): (r: string)
    ensures r == [] || (r[0] == '.' && '.' !in r[1..] && '/' !in r)
  {
    SegmentExtension(LastSegment(TrimTrailingSlashes(p)))
  }

  /** The extension of one path segment `base`, which has no '/'. */
  function SegmentExtension(base: string): (r: string)
    requires '/' !in base
    ensures r == [] || (r[0] == '.' && '.' !in r[1..] && '/' !in r)
  {
    match LastDot(base)
    case None => ""
    case Some(d) => if d == 0 || base == ".." then "" else base[d..]
  }

  lemma {:induction false} LastSegmentAppend(a: string, b: string)
    requires '/' !in b
    ensures LastSegment(a + b) == LastSegment(a) + b
  {
    if b == [] {
      assert a + b == a;
    } else {
      var b', last := b[..|b| - 1], b[|b| - 1];
      var ab := a + b;
      assert last in b;
      assert ab[|ab| - 1] == last;
      assert ab[..|ab| - 1] == a + b';
      assert LastSegment(ab) == LastSegment(a + b') + [last];
      LastSegmentAppend(a, b');
      assert b' + [last] == b;
      assert LastSegment(a) + b' + [last] == LastSegment(a) + b;
    }
  }

  /** A '.' with no '.' after it is the last dot. */
  lemma LastDotIs(s: string, k: nat)
    requires k < |s| && s[k] == '.'
    requires forall j :: k < j < |s| ==> s[j] != '.'
    ensures LastDot(s) == Some(k)
  {
    assert s[k] in s;
    var d := LastDot(s).value;
    assert d <= k;
    assert forall j :: d < j < |s| ==> s[j] == s[d + 1..][j - d - 1];
  }

  /** The last dot of `x + "." + e`, where `e` has none, is the one after `x`. */
  lemma LastDotAfter(x: string, e: string)
    requires '.' !in e
    ensures LastDot(x + "." + e) == Some(|x|)
  {
    var s := x + "." + e;
    assert s[|x|] == '.';
    assert forall j :: |x| < j < |s| ==> s[j] != '.';
    LastDotIs(s, |x|);
  }

  /**
   * The extension of a name ending in "." followed by dot- and slash-free
   * text `e` is "." + `e`, unless that dot begins the last path segment.
   */
  lemma ExtnameOfDotted(stem: string, e: string)
    requires '.' !in e && '/' !in e
    ensures Extname(stem + "." + e) ==
      if LastSegment(stem) == "" || (LastSegment(stem) == "." && e == "") then "" else "." + e
  {
    LastSegmentOfDotted(stem, e);
    SegmentExtensionOfDotted(LastSegment(stem), e);
  }

  lemma LastSegmentOfDotted(stem: string, e: string)
    requires '/' !in e
    ensures LastSegment(TrimTrailingSlashes(stem + "." + e)) == LastSegment(stem) + "." + e
  {
    var p := stem + "." + e;
    assert p[|p| - 1] != '/' by {
      if e == [] { assert p[|p| - 1] == '.'; } else { assert p[|p| - 1] == e[|e| - 1]; }
    }
    assert TrimTrailingSlashes(p) == p;
    assert p == stem + ("." + e);
    LastSegmentAppend(stem, "." + e);
    assert LastSegment(stem) + ("." + e) == LastSegment(stem) + "." + e;
  }

  lemma SegmentExtensionOfDotted(seg: string, e: string)
    requires '.' !in e && '/' !in e && '/' !in seg
    ensures SegmentExtension(seg + "." + e) ==
      if seg == "" || (seg == "." && e == "") then "" else "." + e
  {
    var base := seg + "." + e;
    LastDotAfter(seg, e);
    assert base[|seg|..] == "." + e;
    assert base == ".." <==> seg == "." && e == "" by {
      if base == ".." {
        assert |seg| + 1 + |e| == 2;
        if |seg| == 1 { assert seg[0] == base[0]; }
      }
    }
  }

  /** A name with no '.' at all has no extension. */
  lemma NoDotNoExtname(p: string)
    requires '.' !in p
    ensures Extname(p) == ""
  {
    var t := TrimTrailingSlashes(p);
    assert forall i :: 0 <= i < |t| ==> t[i] == p[i];
    assert '.' !in t;
  }

  // ---------------------------------------------------------------------
  // Filters

  /** `excelFileFilter`: accept ".xls" and ".xlsx", compared case-sensitively. */
  function ExcelFileFilter(file: Upload): (v: Verdict)
    ensures v.accept <==> Extname(file.originalname) == ".xls" || Extname(file.originalname) == ".xlsx"
    ensures v.accept <==> v.error.None?
    ensures !v.accept ==> v.error == Some(ExcelOnly)
  {
    var ext := Extname(file.originalname);
    if ext != ".xls" && ext != ".xlsx" then Verdict(Some(ExcelOnly), false) else Verdict(None, true)
  }

  /** `pdfFileFilter`: accept exactly the MIME type "application/pdf". */
  function PdfFileFilter(file: Upload): (v: Verdict)
    ensures v.accept <==> file.mimetype == "application/pdf"
    ensures v.accept <==> v.error.None?
    ensures !v.accept ==> v.error == Some(PdfOnly)
  {
    if file.mimetype != "application/pdf" then Verdict(Some(PdfOnly), false) else Verdict(None, true)
  }

  /**
   * A name ending in "." + `e` is accepted exactly when `e` is "xls" or
   * "xlsx" (so "XLSX" is not) and something precedes the dot in its segment.
   */
  lemma ExcelFilterOnDotted(stem: string, e: string, mimetype: string)
    requires '.' !in e && '/' !in e
    ensures ExcelFileFilter(Upload(stem + "." + e, mimetype)).accept <==>
      (e == "xls" || e == "xlsx") && LastSegment(stem) != ""
  {
    ExtnameOfDotted(stem, e);
    DottedIsExcel(e, Extname(stem + "." + e), LastSegment(stem));
  }

  lemma DottedIsExcel(e: string, ext: string, seg: string)
    requires ext == if seg == "" || (seg == "." && e == "") then "" else "." + e
    ensures (ext == ".xls" || ext == ".xlsx") <==> (e == "xls" || e == "xlsx") && seg != ""
  {
    if ext != "" {
      assert ".xls" == "." + "xls" && ".xlsx" == "." + "xlsx";
      assert ("." + e)[1..] == e;
    }
  }

  /** A name without any '.' is rejected. */
  lemma ExcelFilterRejectsNoDot(file: Upload)
    requires '.' !in file.originalname
    ensures !ExcelFileFilter(file).accept
  {
    NoDotNoExtname(file.originalname);
  }

  /** "DATA.XLSX" is rejected: the comparison is case-sensitive. */
  lemma ExcelFilterRejectsUpperCase(m: string)
    ensures !ExcelFileFilter(Upload("DATA.XLSX", m)).accept
  {
    assert "DATA" + "." + "XLSX" == "DATA.XLSX";
    ExcelFilterOnDotted("DATA", "XLSX", m);
  }

  /** "a.b.xlsx" is accepted: only the text after the last dot counts. */
  lemma ExcelFilterAcceptsInnerDots(m: string)
    ensures ExcelFileFilter(Upload("a.b.xlsx", m)).accept
  {
    assert "a.b" + "." + "xlsx" == "a.b.xlsx";
    assert LastSegment("a.b") != "";
    ExcelFilterOnDotted("a.b", "xlsx", m);
  }

  /** "a.xlsx.exe" is rejected. */
  lemma ExcelFilterRejectsInnerExtension(m: string)
    ensures !ExcelFileFilter(Upload("a.xlsx.exe", m)).accept
  {
    assert "a.xlsx" + "." + "exe" == "a.xlsx.exe";
    ExcelFilterOnDotted("a.xlsx", "exe", m);
  }

  /** ".xlsx" alone is rejected: a leading dot starts no extension. */
  lemma ExcelFilterRejectsDotFile(m: string)
    ensures !ExcelFileFilter(Upload(".xlsx", m)).accept
  {
    assert "" + "." + "xlsx" == ".xlsx";
    ExcelFilterOnDotted("", "xlsx", m);
  }
}
