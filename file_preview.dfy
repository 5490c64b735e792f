/** The file-preview classifier both pages use for a submitted file link: no preview for a
    falsy link, an image for an image extension, an embedded frame for a PDF, and otherwise
    an image attempt together with a plain link. */
module FilePreview {
  import opened Reports

  datatype Preview = NoPreview | Image | PdfFrame | ImageAndLink

  /** Case folding of ECMAScript's non-Unicode `/i` matching, seen from a lower-case ASCII
      pattern letter: only `A`..`Z` fold onto `a`..`z`; no other character folds onto an
      ASCII letter. */
  function FoldAscii(c: char): (d: char)
  {
    if 'A' <= c <= 'Z' then (c as int + 32) as char else c
  }

  function Fold(s: string): (f: string)
  {
    seq(|s|, i requires 0 <= i < |s| => FoldAscii(s[i]))
  }

  /** Reference meaning of `s.match(/\.(a|b|…)$/i) != null`: some literal '.' in `s` is
      followed, right up to the end of the input, by a case-insensitive spelling of one of
      the alternatives. */
  ghost predicate MatchesDotExtAtEnd(s: string, alternatives: set<string>)
  {
    exists i :: 0 <= i < |s| && s[i] == '.' && Fold(s[i + 1..]) in alternatives
  }

  const ImageExtensions: set<string> := {"jpeg", "jpg", "gif", "png"}
  const PdfExtensions: set<string> := {"pdf"}

  /** The last |suffix| characters of `s`, case-folded, are `suffix`. */
  predicate EndsWithFolded(s: string, suffix: string)
  {
    |suffix| <= |s| && Fold(s[|s| - |suffix|..]) == suffix
  }

  predicate IsImageLink(s: string)
  {
    EndsWithFolded(s, ".jpeg") || EndsWithFolded(s, ".jpg")
    || EndsWithFolded(s, ".gif") || EndsWithFolded(s, ".png")
  }

  predicate IsPdfLink(s: string)
  {
    EndsWithFolded(s, ".pdf")
  }

  /** `renderFilePreview(fileLink)`. */
  function PreviewOf(link: Option<string>): (p: Preview)
    ensures p == NoPreview <==> !Truthy(link)
    ensures p == Image ==> IsImageLink(link.value)
    ensures p == PdfFrame ==> IsPdfLink(link.value) && !IsImageLink(link.value)
    ensures p == ImageAndLink ==> !IsImageLink(link.value) && !IsPdfLink(link.value)
  {
    if !Truthy(link) then NoPreview
    else if IsImageLink(link.value) then Image
    else if IsPdfLink(link.value) then PdfFrame
    else ImageAndLink
  }

  lemma FoldAsciiDot(c: char)
    ensures FoldAscii(c) == '.' <==> c == '.'
  {
  }

  /** A link that ends, case-folded, in "." + e has a literal '.' right where e starts,
      and what follows it folds to e. */
  lemma DotBeforeFoldedSuffix(s: string, e: string)
    requires EndsWithFolded(s, "." + e)
    ensures var k := |s| - |e| - 1;
      0 <= k < |s| && s[k] == '.' && Fold(s[k + 1..]) == e
  {
    var k := |s| - |e| - 1;
    assert Fold(s[k..])[0] == FoldAscii(s[k]);
    FoldAsciiDot(s[k]);
    assert Fold(s[k + 1..]) == Fold(s[k..])[1..];
  }

  /** Conversely, a literal '.' at position i makes the link end, case-folded, in "."
      followed by the folded rest. */
  lemma FoldedSuffixFromDot(s: string, i: nat)
    requires i < |s| && s[i] == '.'
    ensures EndsWithFolded(s, "." + Fold(s[i + 1..]))
  {
  }

  /** The suffix tests over a set of alternatives are the regular expression's
      end-anchored match of any one of them. */
  lemma EndsWithSomeDotExt(s: string, alternatives: set<string>)
    ensures (exists e :: e in alternatives && EndsWithFolded(s, "." + e))
        <==> MatchesDotExtAtEnd(s, alternatives)
  {
    if e :| e in alternatives && EndsWithFolded(s, "." + e) {
      DotBeforeFoldedSuffix(s, e);
      var k := |s| - |e| - 1;
      assert 0 <= k < |s| && s[k] == '.' && Fold(s[k + 1..]) in alternatives;
    }
    if MatchesDotExtAtEnd(s, alternatives) {
      var i :| 0 <= i < |s| && s[i] == '.' && Fold(s[i + 1..]) in alternatives;
      FoldedSuffixFromDot(s, i);
    }
  }

  /** The image test is exactly `/\.(jpeg|jpg|gif|png)$/i`. */
  lemma ImageLinkIsRegexMatch(s: string)
    ensures IsImageLink(s) <==> MatchesDotExtAtEnd(s, ImageExtensions)
  {
    EndsWithSomeDotExt(s, ImageExtensions);
    assert "." + "jpeg" == ".jpeg" && "." + "jpg" == ".jpg";
    assert "." + "gif" == ".gif" && "." + "png" == ".png";
    if IsImageLink(s) {
      if EndsWithFolded(s, ".jpeg") {
        assert "jpeg" in ImageExtensions;
      } else if EndsWithFolded(s, ".jpg") {
        assert "jpg" in ImageExtensions;
      } else if EndsWithFolded(s, ".gif") {
        assert "gif" in ImageExtensions;
      } else {
        assert "png" in ImageExtensions;
      }
    }
    if MatchesDotExtAtEnd(s, ImageExtensions) {
      var e :| e in ImageExtensions && EndsWithFolded(s, "." + e);
      assert e == "jpeg" || e == "jpg" || e == "gif" || e == "png";
    }
  }

  /** The PDF test is exactly `/\.pdf$/i`. */
  lemma PdfLinkIsRegexMatch(s: string)
    ensures IsPdfLink(s) <==> MatchesDotExtAtEnd(s, PdfExtensions)
  {
    EndsWithSomeDotExt(s, PdfExtensions);
    if IsPdfLink(s) {
      assert "pdf" in PdfExtensions && EndsWithFolded(s, "." + "pdf");
    }
  }

  /** What a case-folded suffix test says about one character of the link. */
  lemma SuffixCharAt(s: string, suffix: string, j: nat)
    requires j < |suffix|
    ensures EndsWithFolded(s, suffix) ==> FoldAscii(s[|s| - |suffix| + j]) == suffix[j]
  {
  }

  /** No link ends in both an image extension and ".pdf", so the order of the two tests in
      the classifier never hides a PDF. */
  lemma ImageAndPdfDisjoint(s: string)
    ensures !(IsImageLink(s) && IsPdfLink(s))
  {
    SuffixCharAt(s, ".pdf", 3);
    SuffixCharAt(s, ".pdf", 2);
    SuffixCharAt(s, ".jpeg", 4);
    SuffixCharAt(s, ".jpg", 3);
    SuffixCharAt(s, ".png", 3);
    SuffixCharAt(s, ".gif", 2);
  }

  /** The four outcomes of `renderFilePreview`, each characterised by the regular
      expressions the source matches. */
  lemma PreviewOfMeaning(link: Option<string>)
    ensures PreviewOf(link) == NoPreview <==> !Truthy(link)
    ensures PreviewOf(link) == Image
        <==> Truthy(link) && MatchesDotExtAtEnd(link.value, ImageExtensions)
    ensures PreviewOf(link) == PdfFrame
        <==> Truthy(link) && MatchesDotExtAtEnd(link.value, PdfExtensions)
    ensures PreviewOf(link) == ImageAndLink
        <==> Truthy(link) && !MatchesDotExtAtEnd(link.value, ImageExtensions)
             && !MatchesDotExtAtEnd(link.value, PdfExtensions)
  {
    if Truthy(link) {
      ImageLinkIsRegexMatch(link.value);
      PdfLinkIsRegexMatch(link.value);
      ImageAndPdfDisjoint(link.value);
    }
  }

  /** Sample links and the preview each one gets. */
  lemma FalsyLinkExamples()
    ensures PreviewOf(None) == NoPreview && PreviewOf(Some("")) == NoPreview
  {
  }

  lemma ImageExamples()
    ensures PreviewOf(Some("x.JPG")) == Image && PreviewOf(Some(".Png")) == Image
  {
    assert Fold("x.JPG"[1..]) == ".jpg";
    assert Fold(".Png"[0..]) == ".png";
  }

  lemma PdfExamples()
    ensures PreviewOf(Some("doc.pdf")) == PdfFrame && PreviewOf(Some("DOC.PDF")) == PdfFrame
  {
    ImageAndPdfDisjoint("doc.pdf");
    ImageAndPdfDisjoint("DOC.PDF");
    assert Fold("doc.pdf"[3..]) == ".pdf";
    assert Fold("DOC.PDF"[3..]) == ".pdf";
  }

  lemma FallbackExamples()
    ensures PreviewOf(Some("file.docx")) == ImageAndLink
    ensures PreviewOf(Some("x.png?q=1")) == ImageAndLink
    ensures PreviewOf(Some("xpng")) == ImageAndLink
  {
    LastCharRulesOut("file.docx");
    LastCharRulesOut("x.png?q=1");
    SuffixCharAt("xpng", ".jpg", 0);
    SuffixCharAt("xpng", ".gif", 3);
    SuffixCharAt("xpng", ".png", 0);
    SuffixCharAt("xpng", ".pdf", 3);
  }

  /** A link whose last character folds to neither 'g' nor 'f' is neither an image nor a
      PDF link. */
  lemma LastCharRulesOut(s: string)
    requires |s| > 0 && FoldAscii(s[|s| - 1]) != 'g' && FoldAscii(s[|s| - 1]) != 'f'
    ensures !IsImageLink(s) && !IsPdfLink(s)
  {
    SuffixCharAt(s, ".pdf", 3);
    SuffixCharAt(s, ".jpeg", 4);
    SuffixCharAt(s, ".jpg", 3);
    SuffixCharAt(s, ".png", 3);
    SuffixCharAt(s, ".gif", 3);
  }
}
