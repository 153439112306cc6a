/** `PDFService.generateCVPDF` of the current front end: the CV preview is
    copied without its excluded nodes, mounted in an off-screen container,
    captured as one tall image, paginated onto A4 pages, overlaid with its
    links, and saved under an ASCII-only file name; the container is
    removed again whatever happens. */
module PdfService {

  import opened Wrappers
  import opened Json
  import opened Text
  import opened Dom
  import opened PdfWriter
  import opened PdfLayout

  /** The element `generateCVPDF` exports when no id is passed, as the
      CV builder page calls it. */
  const DefaultElementId := "cv-preview"

  /** Called with the default id, the export reports a missing element
      exactly when the page has no `cv-preview` element. */
  lemma DefaultExportNeedsPreview(elements: map<string, LiveElement>, capture: Option<Canvas>, user: Json)
    requires ExportInputs(elements, DefaultElementId, capture)
    ensures Export(elements, DefaultElementId, capture, FileName(user)) == Failed(ElementNotFound)
            <==> "cv-preview" !in elements
  {
  }

  /** White-space runs become `_`, then every character other than an ASCII
      letter, a digit or `_` is dropped. */
  function Sanitize(s: string): (r: string)
    ensures forall i :: 0 <= i < |r| ==> IsWordChar(r[i])
  {
    KeepWordChars(ReplaceSpaceRuns(s, 1, "_"))
  }

  /** The file-name stem: `(user?.fullName || 'CV')`, sanitised. None when
      the chosen value is not a string, where `.replace` throws. */
  function SafeName(user: Json): (r: Option<string>)
    ensures r.None? <==> Truthy(Get(user, "fullName")) && !Get(user, "fullName").Str?
    ensures r.Some? ==> forall i :: 0 <= i < |r.value| ==> IsWordChar(r.value[i])
  {
    match Or(Get(user, "fullName"), Str("CV"))
    case Str(s) => Some(Sanitize(s))
    case _ => None
  }

  /** `${safeName}_ATS_CV.pdf`: a name made of ASCII letters, digits, `_`
      and the extension's dot only. */
  function FileName(user: Json): (r: Option<string>)
    ensures r.Some? <==> SafeName(user).Some?
    ensures r.Some? ==> |r.value| >= 11 && r.value[|r.value| - 11..] == "_ATS_CV.pdf"
    ensures r.Some? ==> forall i :: 0 <= i < |r.value| ==> IsWordChar(r.value[i]) || r.value[i] == '.'
  {
    match SafeName(user)
    case Some(stem) =>
      var name := stem + "_ATS_CV.pdf";
      FileCharsAppend(stem);
      Some(name)
    case None => None
  }

  /** Appending the fixed tail keeps a file name to ASCII letters, digits,
      `_` and `.`. */
  lemma FileCharsAppend(stem: string)
    requires forall i :: 0 <= i < |stem| ==> IsWordChar(stem[i])
    ensures var name := stem + "_ATS_CV.pdf";
      && |name| >= 11 && name[|name| - 11..] == "_ATS_CV.pdf"
      && forall i :: 0 <= i < |name| ==> IsWordChar(name[i]) || name[i] == '.'
  {
    var suffix := "_ATS_CV.pdf";
    var name := stem + suffix;
    assert name[|name| - 11..] == suffix;
    forall i | 0 <= i < |name|
      ensures IsWordChar(name[i]) || name[i] == '.'
    {
      if i >= |stem| {
        var k := i - |stem|;
        assert name[i] == suffix[k];
        assert k == 7 || IsWordChar(suffix[k]);
      }
    }
  }

  /** Exports the element `elementId` of `body` for `user`. `capture` is
      what the rasteriser returns for the mounted copy (None when it
      throws). */
  method GenerateCvPdf(body: Body, user: Json, elementId: string, capture: Option<Canvas>)
    returns (outcome: ExportOutcome)
    requires ExportInputs(body.elements, elementId, capture)
    modifies body
    ensures outcome == Export(old(body.elements), elementId, capture, FileName(user))
    ensures body.elements == old(body.elements) && body.children == old(body.children)
    ensures elementId !in old(body.elements) ==> body.mounted == old(body.mounted)
    ensures elementId in old(body.elements) ==>
      && |body.mounted| == |old(body.mounted)| + 1
      && body.mounted[..|old(body.mounted)|] == old(body.mounted)
      && body.mounted[|old(body.mounted)|].width == ContainerWidth(old(body.elements)[elementId].offsetWidth)
      && body.mounted[|old(body.mounted)|].content == Clone(old(body.elements)[elementId].tree)
  {
    var found := body.GetElementById(elementId);
    if found.None? {
      return Failed(ElementNotFound);
    }
    var element := found.value;
    var clone := Clone(element.tree);
    var container := new Container(ContainerWidth(element.offsetWidth), clone);
    body.AppendChild(container);

    if capture.None? {
      outcome := Failed(CaptureFailed);
    } else {
      var pdf := Paginate(capture.value);
      DrawLinks(pdf, clone);
      match FileName(user) {
        case None => outcome := Failed(NameNotText);
        case Some(name) => outcome := Saved(name, pdf.state.pages);
      }
    }

    if body.Contains(container) {
      body.RemoveChild(container);
    }
    RemoveAppended(old(body.children), container);
  }

  /** The pagination loop: the first page gets the image at offset 0, and
      while image remains below the last page a page is added with the
      image one page height further up. */
  method Paginate(canvas: Canvas) returns (pdf: PdfDoc)
    requires canvas.width > 0.0 && canvas.height >= 0.0
    ensures fresh(pdf) && pdf.Valid()
    ensures pdf.state == Paginated(PageCount(ImageHeight(canvas)), ImageHeight(canvas))
  {
    pdf := new PdfDoc();
    var imgHeight := ImageHeight(canvas);
    var heightLeft := imgHeight;
    var position := 0.0;
    pdf.AddImage(Placement(0.0, position, PageWidth, imgHeight));
    heightLeft := heightLeft - PageHeight;
    ghost var k: nat := 1;
    assert pdf.state.pages[0] == PaginatedPages(1, imgHeight)[0];
    while heightLeft > 0.0
      invariant pdf.Valid() && pdf.state == Paginated(k, imgHeight)
      invariant k >= 1 && heightLeft == imgHeight - (k as real) * PageHeight
      invariant position == ImageOffset(k - 1)
      invariant k == 1 || ((k - 1) as real) * PageHeight < imgHeight
      invariant k <= PageCount(imgHeight)
      decreases PageCount(imgHeight) - k
    {
      PageCountAbove(imgHeight, k);
      PaginatedStep(k, imgHeight);
      position := position - PageHeight;
      pdf.AddPage();
      pdf.AddImage(Placement(0.0, position, PageWidth, imgHeight));
      heightLeft := heightLeft - PageHeight;
      k := k + 1;
    }
    PageCountUnique(imgHeight, k);
  }

  // ---- properties of the file name ----

  /** Sanitising an already sanitised name changes nothing. */
  lemma SanitizeIdempotent(s: string)
    ensures Sanitize(Sanitize(s)) == Sanitize(s)
  {
    var t := Sanitize(s);
    ReplaceSpaceRunsNoop(t, 1, "_");
    KeepWordCharsIdempotent(ReplaceSpaceRuns(s, 1, "_"));
  }

  /** A missing or empty name gives the stem "CV". */
  lemma SafeNameFallback(user: Json)
    requires !Truthy(Get(user, "fullName"))
    ensures SafeName(user) == Some("CV")
  {
    assert Or(Get(user, "fullName"), Str("CV")) == Str("CV");
    assert NoSpace("CV");
    ReplaceSpaceRunsNoop("CV", 1, "_");
    KeepWordCharsOfWords("CV");
  }

  /** The stem holds only ASCII letters, digits and `_`, and sanitising it
      again changes nothing. */
  lemma SafeNameClean(user: Json)
    requires SafeName(user).Some?
    ensures forall i :: 0 <= i < |SafeName(user).value| ==> IsWordChar(SafeName(user).value[i])
    ensures Sanitize(SafeName(user).value) == SafeName(user).value
  {
    match Or(Get(user, "fullName"), Str("CV"))
    case Str(s) => SanitizeIdempotent(s);
    case _ =>
  }

  /** A run of white space between two words becomes one `_`. */
  lemma SanitizeBetweenWords(x: string, w: string, y: string)
    requires NoSpace(x) && w != []
    requires forall i :: 0 <= i < |w| ==> IsSpace(w[i])
    requires y == [] || !IsSpace(y[0])
    ensures Sanitize(x + w + y) == KeepWordChars(x) + "_" + Sanitize(y)
  {
    var r := ReplaceSpaceRuns(y, 1, "_");
    calc {
      Sanitize(x + w + y);
      KeepWordChars(ReplaceSpaceRuns(x + w + y, 1, "_"));
      { ReplaceSpaceRunsBetween(x, w, y, 1, "_"); }
      KeepWordChars(x + "_" + r);
      { KeepWordCharsAppend(x + "_", r); }
      KeepWordChars(x + "_") + KeepWordChars(r);
      { KeepWordCharsAppend(x, "_"); KeepWordCharsOfWords("_"); }
      KeepWordChars(x) + "_" + Sanitize(y);
    }
  }

  /** A name written only in letters outside ASCII, with no white space,
      leaves an empty stem: the "CV" fallback applies before sanitising. */
  lemma SanitizeNonAscii(s: string)
    requires forall i :: 0 <= i < |s| ==> !IsWordChar(s[i]) && !IsSpace(s[i])
    ensures Sanitize(s) == ""
    decreases |s|
  {
    ReplaceSpaceRunsNoop(s, 1, "_");
    KeepNone(s);
  }

  lemma {:induction false} KeepNone(s: string)
    requires forall i :: 0 <= i < |s| ==> !IsWordChar(s[i])
    ensures KeepWordChars(s) == ""
    decreases |s|
  {
    if s != [] {
      KeepNone(s[1..]);
    }
  }
}
