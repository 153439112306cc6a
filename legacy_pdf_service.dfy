/** `PDFService.generateCVPDF` of the earlier front end: the same pipeline
    as PdfService, with a page counter in the pagination loop, a cleanup
    that removes the container without checking, and a file name that
    only turns white-space runs into `_` and appends a timestamp. */
module LegacyPdfService {

  import opened Wrappers
  import opened Json
  import opened Text
  import opened Numbers
  import opened Dom
  import opened PdfWriter
  import opened PdfLayout

  /** The file-name stem: `user?.fullName?.replace(/\s+/g, '_') || 'CV'`.
      None when fullName is present but not a string, where `.replace` is
      not a function and the call throws. */
  function SafeName(user: Json): (r: Option<string>)
    ensures r.None? <==> !(Nullish(Get(user, "fullName")) || Get(user, "fullName").Str?)
    ensures r.Some? ==> r.value != ""
  {
    match Get(user, "fullName")
    case Undefined => Some("CV")
    case Null => Some("CV")
    case Str(s) =>
      var r := ReplaceSpaceRuns(s, 1, "_");
      Some(if r == "" then "CV" else r)
    case _ => None
  }

  /** `${safeName}-${Date.now()}.pdf`; the clock reading is a parameter. */
  function FileName(user: Json, now: nat): (r: Option<string>)
    ensures r.Some? <==> SafeName(user).Some?
    ensures r.Some? ==> NoSpace(r.value)
    ensures r.Some? ==> var tail := "-" + NatToDecimal(now) + ".pdf";
      |r.value| > |tail| && r.value[|r.value| - |tail|..] == tail
  {
    match SafeName(user)
    case Some(stem) =>
      var stamp := NatToDecimal(now);
      var name := stem + "-" + stamp + ".pdf";
      SafeNameNoSpace(user);
      assert forall i :: 0 <= i < |stamp| ==> !IsSpace(stamp[i]);
      assert forall i :: 0 <= i < |name| ==> !IsSpace(name[i]) by {
        forall i | 0 <= i < |name| ensures !IsSpace(name[i]) {
          if i < |stem| {
            assert name[i] == stem[i];
          } else if i == |stem| {
            assert name[i] == '-';
          } else if i < |stem| + 1 + |stamp| {
            assert name[i] == stamp[i - |stem| - 1];
          } else {
            assert name[i] == ".pdf"[i - |stem| - 1 - |stamp|];
          }
        }
      }
      assert name == stem + ("-" + stamp + ".pdf");
      Some(name)
    case None => None
  }

  /** Exports the element `elementId` of `body` for `user` at time `now`
      (milliseconds since the epoch). */
  method GenerateCvPdf(body: Body, user: Json, elementId: string, capture: Option<Canvas>, now: nat)
    returns (outcome: ExportOutcome)
    requires ExportInputs(body.elements, elementId, capture)
    modifies body
    ensures outcome == Export(old(body.elements), elementId, capture, FileName(user, now))
    ensures body.elements == old(body.elements) && body.children == old(body.children)
    ensures elementId !in old(body.elements) ==> body.mounted == old(body.mounted)
    ensures elementId in old(body.elements) ==>
      && |body.mounted| == |old(body.mounted)| + 1
      && body.mounted[..|old(body.mounted)|] == old(body.mounted)
      && body.mounted[|old(body.mounted)|].width == ContainerWidth(old(body.elements)[elementId].offsetWidth)
      && body.mounted[|old(body.mounted)|].content == Clone(old(body.elements)[elementId].tree)
  {
    var found := body.GetElementById(elementId);
    if found.None? {
      return Failed(ElementNotFound);
    }
    var element := found.value;
    var clone := Clone(element.tree);
    var container := new Container(ContainerWidth(element.offsetWidth), clone);
    body.AppendChild(container);

    if capture.None? {
      outcome := Failed(CaptureFailed);
    } else {
      var pdf, pageIndex := Paginate(capture.value);
      DrawLinks(pdf, clone);
      match FileName(user, now) {
        case None => outcome := Failed(NameNotText);
        case Some(name) => outcome := Saved(name, pdf.state.pages);
      }
    }

    body.RemoveChild(container);
    RemoveAppended(old(body.children), container);
  }

  /** The pagination loop with its page counter: `pageIndex` counts the
      pages added, `position` is the offset of the last page's image. */
  method Paginate(canvas: Canvas) returns (pdf: PdfDoc, pageIndex: nat)
    requires canvas.width > 0.0 && canvas.height >= 0.0
    ensures fresh(pdf) && pdf.Valid()
    ensures pdf.state == Paginated(PageCount(ImageHeight(canvas)), ImageHeight(canvas))
    ensures pageIndex == pdf.NumberOfPages()
  {
    pdf := new PdfDoc();
    var imgHeight := ImageHeight(canvas);
    var heightLeft := imgHeight;
    var position := 0.0;
    pageIndex := 1;
    pdf.AddImage(Placement(0.0, position, PageWidth, imgHeight));
    heightLeft := heightLeft - PageHeight;
    assert pdf.state.pages[0] == PaginatedPages(1, imgHeight)[0];
    while heightLeft > 0.0
      invariant pageIndex >= 1 && pdf.Valid() && pdf.state == Paginated(pageIndex, imgHeight)
      invariant heightLeft == imgHeight - (pageIndex as real) * PageHeight
      invariant position == ImageOffset(pageIndex - 1)
      invariant pageIndex == 1 || ((pageIndex - 1) as real) * PageHeight < imgHeight
      invariant pageIndex <= PageCount(imgHeight)
      decreases PageCount(imgHeight) - pageIndex
    {
      PageCountAbove(imgHeight, pageIndex);
      PaginatedStep(pageIndex, imgHeight);
      position := position - PageHeight;
      pdf.AddPage();
      pageIndex := pageIndex + 1;
      pdf.AddImage(Placement(0.0, position, PageWidth, imgHeight));
      heightLeft := heightLeft - PageHeight;
    }
    PageCountUnique(imgHeight, pageIndex);
  }

  // ---- properties of the file name ----

  /** A missing or empty fullName gives the stem "CV". */
  lemma SafeNameFallback(user: Json)
    requires Nullish(Get(user, "fullName")) || Get(user, "fullName") == Str("")
    ensures SafeName(user) == Some("CV")
  {
  }

  /** A non-empty name's stem is the name with each white-space run
      replaced by `_`. */
  lemma SafeNameKeepsName(user: Json)
    requires Get(user, "fullName").Str? && Get(user, "fullName").s != ""
    ensures SafeName(user) == Some(ReplaceSpaceRuns(Get(user, "fullName").s, 1, "_"))
  {
  }

  /** The stem has no white space left. */
  lemma SafeNameNoSpace(user: Json)
    requires SafeName(user).Some?
    ensures NoSpace(SafeName(user).value)
  {
    if Get(user, "fullName").Str? {
      ReplaceSpaceRunsNoSpace(Get(user, "fullName").s, "_");
    }
  }

  /** A name without white space, in any script, is used as it is. */
  lemma SafeNameVerbatim(user: Json)
    requires Get(user, "fullName").Str? && Get(user, "fullName").s != ""
    requires NoSpace(Get(user, "fullName").s)
    ensures SafeName(user) == Some(Get(user, "fullName").s)
  {
    ReplaceSpaceRunsNoop(Get(user, "fullName").s, 1, "_");
  }
}
