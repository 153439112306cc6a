/** The geometry of the CV export, shared by both versions of the PDF
    service: the width of the off-screen container, the scaling of the
    captured image to the page width, the number of pages the pagination
    loop emits and where each page shows the image, and the projection of
    the links of the copy onto pages. Lengths are exact reals: pixels for
    the document, millimetres for the PDF. */
module PdfLayout {

  import opened Wrappers
  import opened Dom
  import opened PdfWriter

  /** The A4 width (210 mm) in CSS pixels at 96 px per inch. */
  const A4WidthPx: real := 794.0

  /** `Math.max(element.offsetWidth, A4_WIDTH_PX)`: the container is at
      least as wide as an A4 page and as the element. */
  function ContainerWidth(offsetWidth: real): (w: real)
    ensures w >= A4WidthPx && w >= offsetWidth
    ensures w == A4WidthPx || w == offsetWidth
  {
    if offsetWidth > A4WidthPx then offsetWidth else A4WidthPx
  }

  /** The pixel size of the captured image. */
  datatype Canvas = Canvas(width: real, height: real)

  predicate ValidCapture(capture: Option<Canvas>) {
    capture.Some? ==> capture.value.width > 0.0 && capture.value.height >= 0.0
  }

  /** `canvas.height * (pdfWidth / canvas.width)`: the height in mm of the
      image once scaled to the page width, which keeps its proportions. */
  function ImageHeight(canvas: Canvas): (h: real)
    requires canvas.width > 0.0 && canvas.height >= 0.0
    ensures h >= 0.0
    ensures h * canvas.width == canvas.height * PageWidth
  {
    canvas.height * (PageWidth / canvas.width)
  }

  // ---- pagination ----

  /** The number of pages the pagination loop emits for an image `h` mm
      tall: the first page, and one more for as long as image remains
      below the pages emitted so far. */
  function PageCount(h: real): (n: nat)
    ensures n >= 1
    decreases if h <= PageHeight then 0 else (h / PageHeight).Floor
  {
    if h <= PageHeight then 1 else 1 + PageCount(h - PageHeight)
  }

  /** The pages cover the image, and the last page is needed:
      `(n-1)*H < h <= n*H`; an image no taller than a page gives one page. */
  lemma {:induction false} PageCountCovers(h: real)
    ensures h <= (PageCount(h) as real) * PageHeight
    ensures PageCount(h) > 1 ==> ((PageCount(h) - 1) as real) * PageHeight < h
    ensures h <= PageHeight <==> PageCount(h) == 1
    decreases if h <= PageHeight then 0 else (h / PageHeight).Floor
  {
    if h > PageHeight {
      PageCountCovers(h - PageHeight);
    }
  }

  /** The page count is the least number of pages, at least one, that
      covers the image. */
  lemma PageCountLeast(h: real, m: nat)
    requires m >= 1 && h <= (m as real) * PageHeight
    ensures PageCount(h) <= m
  {
    PageCountCovers(h);
  }

  /** Any `k` that covers the image while its last page is needed is the
      page count. */
  lemma PageCountUnique(h: real, k: nat)
    requires k >= 1 && h <= (k as real) * PageHeight
    requires k == 1 || ((k - 1) as real) * PageHeight < h
    ensures PageCount(h) == k
  {
    PageCountCovers(h);
  }

  /** While image remains below `k` pages, more than `k` pages are emitted. */
  lemma PageCountAbove(h: real, k: nat)
    requires (k as real) * PageHeight < h
    ensures k < PageCount(h)
  {
    PageCountCovers(h);
  }

  /** Page `j` (counted from 0) holds the image shifted up by `j` pages. */
  function ImageOffset(j: nat): real {
    -(j as real) * PageHeight
  }

  /** The first `k` pages of the paginated document: each holds the whole
      image, scaled to the page width, at its page's offset, and no link. */
  function PaginatedPages(k: nat, h: real): (pages: seq<Page>)
    ensures |pages| == k
  {
    seq(k, j requires 0 <= j < k => Page([Placement(0.0, ImageOffset(j), PageWidth, h)], []))
  }

  /** The document with `k` paginated pages. */
  function Paginated(k: nat, h: real): (s: WriterState)
    requires k >= 1
    ensures s.Valid()
  {
    WriterState(PaginatedPages(k, h), k)
  }

  /** One iteration of the pagination loop (`addPage`, then `addImage` one
      page height further up) extends the paginated document by a page. */
  lemma PaginatedStep(k: nat, h: real)
    requires k >= 1
    ensures ImageAdded(PageAdded(Paginated(k, h)), Placement(0.0, ImageOffset(k), PageWidth, h)) == Paginated(k + 1, h)
  {
    var s := ImageAdded(PageAdded(Paginated(k, h)), Placement(0.0, ImageOffset(k), PageWidth, h));
    var t := Paginated(k + 1, h);
    assert |s.pages| == |t.pages|;
    forall j | 0 <= j < |s.pages|
      ensures s.pages[j] == t.pages[j]
    {
    }
  }

  /** Every point `v` of the image lies on exactly one page, page
      `floor(v/H)`, which is one of the emitted pages: adjacent pages show
      adjacent bands of height H, with no gap and no overlap. */
  lemma PagesTileImage(h: real, v: real)
    requires 0.0 <= v < h
    ensures 0 <= (v / PageHeight).Floor < PageCount(h)
    ensures forall j: nat :: 0.0 <= v + ImageOffset(j) < PageHeight <==> j == (v / PageHeight).Floor
  {
    PageCountCovers(h);
  }

  // ---- links ----

  /** A link of the copy, projected onto the PDF: its page number and its
      rectangle relative to the top of that page, in mm. */
  datatype ProjectedLink = ProjectedLink(page: int, x: real, y: real, w: real, h: real, url: string)

  /** The factor `pdfWidth / clone.offsetWidth` that turns pixels of the
      copy into millimetres of the page. */
  function DomScale(clone: Box): (s: real)
    requires clone.width > 0.0
    ensures s > 0.0
  {
    PageWidth / clone.width
  }

  /** The projection the export applies to a link's bounding box: its
      offset from the copy's top-left corner and its size are scaled by the
      single factor DomScale; the page is `floor(y / H) + 1` and the y on
      that page is measured from the top of that page. So the y on the
      page plus the height of the pages before it is the y in the whole
      document, the y on the page always lies within the page, and the
      page number is at least 1 exactly for links at or below the top of
      the copy. */
  function ProjectLink(link: Node, clone: Box): (p: ProjectedLink)
    requires IsLink(link) && clone.width > 0.0
    ensures var scale := DomScale(clone);
            var pdfY := (link.box.top - clone.top) * scale;
            && p.x == (link.box.left - clone.left) * scale
            && p.w == link.box.width * scale && p.h == link.box.height * scale
            && p.url == link.href.value
            && p.y + ((p.page - 1) as real) * PageHeight == pdfY
            && 0.0 <= p.y < PageHeight
            && (p.page >= 1 <==> link.box.top >= clone.top)
  {
    var scale := DomScale(clone);
    var d := link.box.top - clone.top;
    var pdfY := d * scale;
    var page := (pdfY / PageHeight).Floor + 1;
    assert d < 0.0 ==> (-d) * scale > 0.0;
    ProjectedLink(page, (link.box.left - clone.left) * scale, pdfY - ((page - 1) as real) * PageHeight,
                  link.box.width * scale, link.box.height * scale, link.href.value)
  }

  /** The projection of every link, in document order. */
  function ProjectAll(links: seq<Node>, clone: Box): (ps: seq<ProjectedLink>)
    requires forall i :: 0 <= i < |links| ==> IsLink(links[i])
    requires clone.width > 0.0
    ensures |ps| == |links|
    ensures forall i :: 0 <= i < |links| ==> ps[i] == ProjectLink(links[i], clone)
  {
    seq(|links|, i requires 0 <= i < |links| => ProjectLink(links[i], clone))
  }

  function Annot(l: ProjectedLink): Annotation {
    Annotation(l.x, l.y, l.w, l.h, l.url)
  }

  /** One iteration of the link loop: a link whose page number does not
      exceed the number of pages is drawn on that page (`setPage` then
      `link`); any other link is skipped. */
  function PlaceLink(s: WriterState, l: ProjectedLink): (r: WriterState)
    requires s.Valid()
    ensures r.Valid() && |r.pages| == |s.pages|
  {
    if l.page <= |s.pages| then LinkAdded(PageSet(s, l.page), Annot(l)) else s
  }

  /** The document after the link loop has visited `ls` in order. */
  function PlaceLinks(s: WriterState, ls: seq<ProjectedLink>): (r: WriterState)
    requires s.Valid()
    ensures r.Valid() && |r.pages| == |s.pages|
    decreases |ls|
  {
    if ls == [] then s else PlaceLink(PlaceLinks(s, ls[..|ls| - 1]), ls[|ls| - 1])
  }

  /** The annotations of the links whose page number is `page`, in order. */
  function AnnotationsFor(ls: seq<ProjectedLink>, page: int): seq<Annotation>
    decreases |ls|
  {
    if ls == [] then []
    else AnnotationsFor(ls[..|ls| - 1], page) + (if ls[|ls| - 1].page == page then [Annot(ls[|ls| - 1])] else [])
  }

  /** A link with page number at least 1 lands on its own page when that
      page exists and is dropped otherwise; images stay where they were. */
  lemma PlaceLinkOnItsPage(s: WriterState, l: ProjectedLink)
    requires s.Valid() && l.page >= 1
    ensures forall k :: 0 <= k < |s.pages| ==>
      && PlaceLink(s, l).pages[k].images == s.pages[k].images
      && PlaceLink(s, l).pages[k].links == s.pages[k].links + (if l.page == k + 1 then [Annot(l)] else [])
  {
  }

  /** With every page number at least 1, page `k` ends up with the
      annotations of exactly the links projected onto it, in document
      order; links past the last page appear nowhere. */
  lemma {:induction false} PlaceLinksPerPage(s: WriterState, ls: seq<ProjectedLink>)
    requires s.Valid()
    requires forall i :: 0 <= i < |ls| ==> ls[i].page >= 1
    ensures forall k :: 0 <= k < |s.pages| ==>
      && PlaceLinks(s, ls).pages[k].images == s.pages[k].images
      && PlaceLinks(s, ls).pages[k].links == s.pages[k].links + AnnotationsFor(ls, k + 1)
    decreases |ls|
  {
    if ls != [] {
      var init := ls[..|ls| - 1];
      PlaceLinksPerPage(s, init);
      PlaceLinkOnItsPage(PlaceLinks(s, init), ls[|ls| - 1]);
    }
  }

  /** Drawing links never moves or removes an image. */
  lemma {:induction false} PlaceLinksImages(s: WriterState, ls: seq<ProjectedLink>)
    requires s.Valid()
    ensures forall k :: 0 <= k < |s.pages| ==> PlaceLinks(s, ls).pages[k].images == s.pages[k].images
    decreases |ls|
  {
    if ls != [] {
      PlaceLinksImages(s, ls[..|ls| - 1]);
    }
  }

  /** The guard checks only the upper bound: a link above the top of the
      copy (page number below 1) is not skipped; `setPage` ignores the
      page number and the annotation goes on whichever page is current. */
  lemma NonPositivePageLandsOnCurrent(s: WriterState, l: ProjectedLink)
    requires s.Valid() && l.page < 1
    ensures PlaceLink(s, l).current == s.current
    ensures PlaceLink(s, l).pages[s.current - 1].links == s.pages[s.current - 1].links + [Annot(l)]
  {
  }

  /** The link loop: every link of the copy, in document order, is
      projected and drawn on its page unless that page does not exist. */
  method DrawLinks(pdf: PdfDoc, clone: Node)
    requires pdf.Valid() && clone.box.width > 0.0
    modifies pdf
    ensures pdf.Valid()
    ensures pdf.state == PlaceLinks(old(pdf.state), ProjectAll(LinksBelow(clone), clone.box))
  {
    var links := LinksBelow(clone);
    ghost var projected := ProjectAll(links, clone.box);
    var i := 0;
    while i < |links|
      invariant 0 <= i <= |links|
      invariant pdf.Valid() && pdf.state == PlaceLinks(old(pdf.state), projected[..i])
    {
      var l := ProjectLink(links[i], clone.box);
      if l.page <= pdf.NumberOfPages() {
        pdf.SetPage(l.page);
        pdf.Link(Annot(l));
      }
      assert projected[..i + 1][..i] == projected[..i];
      i := i + 1;
    }
    assert projected[..|links|] == projected;
  }

  // ---- the whole document ----

  /** The copy the export renders: the element's tree without the
      excluded nodes. */
  function Clone(tree: Node): (c: Node)
    ensures NoExcludedBelow(c)
  {
    StripExcludedClean(tree);
    StripExcluded(tree)
  }

  /** The pages of the exported document: the image paginated, then the
      links of the copy drawn. The copy's root box gives the reference
      corner and width. The document has as many pages as the image needs,
      and page `k` holds the whole image at offset `-k*H`. */
  function RenderedPages(tree: Node, canvas: Canvas): (pages: seq<Page>)
    requires canvas.width > 0.0 && canvas.height >= 0.0
    requires Clone(tree).box.width > 0.0
    ensures var h := ImageHeight(canvas);
            && |pages| == PageCount(h)
            && forall k :: 0 <= k < |pages| ==> pages[k].images == [Placement(0.0, ImageOffset(k), PageWidth, h)]
  {
    var clone := Clone(tree);
    var h := ImageHeight(canvas);
    var n := PageCount(h);
    PlaceLinksImages(Paginated(n, h), ProjectAll(LinksBelow(clone), clone.box));
    PlaceLinks(Paginated(n, h), ProjectAll(LinksBelow(clone), clone.box)).pages
  }

  /** When no link of the copy lies above its top edge, page `k` carries
      exactly the links projected onto page `k + 1`, in document order. */
  lemma RenderedPagesLinks(tree: Node, canvas: Canvas)
    requires canvas.width > 0.0 && canvas.height >= 0.0
    requires Clone(tree).box.width > 0.0
    requires forall l :: l in LinksBelow(Clone(tree)) ==> l.box.top >= Clone(tree).box.top
    ensures var ls := ProjectAll(LinksBelow(Clone(tree)), Clone(tree).box);
            var pages := RenderedPages(tree, canvas);
            forall k :: 0 <= k < |pages| ==> pages[k].links == AnnotationsFor(ls, k + 1)
  {
    var clone := Clone(tree);
    var h := ImageHeight(canvas);
    var n := PageCount(h);
    var links := LinksBelow(clone);
    var ls := ProjectAll(links, clone.box);
    forall i | 0 <= i < |ls|
      ensures ls[i].page >= 1
    {
      assert links[i] in links;
    }
    PlaceLinksPerPage(Paginated(n, h), ls);
  }

  // ---- the outcome of an export ----

  datatype ExportError = ElementNotFound | CaptureFailed | NameNotText

  /** What one export call ends with: a saved file with its pages, or the
      error that was caught (and shown to the user). */
  datatype ExportOutcome = Saved(fileName: string, pages: seq<Page>) | Failed(error: ExportError)

  /** What the browser guarantees the export: a captured canvas has a
      positive width, and the mounted copy has a positive width. */
  predicate ExportInputs(elements: map<string, LiveElement>, elementId: string, capture: Option<Canvas>) {
    && ValidCapture(capture)
    && (elementId in elements ==> Clone(elements[elementId].tree).box.width > 0.0)
  }

  /** The outcome of an export of the element `elementId`, given the result
      of the capture and the file name (None when computing it throws).
      The checks come in the order of the source: element, capture, name. */
  function Export(elements: map<string, LiveElement>, elementId: string, capture: Option<Canvas>,
                  fileName: Option<string>): (r: ExportOutcome)
    requires ExportInputs(elements, elementId, capture)
    ensures r.Saved? <==> elementId in elements && capture.Some? && fileName.Some?
    ensures elementId !in elements ==> r == Failed(ElementNotFound)
    ensures elementId in elements && capture.None? ==> r == Failed(CaptureFailed)
    ensures r.Saved? ==> r.fileName == fileName.value
  {
    if elementId !in elements then Failed(ElementNotFound)
    else if capture.None? then Failed(CaptureFailed)
    else if fileName.None? then Failed(NameNotText)
    else Saved(fileName.value, RenderedPages(elements[elementId].tree, capture.value))
  }
}
