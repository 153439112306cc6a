/** The PDF writer (jsPDF) as the export sees it: an ordered list of pages,
    a current page, images placed on the current page and link
    annotations. Each operation is a pure transition on a WriterState; the
    class PdfDoc applies them in place. Encoding and saving are not
    modelled. */
module PdfWriter {

  /** One `addImage(data, 'PNG', x, y, w, h)` call: where the image goes. */
  datatype Placement = Placement(x: real, y: real, w: real, h: real)

  /** One `link(x, y, w, h, { url })` call: a clickable rectangle. */
  datatype Annotation = Annotation(x: real, y: real, w: real, h: real, url: string)

  datatype Page = Page(images: seq<Placement>, links: seq<Annotation>)

  /** `pageSize.getWidth()` and `getHeight()` of a portrait A4 document in
      millimetres. */
  const PageWidth: real := 210.0
  const PageHeight: real := 297.0

  const BlankPage := Page([], [])

  /** Pages are numbered from 1; `current` is the page that drawing goes to. */
  datatype WriterState = WriterState(pages: seq<Page>, current: nat) {
    predicate Valid() {
      1 <= current <= |pages|
    }
  }

  /** `new jsPDF(...)`: one blank page, which is current. */
  const Fresh := WriterState([BlankPage], 1)

  /** `addPage()`: a blank page at the end, which becomes current. */
  function PageAdded(s: WriterState): (r: WriterState)
    requires s.Valid()
    ensures r.Valid() && |r.pages| == |s.pages| + 1 && r.current == |r.pages|
    ensures r.pages[..|s.pages|] == s.pages && r.pages[|s.pages|] == BlankPage
  {
    WriterState(s.pages + [BlankPage], |s.pages| + 1)
  }

  /** `addImage(...)`: the image goes on the current page only. */
  function ImageAdded(s: WriterState, p: Placement): (r: WriterState)
    requires s.Valid()
    ensures r.Valid() && |r.pages| == |s.pages| && r.current == s.current
    ensures r.pages[s.current - 1].images == s.pages[s.current - 1].images + [p]
    ensures r.pages[s.current - 1].links == s.pages[s.current - 1].links
    ensures forall k :: 0 <= k < |s.pages| && k != s.current - 1 ==> r.pages[k] == s.pages[k]
  {
    var pg := s.pages[s.current - 1];
    s.(pages := s.pages[s.current - 1 := pg.(images := pg.images + [p])])
  }

  /** `setPage(n)`: page `n` becomes current when it exists; any other `n`
      is ignored. */
  function PageSet(s: WriterState, n: int): (r: WriterState)
    requires s.Valid()
    ensures r.Valid() && r.pages == s.pages
    ensures 1 <= n <= |s.pages| ==> r.current == n
    ensures !(1 <= n <= |s.pages|) ==> r.current == s.current
  {
    if 1 <= n <= |s.pages| then s.(current := n) else s
  }

  /** `link(...)`: the annotation goes on the current page only. */
  function LinkAdded(s: WriterState, a: Annotation): (r: WriterState)
    requires s.Valid()
    ensures r.Valid() && |r.pages| == |s.pages| && r.current == s.current
    ensures r.pages[s.current - 1].links == s.pages[s.current - 1].links + [a]
    ensures r.pages[s.current - 1].images == s.pages[s.current - 1].images
    ensures forall k :: 0 <= k < |s.pages| && k != s.current - 1 ==> r.pages[k] == s.pages[k]
  {
    var pg := s.pages[s.current - 1];
    s.(pages := s.pages[s.current - 1 := pg.(links := pg.links + [a])])
  }

  /** `new jsPDF('p', 'mm', 'a4')`: a portrait A4 document measured in
      millimetres. */
  class PdfDoc {
    var state: WriterState

    ghost predicate Valid()
      reads this
    {
      state.Valid()
    }

    constructor ()
      ensures Valid() && state == Fresh
    {
      state := Fresh;
    }

    /** `getNumberOfPages()` */
    function NumberOfPages(): (n: nat)
      reads this
      requires Valid()
      ensures n >= 1 && n == |state.pages|
    {
      |state.pages|
    }

    method AddPage()
      requires Valid()
      modifies this
      ensures Valid() && state == PageAdded(old(state))
    {
      state := PageAdded(state);
    }

    method AddImage(p: Placement)
      requires Valid()
      modifies this
      ensures Valid() && state == ImageAdded(old(state), p)
    {
      state := ImageAdded(state, p);
    }

    method SetPage(n: int)
      requires Valid()
      modifies this
      ensures Valid() && state == PageSet(old(state), n)
    {
      state := PageSet(state, n);
    }

    method Link(a: Annotation)
      requires Valid()
      modifies this
      ensures Valid() && state == LinkAdded(old(state), a)
    {
      state := LinkAdded(state, a);
    }
  }
}
