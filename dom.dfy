/** The part of the browser document the PDF export touches: the CV preview
    element (a tree of nodes), its copy with the export-excluded nodes
    removed, and the document body into which a temporary off-screen
    container is mounted. */
module Dom {

  import opened Wrappers

  /** A bounding rectangle, as `getBoundingClientRect` reports it, in CSS px. */
  datatype Box = Box(left: real, top: real, width: real, height: real)

  /** An element. Layout is not modelled: `box` is the rectangle the element
      occupies once its copy is mounted in the export container. */
  datatype Node = Node(tag: string, classes: set<string>, href: Option<string>, box: Box, children: seq<Node>)

  /** The class that marks buttons and controls that must not be exported. */
  const ExcludeClass := "pdf-exclude"

  predicate Excluded(n: Node) {
    ExcludeClass in n.classes
  }

  /** No node below `n` (the root itself is not below) carries the class. */
  predicate NoExcludedBelow(n: Node) {
    forall c :: c in n.children ==> !Excluded(c) && NoExcludedBelow(c)
  }

  predicate NoExcludedIn(cs: seq<Node>) {
    forall c :: c in cs ==> !Excluded(c) && NoExcludedBelow(c)
  }

  /** `clone.querySelectorAll('.pdf-exclude').forEach(el => el.remove())`:
      every descendant carrying the class is removed with its whole subtree.
      `querySelectorAll` looks only below the root, so the root stays. */
  function StripExcluded(n: Node): (r: Node)
    ensures r.tag == n.tag && r.classes == n.classes && r.href == n.href && r.box == n.box
    ensures |r.children| <= |n.children|
    ensures forall c :: c in r.children ==> !Excluded(c)
    decreases n
  {
    n.(children := StripAll(n.children))
  }

  /** The nodes of `cs` that do not carry the class, in order, each with
      its own subtree stripped. */
  function StripAll(cs: seq<Node>): (r: seq<Node>)
    ensures |r| <= |cs|
    ensures forall c :: c in r ==> !Excluded(c)
    decreases cs
  {
    if cs == [] then []
    else if Excluded(cs[0]) then StripAll(cs[1..])
    else [StripExcluded(cs[0])] + StripAll(cs[1..])
  }

  /** An `<a>` element with an `href` attribute: what `a[href]` selects. */
  predicate IsLink(n: Node) {
    n.tag == "a" && n.href.Some?
  }

  /** `n.querySelectorAll('a[href]')`: the links strictly below `n`, in
      document order. */
  function LinksBelow(n: Node): (ls: seq<Node>)
    ensures forall i :: 0 <= i < |ls| ==> IsLink(ls[i])
    decreases n
  {
    LinksIn(n.children)
  }

  function LinksIn(cs: seq<Node>): (ls: seq<Node>)
    ensures forall i :: 0 <= i < |ls| ==> IsLink(ls[i])
    decreases cs
  {
    if cs == [] then []
    else (if IsLink(cs[0]) then [cs[0]] else []) + LinksBelow(cs[0]) + LinksIn(cs[1..])
  }

  /** The live element that `getElementById` finds, with its layout width. */
  datatype LiveElement = LiveElement(offsetWidth: real, tree: Node)

  /** The temporary, off-screen `<div>` that holds the copy during export. */
  class Container {
    const width: real
    const content: Node

    constructor (width: real, content: Node)
      ensures this.width == width && this.content == content
    {
      this.width := width;
      this.content := content;
    }
  }

  /** `xs` without the first occurrence of `x`: what `removeChild` leaves. */
  function RemoveFirst<T(==)>(xs: seq<T>, x: T): (r: seq<T>)
    ensures x !in xs ==> r == xs
    ensures x in xs ==> |r| == |xs| - 1
    decreases |xs|
  {
    if xs == [] then []
    else if xs[0] == x then xs[1..]
    else [xs[0]] + RemoveFirst(xs[1..], x)
  }

  /** Removing what was just appended restores the previous children. */
  lemma {:induction false} RemoveAppended<T>(xs: seq<T>, x: T)
    requires x !in xs
    ensures RemoveFirst(xs + [x], x) == xs
    decreases |xs|
  {
    if xs != [] {
      assert (xs + [x])[1..] == xs[1..] + [x];
      RemoveAppended(xs[1..], x);
    }
  }

  /** `document.body` with the elements the page shows (by id) and the
      temporary containers appended to it. `mounted` logs every container
      ever appended. */
  class Body {
    var elements: map<string, LiveElement>
    var children: seq<Container>
    ghost var mounted: seq<Container>

    constructor (elements: map<string, LiveElement>)
      ensures this.elements == elements && children == [] && mounted == []
    {
      this.elements := elements;
      children := [];
      mounted := [];
    }

    /** `document.getElementById(id)` */
    function GetElementById(id: string): (r: Option<LiveElement>)
      reads this
      ensures r.Some? <==> id in elements
      ensures r.Some? ==> r.value == elements[id]
    {
      if id in elements then Some(elements[id]) else None
    }

    /** `document.body.contains(c)` for a container. */
    predicate Contains(c: Container)
      reads this
    {
      c in children
    }

    /** `document.body.appendChild(c)` */
    method AppendChild(c: Container)
      modifies this
      ensures children == old(children) + [c] && mounted == old(mounted) + [c]
      ensures elements == old(elements)
    {
      children := children + [c];
      mounted := mounted + [c];
    }

    /** `document.body.removeChild(c)`; the DOM throws when `c` is not a
        child, which the caller must rule out. */
    method RemoveChild(c: Container)
      requires c in children
      modifies this
      ensures children == RemoveFirst(old(children), c)
      ensures elements == old(elements) && mounted == old(mounted)
    {
      children := RemoveFirst(children, c);
    }
  }

  // ---- properties of the excluded-node removal ----

  /** The copy holds no excluded node below its root. */
  lemma {:induction false} StripExcludedClean(n: Node)
    ensures NoExcludedBelow(StripExcluded(n))
    decreases n
  {
    StripAllClean(n.children);
  }

  lemma {:induction false} StripAllClean(cs: seq<Node>)
    ensures NoExcludedIn(StripAll(cs))
    decreases cs
  {
    if cs != [] {
      StripAllClean(cs[1..]);
      if !Excluded(cs[0]) {
        StripExcludedClean(cs[0]);
        assert StripAll(cs) == [StripExcluded(cs[0])] + StripAll(cs[1..]);
      }
    }
  }

  /** A tree with nothing to exclude is copied unchanged. */
  lemma {:induction false} StripExcludedNoop(n: Node)
    requires NoExcludedBelow(n)
    ensures StripExcluded(n) == n
    decreases n
  {
    StripAllNoop(n.children);
  }

  lemma {:induction false} StripAllNoop(cs: seq<Node>)
    requires NoExcludedIn(cs)
    ensures StripAll(cs) == cs
    decreases cs
  {
    if cs != [] {
      StripExcludedNoop(cs[0]);
      StripAllNoop(cs[1..]);
      assert cs == [cs[0]] + cs[1..];
    }
  }

  /** Removing the excluded nodes a second time removes nothing more. */
  lemma StripExcludedIdempotent(n: Node)
    ensures StripExcluded(StripExcluded(n)) == StripExcluded(n)
  {
    StripExcludedClean(n);
    StripExcludedNoop(StripExcluded(n));
  }
}
