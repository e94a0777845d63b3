/**
 * The parsed authorize response, as ElementTree's `fromstring` returns it, and the two
 * queries the client runs on it: `findtext(tag)` and `findall('outer/inner')`.
 */
module XmlTree {
  import opened Wrappers
  import opened Bytes

  /** An element: its tag, its attributes, its text (None when it has none) and its children in document order. */
  datatype Element = Element(tag: Str, attrib: map<Str, Str>, text: Option<Str>, children: seq<Element>)

  /** The position of the first element of `es` with the given tag. */
  function FirstWith(es: seq<Element>, tag: Str): (r: Option<nat>)
    ensures r.Some? ==> r.value < |es| && es[r.value].tag == tag
    ensures r.Some? ==> forall j :: 0 <= j < r.value ==> es[j].tag != tag
    ensures r.None? ==> forall j :: 0 <= j < |es| ==> es[j].tag != tag
  {
    if es == [] then None
    else if es[0].tag == tag then Some(0)
    else match FirstWith(es[1..], tag)
      case None => None
      case Some(k) => Some(k + 1)
  }

  /** `e.find(tag)`: the first child with that tag. */
  function Find(e: Element, tag: Str): Option<Element> {
    match FirstWith(e.children, tag)
    case None => None
    case Some(k) => Some(e.children[k])
  }

  /** `e.findtext(tag)`: the text of the first child with the tag, `""` when it has none. */
  function FindText(e: Element, tag: Str): Option<Str> {
    match Find(e, tag)
    case None => None
    case Some(c) => Some(c.text.GetOr([]))
  }

  /**
   * What `findtext(tag)` promises of `r`: None exactly when no child has the tag; otherwise
   * the text of the first such child, and the empty string when that child has no text.
   */
  predicate IsFirstText(e: Element, tag: Str, r: Option<Str>) {
    (r.None? <==> forall j :: 0 <= j < |e.children| ==> e.children[j].tag != tag) &&
    (r.Some? ==> exists k :: (0 <= k < |e.children| && e.children[k].tag == tag &&
      (forall j :: 0 <= j < k ==> e.children[j].tag != tag) && r.value == e.children[k].text.GetOr([])))
  }

  lemma FindTextFirst(e: Element, tag: Str)
    ensures IsFirstText(e, tag, FindText(e, tag))
  {
    var first := FirstWith(e.children, tag);
    if first.Some? {
      var k := first.value;
      assert FindText(e, tag).value == e.children[k].text.GetOr([]);
    }
  }

  /** The elements of `es` with the given tag, in their order. */
  function Tagged(es: seq<Element>, tag: Str): (r: seq<Element>)
    ensures |r| <= |es|
    ensures forall i :: 0 <= i < |r| ==> r[i].tag == tag
  {
    if es == [] then [] else (if es[0].tag == tag then [es[0]] else []) + Tagged(es[1..], tag)
  }

  /** `Tagged` keeps exactly the elements with the tag. */
  lemma {:induction false} TaggedMembers(es: seq<Element>, tag: Str, x: Element)
    ensures x in Tagged(es, tag) <==> x in es && x.tag == tag
  {
    if es != [] {
      TaggedMembers(es[1..], tag, x);
      assert es == [es[0]] + es[1..];
    }
  }

  /** `Tagged` keeps document order: it works piecewise on a split of the children. */
  lemma {:induction false} TaggedAppend(a: seq<Element>, b: seq<Element>, tag: Str)
    ensures Tagged(a + b, tag) == Tagged(a, tag) + Tagged(b, tag)
  {
    if a == [] {
      assert a + b == b;
    } else {
      assert (a + b)[1..] == a[1..] + b;
      TaggedAppend(a[1..], b, tag);
    }
  }

  /** The children with tag `inner` of each element of `parents`, parent by parent. */
  function ChildrenTagged(parents: seq<Element>, inner: Str): (r: seq<Element>)
    ensures forall i :: 0 <= i < |r| ==> r[i].tag == inner
  {
    if parents == [] then [] else Tagged(parents[0].children, inner) + ChildrenTagged(parents[1..], inner)
  }

  /** `e.findall(outer + '/' + inner)`: every grandchild `inner` under a child `outer`, in document order. */
  function FindAll(e: Element, outer: Str, inner: Str): seq<Element> {
    ChildrenTagged(Tagged(e.children, outer), inner)
  }

  /** An element is found exactly when it is an `inner` child of some `outer` child. */
  lemma {:induction false} ChildrenTaggedMembers(parents: seq<Element>, inner: Str, x: Element)
    ensures x in ChildrenTagged(parents, inner) <==>
      x.tag == inner && exists p :: p in parents && x in p.children
  {
    if parents != [] {
      ChildrenTaggedMembers(parents[1..], inner, x);
      TaggedMembers(parents[0].children, inner, x);
      assert parents == [parents[0]] + parents[1..];
      if x.tag == inner && exists p :: p in parents && x in p.children {
        var p :| p in parents && x in p.children;
        if p != parents[0] {
          assert p in parents[1..];
        }
      }
    }
  }

  lemma FindAllMembers(e: Element, outer: Str, inner: Str, x: Element)
    ensures x in FindAll(e, outer, inner) <==>
      x.tag == inner && exists p :: p in e.children && p.tag == outer && x in p.children
  {
    ChildrenTaggedMembers(Tagged(e.children, outer), inner, x);
    forall p ensures p in Tagged(e.children, outer) <==> p in e.children && p.tag == outer {
      TaggedMembers(e.children, outer, p);
    }
  }

  lemma {:induction false} TaggedNone(es: seq<Element>, tag: Str)
    requires forall j :: 0 <= j < |es| ==> es[j].tag != tag
    ensures Tagged(es, tag) == []
  {
    if es != [] {
      TaggedNone(es[1..], tag);
    }
  }

  /** No `outer` child, nothing found. */
  lemma FindAllNone(e: Element, outer: Str, inner: Str)
    requires forall j :: 0 <= j < |e.children| ==> e.children[j].tag != outer
    ensures FindAll(e, outer, inner) == []
  {
    TaggedNone(e.children, outer);
  }
}
