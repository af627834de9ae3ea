/**
 * An already-parsed XML document, as ElementTree hands it to the ALTO tools,
 * and the three ElementTree lookups they use:
 *   - `root.iterfind(".//T")`: every descendant of the root with tag `T`, in
 *     document (pre-)order, the root itself excluded;
 *   - `e.findall("T")`: the direct children of `e` with tag `T`, in order;
 *   - `e.find(path)`: the first element the corresponding `findall` would give.
 * Tags are qualified in ElementTree's form `"{uri}Local"`.
 */
module AltoTree {
  import opened PyStr

  datatype Result<+T, +E> = Ok(value: T) | Fail(error: E)

  /** An XML element: qualified tag, attributes, text content and children. */
  datatype Element = Element(tag: string, attrs: map<string, string>, text: Option<string>, children: seq<Element>)

  /** ElementTree's qualified name `"{ns}local"`. */
  function QName(ns: string, local: string): string {
    "{" + ns + "}" + local
  }

  /** Python's `e.attrib.get(key)`. */
  function Attr(e: Element, key: string): Option<string> {
    if key in e.attrs then Some(e.attrs[key]) else None
  }

  /** The descendants of `e` in document order, `e` itself excluded. */
  function Descendants(e: Element): seq<Element>
    decreases e, 1
  {
    DescendantsOf(e.children)
  }

  /** Every element of the forest `cs`, each followed by its descendants. */
  function DescendantsOf(cs: seq<Element>): seq<Element>
    decreases cs, 0
  {
    if |cs| == 0 then [] else [cs[0]] + Descendants(cs[0]) + DescendantsOf(cs[1..])
  }

  /** The elements of `es` whose tag is `tag`, in order. */
  function Tagged(es: seq<Element>, tag: string): (r: seq<Element>)
    ensures |r| <= |es|
    ensures forall k :: 0 <= k < |r| ==> r[k].tag == tag
  {
    if |es| == 0 then []
    else (if es[0].tag == tag then [es[0]] else []) + Tagged(es[1..], tag)
  }

  lemma {:induction false} TaggedConcat(a: seq<Element>, b: seq<Element>, tag: string)
    ensures Tagged(a + b, tag) == Tagged(a, tag) + Tagged(b, tag)
    decreases |a|
  {
    if |a| == 0 {
      assert a + b == b;
    } else {
      var head := if a[0].tag == tag then [a[0]] else [];
      var ta, tb := Tagged(a[1..], tag), Tagged(b, tag);
      assert (a + b)[0] == a[0] && (a + b)[1..] == a[1..] + b;
      TaggedConcat(a[1..], b, tag);
      assert Tagged(a + b, tag) == head + (ta + tb);
      assert head + (ta + tb) == (head + ta) + tb;
      assert Tagged(a, tag) == head + ta;
    }
  }

  /** `Tagged` only selects: every element it returns comes from `es`. */
  lemma {:induction false} TaggedFrom(es: seq<Element>, tag: string, k: nat)
    requires k < |Tagged(es, tag)|
    ensures Tagged(es, tag)[k] in es
    decreases |es|
  {
    if es[0].tag == tag {
      if k > 0 {
        TaggedFrom(es[1..], tag, k - 1);
      }
    } else {
      TaggedFrom(es[1..], tag, k);
    }
  }

  /** `root.iterfind(".//" + tag)`. */
  function IterFind(root: Element, tag: string): seq<Element> {
    Tagged(Descendants(root), tag)
  }

  /** `e.findall(tag)` for a plain qualified tag: direct children only. */
  function FindAll(e: Element, tag: string): seq<Element> {
    Tagged(e.children, tag)
  }

  /** The first element of a lookup result, `None` when there is none. */
  function First(es: seq<Element>): Option<Element> {
    if |es| == 0 then None else Some(es[0])
  }

  /** `root.find(".//" + tag)`: the first such descendant in document order. */
  function FindDescendant(root: Element, tag: string): Option<Element> {
    First(IterFind(root, tag))
  }

  /** `e.find(tag)`: the first such direct child. */
  function FindChild(e: Element, tag: string): Option<Element> {
    First(FindAll(e, tag))
  }

  /**
   * The element `Tagged` puts first is the earliest one with that tag:
   * every element before it in `es` has another tag.
   */
  lemma {:induction false} FirstTaggedIsEarliest(es: seq<Element>, tag: string)
    requires First(Tagged(es, tag)).Some?
    ensures exists k :: 0 <= k < |es| && es[k] == First(Tagged(es, tag)).value
                        && forall j :: 0 <= j < k ==> es[j].tag != tag
    decreases |es|
  {
    if es[0].tag != tag {
      assert Tagged(es, tag) == Tagged(es[1..], tag);
      FirstTaggedIsEarliest(es[1..], tag);
      var k :| 0 <= k < |es[1..]| && es[1..][k] == First(Tagged(es, tag)).value
               && forall j :: 0 <= j < k ==> es[1..][j].tag != tag;
      assert forall j :: 1 <= j < k + 1 ==> es[j] == es[1..][j - 1];
      assert es[k + 1] == First(Tagged(es, tag)).value;
    } else {
      assert es[0] == First(Tagged(es, tag)).value;
    }
  }

  /** The number of descendants of `e` tagged `tag`, counted by a plain tree walk. */
  function CountBelow(e: Element, tag: string): nat
    decreases e, 1
  {
    CountIn(e.children, tag)
  }

  /** The number of elements tagged `tag` in the forest `cs`, roots included. */
  function CountIn(cs: seq<Element>, tag: string): nat
    decreases cs, 0
  {
    if |cs| == 0 then 0
    else (if cs[0].tag == tag then 1 else 0) + CountBelow(cs[0], tag) + CountIn(cs[1..], tag)
  }

  /** `iterfind` finds exactly as many elements as the plain tree walk counts. */
  lemma {:induction false} IterFindCount(e: Element, tag: string)
    ensures |IterFind(e, tag)| == CountBelow(e, tag)
    decreases e, 1
  {
    ForestCount(e.children, tag);
  }

  lemma {:induction false} ForestCount(cs: seq<Element>, tag: string)
    ensures |Tagged(DescendantsOf(cs), tag)| == CountIn(cs, tag)
    decreases cs, 0
  {
    if |cs| > 0 {
      var head := [cs[0]];
      TaggedConcat(head + Descendants(cs[0]), DescendantsOf(cs[1..]), tag);
      TaggedConcat(head, Descendants(cs[0]), tag);
      IterFindCount(cs[0], tag);
      ForestCount(cs[1..], tag);
    }
  }

  /** An element of a forest and everything below it are among the forest's descendants. */
  lemma {:induction false} InForest(cs: seq<Element>, i: nat)
    requires i < |cs|
    ensures cs[i] in DescendantsOf(cs)
    ensures forall x :: x in Descendants(cs[i]) ==> x in DescendantsOf(cs)
    decreases |cs|
  {
    if i > 0 {
      InForest(cs[1..], i - 1);
    }
  }

  /** Below a descendant is still below: `Descendants` is transitive. */
  lemma BelowChild(e: Element, c: Element)
    requires c in e.children
    ensures c in Descendants(e)
    ensures forall x :: x in Descendants(c) ==> x in Descendants(e)
  {
    var i :| 0 <= i < |e.children| && e.children[i] == c;
    InForest(e.children, i);
  }

  /** Everything below a descendant of the forest `cs` is in the forest too. */
  lemma {:induction false} WithinForest(cs: seq<Element>, x: Element)
    requires x in DescendantsOf(cs)
    ensures forall y :: y in Descendants(x) ==> y in DescendantsOf(cs)
    decreases cs
  {
    var c := cs[0];
    assert DescendantsOf(cs) == [c] + Descendants(c) + DescendantsOf(cs[1..]);
    if x == c {
    } else if x in Descendants(c) {
      WithinForest(c.children, x);
    } else {
      WithinForest(cs[1..], x);
    }
  }

  /** The descendant relation is transitive. */
  lemma BelowDescendant(e: Element, x: Element)
    requires x in Descendants(e)
    ensures forall y :: y in Descendants(x) ==> y in Descendants(e)
  {
    WithinForest(e.children, x);
  }
}
