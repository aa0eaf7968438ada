/**
 * XML documents as element trees: a tag, attributes, the element's own
 * text and its child elements in document order. Parsing and printing
 * text are not modelled; the DOM lookups the client uses are
 * (getElementsByTagName in document order, getTextContent).
 */
module Xml {
  import opened Wrappers

  datatype Attribute = Attribute(name: string, value: string)

  datatype Element = Element(tag: string, attributes: seq<Attribute>, text: string, children: seq<Element>)

  /** A childless element holding text, as `doc.createElement` plus `createTextNode` build it. */
  function TextElement(tag: string, text: string): (e: Element)
    ensures e.tag == tag && e.children == []
  {
    Element(tag, [], text, [])
  }

  /** Every element strictly below e, in document (pre-)order. */
  function Descendants(e: Element): seq<Element>
    decreases e, 1
  {
    DescendantsOf(e.children)
  }

  function DescendantsOf(cs: seq<Element>): seq<Element>
    decreases cs, 0
  {
    if cs == [] then [] else [cs[0]] + Descendants(cs[0]) + DescendantsOf(cs[1..])
  }

  /** Node.getTextContent: the element's text followed by that of its descendants. */
  function TextContent(e: Element): string
    decreases e, 1
  {
    e.text + TextContentOf(e.children)
  }

  function TextContentOf(cs: seq<Element>): string
    decreases cs, 0
  {
    if cs == [] then "" else TextContent(cs[0]) + TextContentOf(cs[1..])
  }

  /** The elements of es whose tag is name, in order. */
  function Tagged(es: seq<Element>, name: string): (r: seq<Element>)
    ensures |r| <= |es|
  {
    if es == [] then []
    else (if es[0].tag == name then [es[0]] else []) + Tagged(es[1..], name)
  }

  /** Tagged keeps exactly the elements bearing the name. */
  lemma {:induction false} TaggedMembers(es: seq<Element>, name: string)
    ensures forall x :: x in Tagged(es, name) <==> x in es && x.tag == name
  {
    if es != [] {
      TaggedMembers(es[1..], name);
      assert es == [es[0]] + es[1..];
    }
  }

  lemma {:induction false} TaggedAppend(a: seq<Element>, b: seq<Element>, name: string)
    ensures Tagged(a + b, name) == Tagged(a, name) + Tagged(b, name)
  {
    if a != [] {
      assert (a + b)[0] == a[0] && (a + b)[1..] == a[1..] + b;
      TaggedAppend(a[1..], b, name);
    } else {
      assert a + b == b;
    }
  }

  /** Element.getElementsByTagName: the matching elements below e. */
  function ElementsByTagName(e: Element, name: string): seq<Element> {
    Tagged(Descendants(e), name)
  }

  /** Document.getElementsByTagName: like the element's, but the root itself is included. */
  function DocumentElementsByTagName(root: Element, name: string): seq<Element> {
    Tagged([root] + Descendants(root), name)
  }

  /** Registration.getNodeValue: text of the first matching element below e, or null. */
  function NodeValue(e: Element, name: string): (r: Option<string>)
    ensures r.None? <==> ElementsByTagName(e, name) == []
  {
    var found := ElementsByTagName(e, name);
    if |found| > 0 then Some(TextContent(found[0])) else None
  }


  lemma TaggedNone(es: seq<Element>, name: string)
    requires forall x :: x in es ==> x.tag != name
    ensures Tagged(es, name) == []
  {
    TaggedMembers(es, name);
  }

  lemma {:induction false} DescendantsOfAppend(a: seq<Element>, b: seq<Element>)
    ensures DescendantsOf(a + b) == DescendantsOf(a) + DescendantsOf(b)
  {
    if a == [] {
      assert a + b == b;
    } else {
      assert (a + b)[0] == a[0] && (a + b)[1..] == a[1..] + b;
      DescendantsOfAppend(a[1..], b);
    }
  }

  /** Childless elements are their own list of descendants. */
  lemma {:induction false} DescendantsOfLeaves(ls: seq<Element>)
    requires forall i :: 0 <= i < |ls| ==> ls[i].children == []
    ensures DescendantsOf(ls) == ls
  {
    if ls != [] {
      DescendantsOfLeaves(ls[1..]);
      assert Descendants(ls[0]) == [];
      assert [ls[0]] + ls[1..] == ls;
    }
  }

  lemma TextContentLeaf(e: Element)
    requires e.children == []
    ensures TextContent(e) == e.text
  {
  }
}
