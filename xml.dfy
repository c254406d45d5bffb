/**
 * An already-parsed XML element, with the ElementTree lookups the loaders and
 * the card parser use. Reading and parsing the file are not part of this model.
 */
module Xml {
  import opened Wrappers

  datatype Element = Element(tag: string, attrib: map<string, string>, text: Option<string>, children: seq<Element>)

  /** `e.attrib.get(key)`. */
  function Attr(e: Element, key: string): Option<string> {
    Get(e.attrib, key)
  }

  /** `e.attrib.get(key, default)`. */
  function AttrOr(e: Element, key: string, default: string): string {
    Attr(e, key).GetOr(default)
  }

  /** The elements of `cs` with tag `tag`: every one of them and nothing else. */
  function ChildrenTagged(cs: seq<Element>, tag: string): (r: seq<Element>)
    ensures |r| <= |cs|
    ensures forall i :: 0 <= i < |r| ==> r[i].tag == tag && r[i] in cs
    ensures forall e :: e in cs && e.tag == tag ==> e in r
  {
    if cs == [] then []
    else
      assert forall e :: e in cs ==> e == cs[0] || e in cs[1..];
      (if cs[0].tag == tag then [cs[0]] else []) + ChildrenTagged(cs[1..], tag)
  }

  /** `findall` drops no match: each element with the tag occurs as often as in `cs`, any other not at all. */
  lemma {:induction false} ChildrenTaggedCount(cs: seq<Element>, tag: string, e: Element)
    ensures multiset(ChildrenTagged(cs, tag))[e] == if e.tag == tag then multiset(cs)[e] else 0
  {
    if cs != [] {
      var rest := ChildrenTagged(cs[1..], tag);
      ChildrenTaggedCount(cs[1..], tag, e);
      assert cs == [cs[0]] + cs[1..];
      assert multiset(cs)[e] == multiset([cs[0]])[e] + multiset(cs[1..])[e];
      if cs[0].tag == tag {
        assert ChildrenTagged(cs, tag) == [cs[0]] + rest;
        assert multiset(ChildrenTagged(cs, tag))[e] == multiset([cs[0]])[e] + multiset(rest)[e];
      } else {
        assert ChildrenTagged(cs, tag) == rest;
        assert cs[0] == e ==> e.tag != tag;
      }
    }
  }

  /** `findall` keeps document order: a later child that matches comes after the earlier matches. */
  lemma {:induction false} ChildrenTaggedSnoc(cs: seq<Element>, c: Element, tag: string)
    ensures ChildrenTagged(cs + [c], tag) == ChildrenTagged(cs, tag) + (if c.tag == tag then [c] else [])
  {
    var last := if c.tag == tag then [c] else [];
    if cs == [] {
      assert [c][1..] == [];
      assert ChildrenTagged([c], tag) == last + ChildrenTagged([], tag);
    } else {
      var head := if cs[0].tag == tag then [cs[0]] else [];
      assert (cs + [c])[0] == cs[0];
      assert (cs + [c])[1..] == cs[1..] + [c];
      ChildrenTaggedSnoc(cs[1..], c, tag);
      calc {
        ChildrenTagged(cs + [c], tag);
        head + ChildrenTagged(cs[1..] + [c], tag);
        head + (ChildrenTagged(cs[1..], tag) + last);
        (head + ChildrenTagged(cs[1..], tag)) + last;
        ChildrenTagged(cs, tag) + last;
      }
    }
  }

  /** `e.findall(tag)`: the direct children with that tag, in document order. */
  function FindAll(e: Element, tag: string): seq<Element> {
    ChildrenTagged(e.children, tag)
  }

  function FirstTagged(cs: seq<Element>, tag: string): Option<Element> {
    if cs == [] then None
    else if cs[0].tag == tag then Some(cs[0])
    else FirstTagged(cs[1..], tag)
  }

  /** `e.find(tag)`: the first direct child with that tag. */
  function Find(e: Element, tag: string): Option<Element> {
    FirstTagged(e.children, tag)
  }

  /** `find` returns the head of what `findall` returns, if anything. */
  lemma {:induction false} FirstOfChildren(cs: seq<Element>, tag: string)
    ensures FirstTagged(cs, tag) == if ChildrenTagged(cs, tag) == [] then None else Some(ChildrenTagged(cs, tag)[0])
  {
    if cs != [] && cs[0].tag != tag {
      FirstOfChildren(cs[1..], tag);
    }
  }

  lemma FindIsFirstOfFindAll(e: Element, tag: string)
    ensures Find(e, tag) == if FindAll(e, tag) == [] then None else Some(FindAll(e, tag)[0])
  {
    FirstOfChildren(e.children, tag);
  }

  /** `e.findtext(tag)`: `None` without such a child, else its text, `""` when it has none. */
  function FindText(e: Element, tag: string): Option<string> {
    match Find(e, tag)
    case None => None
    case Some(c) => Some(c.text.GetOr(""))
  }
}
