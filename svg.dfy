/**
  The part of an ElementTree element that the axis builds: a tag, an
  ordered list of attributes, ordered children and an optional text.
  Attribute values keep their type (a string or a number); turning a
  number into text when the tree is serialised is not modelled.
 */
module Svg {
  import opened Wrappers

  datatype Attr = Str(s: string) | Num(n: real)

  type Attrs = seq<(string, Attr)>

  datatype Node = Node(tag: string, attrs: Attrs, children: seq<Node>, text: Option<string>)

  /** The value stored under `key`, as a dictionary lookup would give it. */
  function Lookup(attrs: Attrs, key: string): Option<Attr>
  {
    if attrs == [] then None
    else if attrs[0].0 == key then Some(attrs[0].1)
    else Lookup(attrs[1..], key)
  }

  /** True when `key` names no attribute of `attrs`. */
  predicate Absent(attrs: Attrs, key: string)
  {
    forall j :: 0 <= j < |attrs| ==> attrs[j].0 != key
  }

  /** The first entry with `key` is the one a lookup returns. */
  lemma {:induction false} LookupAt(attrs: Attrs, j: nat, key: string)
    requires j < |attrs| && attrs[j].0 == key
    requires forall i :: 0 <= i < j ==> attrs[i].0 != key
    ensures Lookup(attrs, key) == Some(attrs[j].1)
  {
    if j > 0 {
      LookupAt(attrs[1..], j - 1, key);
    }
  }

  /**
    Setting an attribute, as a dictionary does: an existing key keeps its
    place and takes the new value, a new key goes at the end.
   */
  function SetAttr(attrs: Attrs, key: string, value: Attr): (r: Attrs)
  {
    if attrs == [] then [(key, value)]
    else if attrs[0].0 == key then [(key, value)] + attrs[1..]
    else [attrs[0]] + SetAttr(attrs[1..], key, value)
  }

  /** After setting `key`, looking it up gives the value set. */
  lemma {:induction false} SetAttrLookup(attrs: Attrs, key: string, value: Attr)
    ensures Lookup(SetAttr(attrs, key, value), key) == Some(value)
  {
    if attrs != [] && attrs[0].0 != key {
      SetAttrLookup(attrs[1..], key, value);
    }
  }

  /** Setting `key` leaves every other key as it was. */
  lemma {:induction false} SetAttrOther(attrs: Attrs, key: string, value: Attr, other: string)
    requires other != key
    ensures Lookup(SetAttr(attrs, key, value), other) == Lookup(attrs, other)
  {
    if attrs != [] && attrs[0].0 != key {
      SetAttrOther(attrs[1..], key, value, other);
    }
  }

  /** A key not yet present is added after all the others. */
  lemma {:induction false} SetAttrNew(attrs: Attrs, key: string, value: Attr)
    requires Absent(attrs, key)
    ensures SetAttr(attrs, key, value) == attrs + [(key, value)]
  {
    if attrs != [] {
      SetAttrNew(attrs[1..], key, value);
    }
  }

  /** A key already present keeps its position and only its value changes. */
  lemma {:induction false} SetAttrPresent(attrs: Attrs, j: nat, key: string, value: Attr)
    requires j < |attrs| && attrs[j].0 == key
    requires forall i :: 0 <= i < j ==> attrs[i].0 != key
    ensures SetAttr(attrs, key, value) == attrs[j := (key, value)]
  {
    if j > 0 {
      SetAttrPresent(attrs[1..], j - 1, key, value);
    }
  }

  /** `ET.Element(tag, **attrs)`: a childless element with no text. */
  function Element(tag: string, attrs: Attrs): (n: Node)
  {
    Node(tag, attrs, [], None)
  }

  /** `element.set(key, value)`. */
  function Set(n: Node, key: string, value: Attr): (r: Node)
  {
    n.(attrs := SetAttr(n.attrs, key, value))
  }

  /** `element.get(key)`. */
  function Get(n: Node, key: string): Option<Attr>
  {
    Lookup(n.attrs, key)
  }

  /** `parent.append(child)`. */
  function Append(n: Node, child: Node): (r: Node)
  {
    n.(children := n.children + [child])
  }
}
