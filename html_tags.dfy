/**
  The part of the HtmlTags library the conventions use: a tag with a name, attributes,
  classes, text and children. Built tags are values (`Element`); a tag that modifiers
  change in place is an `HtmlTag` object.
 */
module HtmlTags {
  import opened Wrappers

  datatype Element = Element(tagName: string, attrs: map<string, string>, classes: set<string>, text: string, children: seq<Element>)

  function Tag(tagName: string): Element {
    Element(tagName, map[], {}, "", [])
  }

  /** `Attr(key, value)`: a null value removes the attribute. */
  function WithAttr(e: Element, key: string, value: Option<string>): (r: Element)
    ensures r.tagName == e.tagName && r.classes == e.classes && r.text == e.text && r.children == e.children
    ensures key in r.attrs <==> value.Some?
    ensures value.Some? ==> r.attrs[key] == value.value
    ensures forall k | k in e.attrs && k != key :: k in r.attrs && r.attrs[k] == e.attrs[k]
    ensures forall k | k in r.attrs && k != key :: k in e.attrs
  {
    if value.Some? then e.(attrs := e.attrs[key := value.value]) else e.(attrs := e.attrs - {key})
  }

  /** `input`, `select` and `textarea` take part in form posts. */
  predicate IsInputTagName(name: string) {
    name == "input" || name == "select" || name == "textarea"
  }

  /** Booleans are written with `bool.ToString()`. */
  function BoolText(b: bool): string {
    if b then "True" else "False"
  }

  class HtmlTag {
    var tagName: string
    var attrs: map<string, string>
    var classes: set<string>
    var text: string
    var children: seq<Element>

    constructor(e: Element)
      ensures Snapshot() == e
    {
      tagName := e.tagName;
      attrs := e.attrs;
      classes := e.classes;
      text := e.text;
      children := e.children;
    }

    function Snapshot(): Element
      reads this
    {
      Element(tagName, attrs, classes, text, children)
    }

    /** `Attr(key)`: the attribute's value, or null. */
    function GetAttr(key: string): (v: Option<string>)
      reads this
      ensures v.Some? <==> key in attrs
      ensures v.Some? ==> v.value == attrs[key]
    {
      if key in attrs then Some(attrs[key]) else None
    }

    predicate IsInputElement()
      reads this
    {
      IsInputTagName(tagName)
    }

    method Attr(key: string, value: Option<string>)
      modifies this
      ensures Snapshot() == WithAttr(old(Snapshot()), key, value)
    {
      if value.Some? {
        attrs := attrs[key := value.value];
      } else {
        attrs := attrs - {key};
      }
    }

    method AddClass(c: string)
      modifies this
      ensures Snapshot() == old(Snapshot()).(classes := old(classes) + {c})
    {
      classes := classes + {c};
    }

    method SetText(t: string)
      modifies this
      ensures Snapshot() == old(Snapshot()).(text := t)
    {
      text := t;
    }

    method AppendChild(child: Element)
      modifies this
      ensures Snapshot() == old(Snapshot()).(children := old(children) + [child])
    {
      children := children + [child];
    }
  }
}
