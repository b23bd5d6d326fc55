/**
  The default select-list builder: a `select` tag with one `option` per list item, the
  selected options chosen by the attempted value when there is one.
 */
module SelectList {
  import opened Wrappers
  import opened Text
  import opened HtmlTags

  /** `SelectListItem`: its `Text` and `Value` may be null. */
  datatype Item = Item(text: Option<string>, value: Option<string>, selected: bool)

  /**
    The value bound to a select input. `Multi` is a `MultiSelectList` (a `SelectList` is
    one too), whose `Items` are `None` when they are not `SelectListItem`s, where the cast
    `as IEnumerable<T>` yields null.
   */
  datatype ListValue = Plain(items: seq<Item>) | Multi(sourceItems: Option<seq<Item>>)

  /** The non-empty pieces of `s` between ',', each then trimmed. */
  function NonEmptyTrimmed(ps: seq<string>): (r: seq<string>)
    ensures |r| <= |ps|
  {
    if ps == [] then []
    else if ps[0] == "" then NonEmptyTrimmed(ps[1..])
    else [Trim(ps[0])] + NonEmptyTrimmed(ps[1..])
  }

  function Pieces(attempted: string): seq<string> {
    NonEmptyTrimmed(Split(attempted, ','))
  }

  /** `x` is one of the non-empty pieces `ps`, trimmed. */
  predicate TrimsTo(ps: seq<string>, x: string) {
    exists k | 0 <= k < |ps| :: ps[k] != "" && Trim(ps[k]) == x
  }

  /** A piece is some non-empty split piece after trimming; empties are dropped before trimming. */
  lemma {:induction false} NonEmptyTrimmedMembers(ps: seq<string>, x: string)
    ensures x in NonEmptyTrimmed(ps) <==> TrimsTo(ps, x)
  {
    if ps != [] {
      NonEmptyTrimmedMembers(ps[1..], x);
      if x in NonEmptyTrimmed(ps[1..]) {
        var k :| 0 <= k < |ps[1..]| && ps[1..][k] != "" && Trim(ps[1..][k]) == x;
        assert ps[k + 1] == ps[1..][k];
      }
      if TrimsTo(ps, x) {
        var k :| 0 <= k < |ps| && ps[k] != "" && Trim(ps[k]) == x;
        if k > 0 {
          assert ps[1..][k - 1] == ps[k];
        }
      }
    }
  }

  /** The key an item is matched by: its `Value`, or its `Text` when that is null. */
  function Key(item: Item): (r: Option<string>)
    ensures item.value.Some? ==> r == item.value
    ensures item.value.None? ==> r == item.text
  {
    if item.value.Some? then item.value else item.text
  }

  /** The selection rule: the attempted pieces decide when there is an attempted value, else the item's flag. */
  predicate IsSelected(item: Item, attempted: Option<string>) {
    if attempted.Some? then Key(item).Some? && Key(item).value in Pieces(attempted.value)
    else item.selected
  }

  lemma IsSelectedSpec(item: Item, attempted: Option<string>)
    ensures attempted.None? ==> (IsSelected(item, attempted) <==> item.selected)
    ensures attempted.Some? ==> (IsSelected(item, attempted) <==>
      Key(item).Some? && TrimsTo(Split(attempted.value, ','), Key(item).value))
  {
    if attempted.Some? && Key(item).Some? {
      var ps := Split(attempted.value, ',');
      NonEmptyTrimmedMembers(ps, Key(item).value);
      assert Pieces(attempted.value) == NonEmptyTrimmed(ps);
    }
  }

  /** `BuildOptionTag`: value and text from the item, `selected="selected"` only when selected. */
  function OptionTag(item: Item, selected: bool): (r: Element)
    ensures r.tagName == "option" && r.children == [] && r.classes == {}
    ensures ("value" in r.attrs) <==> item.value.Some?
    ensures item.value.Some? ==> r.attrs["value"] == item.value.value
    ensures ("selected" in r.attrs) <==> selected
    ensures selected ==> r.attrs["selected"] == "selected"
    ensures r.attrs.Keys <= {"value", "selected"}
    ensures r.text == item.text.GetOr("")
  {
    WithAttr(WithAttr(Tag("option"), "value", item.value), "selected", if selected then Some("selected") else None)
      .(text := item.text.GetOr(""))
  }

  /** The options for the first items, in order. */
  function Options(items: seq<Item>, attempted: Option<string>): (r: seq<Element>)
    ensures |r| == |items|
  {
    if items == [] then []
    else Options(items[..|items| - 1], attempted) + [OptionTag(items[|items| - 1], IsSelected(items[|items| - 1], attempted))]
  }

  lemma OptionsStep(xs: seq<Item>, i: nat, attempted: Option<string>)
    requires i < |xs|
    ensures Options(xs[..i + 1], attempted) == Options(xs[..i], attempted) + [OptionTag(xs[i], IsSelected(xs[i], attempted))]
  {
    assert xs[..i + 1][..i] == xs[..i];
  }

  /** One option per item, in list order, each built from its own item. */
  lemma {:induction false} OptionsPointwise(items: seq<Item>, attempted: Option<string>)
    ensures forall i | 0 <= i < |items| :: Options(items, attempted)[i] == OptionTag(items[i], IsSelected(items[i], attempted))
  {
    if items != [] {
      OptionsPointwise(items[..|items| - 1], attempted);
    }
  }

  /** The items iterated: a multi-select list's own `Items`. */
  function IteratedItems(list: ListValue): Option<seq<Item>> {
    match list
    case Plain(items) => Some(items)
    case Multi(items) => items
  }

  /** What `Build` returns: nothing for a null list, else the select tag, or the exception. */
  function Built(list: Option<ListValue>, attempted: Option<string>): (r: Result<Option<Element>>)
    ensures list.None? ==> r == Ok(None)
    ensures list.Some? && IteratedItems(list.value).None? ==> r == Throws(NullReference)
    ensures list.Some? && IteratedItems(list.value).Some? ==> r.Ok? && r.value.Some?
    ensures r.Ok? && r.value.Some? ==>
      r.value.value.tagName == "select" && r.value.value.text == "" && r.value.value.classes == {}
    ensures r.Ok? && r.value.Some? ==>
      r.value.value.attrs == if list.value.Multi? then map["multiple" := "multiple"] else map[]
    ensures r.Ok? && r.value.Some? ==>
      r.value.value.children == Options(IteratedItems(list.value).value, attempted)
  {
    if list.None? then Ok(None)
    else
      var select := if list.value.Multi? then WithAttr(Tag("select"), "multiple", Some("multiple")) else Tag("select");
      match IteratedItems(list.value)
      case None => Throws(NullReference)
      case Some(items) => Ok(Some(select.(children := Options(items, attempted))))
  }

  /** `Build`: one option appended per item to a fresh select tag. */
  method Build(list: Option<ListValue>, attempted: Option<string>) returns (tag: HtmlTag?, error: Option<Exception>)
    ensures error.Some? <==> Built(list, attempted).Throws?
    ensures error.Some? ==> error.value == Built(list, attempted).error && tag == null
    ensures error.None? ==> (tag == null <==> Built(list, attempted).value.None?)
    ensures tag != null ==> fresh(tag) && tag.Snapshot() == Built(list, attempted).value.value
  {
    if list.None? {
      return null, None;
    }
    tag := new HtmlTag(Tag("select"));
    if list.value.Multi? {
      tag.Attr("multiple", Some("multiple"));
    }
    var items := IteratedItems(list.value);
    if items.None? {
      return null, Some(NullReference);
    }
    var xs := items.value;
    ghost var select := Built(list, attempted).value.value;
    for i := 0 to |xs|
      invariant tag.Snapshot() == select.(children := Options(xs[..i], attempted))
    {
      OptionsStep(xs, i, attempted);
      tag.AppendChild(OptionTag(xs[i], IsSelected(xs[i], attempted)));
    }
    assert xs[..|xs|] == xs;
    error := None;
  }
}
