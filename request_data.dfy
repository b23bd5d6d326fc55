/**
  How a form field's `name` and `id` are derived from the property path an accessor
  walks, with `[FromQuery(Name = ...)]` aliases taken either from the path itself or
  from the properties matched against the form's input type.
 */
module RequestNaming {
  import opened Wrappers
  import opened Text
  import opened Clr

  /** One getter on an accessor's path: a property, or another step such as an indexer `[0]`. */
  datatype Segment = PropertySegment(info: PropInfo) | OtherSegment(name: string) {
    function Name(): string {
      match this
      case PropertySegment(info) => info.name
      case OtherSegment(n) => n
    }
  }

  /** An accessor: the getters from the model to the property, in order. */
  datatype Accessor = Accessor(getters: seq<Segment>)

  /** The first `[FromQuery]` among `attrs`, if any. */
  function FromQueryOf(attrs: seq<Attribute>): (r: Option<Attribute>)
    ensures r.Some? ==> r.value.FromQuery? && r.value in attrs
    ensures r.None? <==> forall i | 0 <= i < |attrs| :: !attrs[i].FromQuery?
  {
    if attrs == [] then None
    else if attrs[0].FromQuery? then Some(attrs[0])
    else FromQueryOf(attrs[1..])
  }

  /** `alias != null ? alias.Name : fallback`; an alias without a Name gives null. */
  function AliasOr(attrs: seq<Attribute>, fallback: string): (r: Option<string>)
    ensures FromQueryOf(attrs).None? ==> r == Some(fallback)
    ensures FromQueryOf(attrs).Some? ==> r == FromQueryOf(attrs).value.aliasName
  {
    match FromQueryOf(attrs)
    case Some(alias) => alias.aliasName
    case None => Some(fallback)
  }

  /** A segment's name without an input type: a property's own `[FromQuery]` alias wins. */
  function SegmentName(x: Segment): Option<string> {
    if x.PropertySegment? then AliasOr(x.info.attributes, x.info.name) else Some(x.name)
  }

  /** The segment names without an input type. */
  function DefaultNames(segs: seq<Segment>): (r: seq<Option<string>>)
    ensures |r| == |segs|
  {
    if segs == [] then [] else [SegmentName(segs[0])] + DefaultNames(segs[1..])
  }

  /**
    The segment names with an input type: `props` are the properties matched against the
    input type, consumed left to right from `i`; a property segment whose name equals
    the current property takes that property's alias and moves on to the next one.
   */
  function MatchedNames(segs: seq<Segment>, props: seq<PropInfo>, i: nat): (r: seq<Option<string>>)
    ensures |r| == |segs|
    decreases |segs|
  {
    if segs == [] then []
    else
      var x := segs[0];
      if i >= |props| then [Some(x.Name())] + MatchedNames(segs[1..], props, i)
      else if x.PropertySegment? && x.Name() == props[i].name then
        [AliasOr(props[i].attributes, x.Name())] + MatchedNames(segs[1..], props, i + 1)
      else [Some(x.Name())] + MatchedNames(segs[1..], props, i)
  }

  /** Once the matched properties are used up, every name passes through unchanged. */
  lemma {:induction false} ExhaustedPassesThrough(segs: seq<Segment>, props: seq<PropInfo>, i: nat)
    requires i >= |props|
    ensures forall k | 0 <= k < |segs| :: MatchedNames(segs, props, i)[k] == Some(segs[k].Name())
    decreases |segs|
  {
    if segs != [] {
      ExhaustedPassesThrough(segs[1..], props, i);
      assert forall k | 1 <= k < |segs| :: segs[1..][k - 1] == segs[k];
    }
  }

  /** The properties on a path, in order. */
  function PathProperties(segs: seq<Segment>): (r: seq<PropInfo>)
    ensures |r| <= |segs|
  {
    if segs == [] then []
    else (if segs[0].PropertySegment? then [segs[0].info] else []) + PathProperties(segs[1..])
  }

  /**
    When the matched properties are exactly the path's own properties, the input-type
    reading names every segment as the reading without an input type does.
   */
  lemma MatchingOwnPropertiesAgrees(segs: seq<Segment>)
    ensures MatchedNames(segs, PathProperties(segs), 0) == DefaultNames(segs)
  {
    MatchingAgrees(segs, []);
    assert [] + PathProperties(segs) == PathProperties(segs);
  }

  lemma {:induction false} MatchingAgrees(segs: seq<Segment>, done: seq<PropInfo>)
    ensures MatchedNames(segs, done + PathProperties(segs), |done|) == DefaultNames(segs)
    decreases |segs|
  {
    if segs != [] {
      var x := segs[0];
      var rest := segs[1..];
      var props := done + PathProperties(segs);
      PathPropertiesCons(segs);
      MatchedStep(segs, props, |done|);
      DefaultNamesCons(segs);
      if x.PropertySegment? {
        assert props == (done + [x.info]) + PathProperties(rest) && props[|done|] == x.info;
        MatchingAgrees(rest, done + [x.info]);
      } else {
        assert props == done + PathProperties(rest);
        MatchingAgrees(rest, done);
      }
    }
  }

  lemma PathPropertiesCons(segs: seq<Segment>)
    requires segs != []
    ensures PathProperties(segs) == (if segs[0].PropertySegment? then [segs[0].info] else []) + PathProperties(segs[1..])
  {
  }

  /** One step of the input-type pass: a property segment matching the current property takes its alias and advances the cursor; any other segment keeps its own name. */
  lemma MatchedStep(segs: seq<Segment>, props: seq<PropInfo>, i: nat)
    requires segs != []
    ensures i < |props| && segs[0].PropertySegment? && segs[0].Name() == props[i].name ==>
      MatchedNames(segs, props, i) == [AliasOr(props[i].attributes, segs[0].Name())] + MatchedNames(segs[1..], props, i + 1)
    ensures !(i < |props| && segs[0].PropertySegment? && segs[0].Name() == props[i].name) ==>
      MatchedNames(segs, props, i) == [Some(segs[0].Name())] + MatchedNames(segs[1..], props, i)
  {
  }

  /** Without an input type, each segment is named on its own. */
  lemma {:induction false} DefaultNamesPointwise(segs: seq<Segment>)
    ensures forall k | 0 <= k < |segs| :: DefaultNames(segs)[k] == SegmentName(segs[k])
    decreases |segs|
  {
    if segs != [] {
      DefaultNamesPointwise(segs[1..]);
      assert forall k | 1 <= k < |segs| :: segs[1..][k - 1] == segs[k];
    }
  }

  lemma DefaultNamesCons(segs: seq<Segment>)
    requires segs != []
    ensures DefaultNames(segs) == [SegmentName(segs[0])] + DefaultNames(segs[1..])
  {
  }

  /** `string.Join(".", names).Replace(".[", "[")`; a null name joins as "". */
  function JoinName(names: seq<Option<string>>): string {
    ReplaceAll(Join(".", seq(|names|, k requires 0 <= k < |names| => names[k].GetOr(""))), ".[", "[")
  }

  /** `IdRegex.Replace(name, "_")`: every '.', '[' and ']' becomes '_'. */
  function IdOf(name: string): (r: string)
    ensures |r| == |name|
    ensures forall k | 0 <= k < |r| :: r[k] != '.' && r[k] != '[' && r[k] != ']'
    ensures forall k | 0 <= k < |r| :: name[k] != '.' && name[k] != '[' && name[k] != ']' ==> r[k] == name[k]
    ensures forall k | 0 <= k < |r| :: name[k] == '.' || name[k] == '[' || name[k] == ']' ==> r[k] == '_'
  {
    seq(|name|, k requires 0 <= k < |name| => if name[k] == '.' || name[k] == '[' || name[k] == ']' then '_' else name[k])
  }

  /** An id is unchanged by deriving an id from it again. */
  lemma IdOfIdempotent(name: string)
    ensures IdOf(IdOf(name)) == IdOf(name)
  {
  }

  /**
    A field's naming context: the accessor (null when None), the form's input type, and
    the properties matched against that input type (the matcher itself is not modelled).
    `name` and `id` memoise the values computed so far.
   */
  class RequestData {
    const accessor: Option<Accessor>
    const inputType: Option<ClrType>
    const matchedProperties: seq<PropInfo>
    var name: Option<string>
    var id: Option<string>

    /** The names of the path's segments. */
    function PropertyNames(): (r: seq<Option<string>>)
      reads this
      requires accessor.Some?
    {
      if inputType.Some? then MatchedNames(accessor.value.getters, matchedProperties, 0)
      else DefaultNames(accessor.value.getters)
    }

    /** What `Name` reads as: null without an accessor. */
    function ExpectedName(): (r: Option<string>)
      reads this
      ensures r.None? <==> accessor.None?
    {
      if accessor.None? then None else Some(JoinName(PropertyNames()))
    }

    function ExpectedId(): (r: Option<string>)
      reads this
      ensures r.None? <==> ExpectedName().None?
      ensures r.Some? ==> r.value == IdOf(ExpectedName().value) && |r.value| == |ExpectedName().value|
    {
      if ExpectedName().None? then None else Some(IdOf(ExpectedName().value))
    }

    /** A memoised value is the value that would be computed now. */
    predicate Valid()
      reads this
    {
      (name.Some? ==> name == ExpectedName()) && (id.Some? ==> id == ExpectedId())
    }

    /** `BuildRequestData(accessor, inputType)`. */
    constructor(accessor: Option<Accessor>, inputType: Option<ClrType>, matchedProperties: seq<PropInfo>)
      ensures Valid() && name.None? && id.None?
      ensures this.accessor == accessor && this.inputType == inputType && this.matchedProperties == matchedProperties
    {
      this.accessor := accessor;
      this.inputType := inputType;
      this.matchedProperties := matchedProperties;
      name := None;
      id := None;
    }

    /** `GetPropertyNames`: the input-type reading when there is an input type, else the plain one. */
    method GetPropertyNames() returns (r: seq<Option<string>>)
      requires accessor.Some?
      ensures r == PropertyNames()
    {
      if inputType.Some? {
        r := MatchPropertyNames(accessor.value.getters, matchedProperties);
      } else {
        r := PlainPropertyNames(accessor.value.getters);
      }
    }

    /** The `Name` getter: the memo if set; null without an accessor; else computed and stored. */
    method Name() returns (r: Option<string>)
      requires Valid()
      modifies this
      ensures Valid()
      ensures r == ExpectedName()
      ensures old(name).Some? ==> r == old(name)
      ensures name == r && id == old(id)
    {
      if name.Some? {
        return name;
      }
      if accessor.None? {
        return None;
      }
      var names := GetPropertyNames();
      name := Some(JoinName(names));
      return name;
    }

    /** The `Id` getter: the memo if set; else derived from `Name`, and stored. */
    method Id() returns (r: Option<string>)
      requires Valid()
      modifies this
      ensures Valid()
      ensures r == ExpectedId()
      ensures old(id).Some? ==> r == old(id)
      ensures id == r
    {
      if id.Some? {
        return id;
      }
      var n := Name();
      id := if n.None? then None else Some(IdOf(n.value));
      return id;
    }
  }

  /** `GetName(accessor)`: a context with only an accessor, so the input-type matching never runs. */
  method GetName(accessor: Accessor) returns (r: string)
    ensures r == JoinName(DefaultNames(accessor.getters))
  {
    var rd := new RequestData(Some(accessor), None, []);
    var n := rd.Name();
    return n.value;
  }

  /** The input-type pass: one step per getter, with the cursor `i` into the matched properties. */
  method MatchPropertyNames(getters: seq<Segment>, props: seq<PropInfo>) returns (r: seq<Option<string>>)
    ensures r == MatchedNames(getters, props, 0)
  {
    r := [];
    var i := 0;
    var j := 0;
    while j < |getters|
      invariant 0 <= j <= |getters|
      invariant r + MatchedNames(getters[j..], props, i) == MatchedNames(getters, props, 0)
    {
      var x := getters[j];
      var rest := getters[j..];
      assert rest[1..] == getters[j + 1..];
      var n: Option<string>;
      var i' := i;
      if i > |props| - 1 {
        n := Some(x.Name());
      } else if x.PropertySegment? && x.Name() == props[i].name {
        n := AliasOr(props[i].attributes, x.Name());
        i' := i + 1;
      } else {
        n := Some(x.Name());
      }
      MatchedStep(rest, props, i);
      assert r + MatchedNames(rest, props, i) == (r + [n]) + MatchedNames(getters[j + 1..], props, i');
      r := r + [n];
      i := i';
      j := j + 1;
    }
  }

  /** The pass without an input type. */
  method PlainPropertyNames(getters: seq<Segment>) returns (r: seq<Option<string>>)
    ensures r == DefaultNames(getters)
  {
    r := [];
    var j := 0;
    while j < |getters|
      invariant 0 <= j <= |getters|
      invariant r + DefaultNames(getters[j..]) == DefaultNames(getters)
    {
      var x := getters[j];
      assert getters[j..][1..] == getters[j + 1..];
      DefaultNamesCons(getters[j..]);
      var n := if x.PropertySegment? then AliasOr(x.info.attributes, x.info.name) else Some(x.name);
      r := r + [n];
      j := j + 1;
    }
  }
}
