/**
  The route-value flattener of SchoStack.AspNetCore.ModelUrls: it walks an object tree
  and adds one entry per non-default scalar to a flat, case-insensitive route-value
  dictionary, under keys such as `a.b` and `a[0].b`.
 */
module RouteValues {
  import opened Wrappers
  import opened Text
  import opened Clr

  /** One entry of a route-value dictionary. */
  datatype RouteEntry = RouteEntry(key: string, value: Value)

  /** Route-value keys compare without regard to (ASCII) case. */
  predicate SameKey(a: string, b: string) {
    Fold(a) == Fold(b)
  }

  predicate KeyIn(es: seq<RouteEntry>, key: string) {
    exists i | 0 <= i < |es| :: SameKey(es[i].key, key)
  }

  predicate DistinctKeys(es: seq<RouteEntry>) {
    forall i, j | 0 <= i < j < |es| :: !SameKey(es[i].key, es[j].key)
  }

  /** A `RouteValueDictionary`: its entries in insertion order. */
  class RouteValueDictionary {
    var entries: seq<RouteEntry>

    predicate Valid()
      reads this
    {
      DistinctKeys(entries)
    }

    constructor()
      ensures Valid() && entries == []
    {
      entries := [];
    }

    function ContainsKey(key: string): (b: bool)
      reads this
      ensures b <==> exists i | 0 <= i < |entries| :: Fold(entries[i].key) == Fold(key)
    {
      KeyIn(entries, key)
    }

    /** `Add`: refuses (the library throws) a key that is already present, ignoring case. */
    method Add(key: string, value: Value) returns (ok: bool)
      requires Valid()
      modifies this
      ensures Valid()
      ensures ok <==> !KeyIn(old(entries), key)
      ensures entries == if ok then old(entries) + [RouteEntry(key, value)] else old(entries)
    {
      if KeyIn(entries, key) {
        ok := false;
      } else {
        ok := true;
        entries := entries + [RouteEntry(key, value)];
      }
    }
  }

  /** The state a sequence of `Add` calls leaves, and the key that made one of them throw. */
  datatype Outcome = Outcome(entries: seq<RouteEntry>, duplicate: Option<string>)

  /** Adding `es` in order to a dictionary holding `s`, stopping at the first duplicate key. */
  function AddAll(s: seq<RouteEntry>, es: seq<RouteEntry>): (r: Outcome)
    ensures s <= r.entries && |r.entries| <= |s| + |es|
    ensures DistinctKeys(s) ==> DistinctKeys(r.entries)
    ensures r.duplicate.None? ==> r.entries == s + es
    ensures r.duplicate.Some? ==> KeyIn(r.entries, r.duplicate.value)
    ensures r.duplicate.Some? ==> exists i | 0 <= i < |es| :: es[i].key == r.duplicate.value
    decreases |es|
  {
    if es == [] then Outcome(s, None)
    else if KeyIn(s, es[0].key) then Outcome(s, Some(es[0].key))
    else
      var r := AddAll(s + [es[0]], es[1..]);
      assert r.duplicate.Some? ==> exists i | 0 <= i < |es| :: es[i].key == r.duplicate.value by {
        if r.duplicate.Some? {
          var i :| 0 <= i < |es[1..]| && es[1..][i].key == r.duplicate.value;
          assert es[i + 1].key == r.duplicate.value;
        }
      }
      r
  }

  /** Adding `a + b` is adding `a`, then, unless that threw, adding `b`. */
  lemma {:induction false} AddAllAppend(s: seq<RouteEntry>, a: seq<RouteEntry>, b: seq<RouteEntry>)
    ensures AddAll(s, a + b) ==
      var x := AddAll(s, a); if x.duplicate.Some? then x else AddAll(x.entries, b)
    decreases |a|
  {
    if a != [] {
      assert (a + b)[0] == a[0];
      assert (a + b)[1..] == a[1..] + b;
      if !KeyIn(s, a[0].key) {
        AddAllAppend(s + [a[0]], a[1..], b);
      }
    } else {
      assert a + b == b;
    }
  }

  /** Once an `Add` has thrown, nothing later in the sequence runs. */
  lemma FailureSticks(s: seq<RouteEntry>, a: seq<RouteEntry>, full: seq<RouteEntry>)
    requires a <= full && AddAll(s, a).duplicate.Some?
    ensures AddAll(s, full) == AddAll(s, a)
  {
    assert full == a + full[|a|..];
    AddAllAppend(s, a, full[|a|..]);
  }

  // ---- Classification of a property by its declared type ----

  datatype PropType = Simple | Enumerable | Complex | Unknown

  /** An enum, or a Nullable of an enum. */
  predicate IsEnum(t: ClrType) {
    t.Enum? || (t.Nullable? && t.underlying.Enum?)
  }

  const ConvertibleTypes: seq<ClrType> := [
    Builtin(Bool), Builtin(Byte), Builtin(Char),
    Builtin(DateTime), Builtin(DateTimeOffset), Builtin(Decimal), Builtin(Double), Builtin(Float), Builtin(Int),
    Builtin(Long), Builtin(SByte), Builtin(Short), Builtin(String), Builtin(UInt),
    Builtin(ULong), Builtin(UShort), Builtin(Guid), Builtin(TimeSpan)
  ]

  /**
    The test `In` applies to each listed type: assignable from `t`, or from the type
    `t` is a Nullable of. The listed types are sealed, so a listed type is assignable
    only from itself.
   */
  predicate AcceptsType(listed: ClrType, t: ClrType) {
    listed == t || (t.Nullable? && listed == t.underlying)
  }

  predicate IsConvertible(t: ClrType) {
    exists i | 0 <= i < |ConvertibleTypes| :: AcceptsType(ConvertibleTypes[i], t)
  }

  /** `In`: a linear search over `types` that returns at the first accepting type. */
  method In(t: ClrType, types: seq<ClrType>) returns (b: bool)
    ensures b <==> exists i | 0 <= i < |types| :: AcceptsType(types[i], t)
  {
    var i := 0;
    while i < |types|
      invariant 0 <= i <= |types|
      invariant forall j | 0 <= j < i :: !AcceptsType(types[j], t)
    {
      if AcceptsType(types[i], t) {
        return true;
      }
      i := i + 1;
    }
    return false;
  }

  /** The convertible types are exactly the 18 built-ins and their Nullable forms. */
  lemma ConvertibleIff(t: ClrType)
    ensures IsConvertible(t) <==> UnwrapNullable(t).Builtin?
  {
    if UnwrapNullable(t).Builtin? {
      var p := UnwrapNullable(t).prim;
      var i: nat := match p
        case Bool => 0 case Byte => 1 case Char => 2 case DateTime => 3 case DateTimeOffset => 4
        case Decimal => 5 case Double => 6 case Float => 7 case Int => 8 case Long => 9
        case SByte => 10 case Short => 11 case String => 12 case UInt => 13 case ULong => 14
        case UShort => 15 case Guid => 16 case TimeSpan => 17;
      assert AcceptsType(ConvertibleTypes[i], t);
    }
  }

  /** A public getter with no parameters and no generic arguments. */
  predicate SimpleGetter(p: PropInfo) {
    p.getter.Some? && p.getter.value.isPublic
    && p.getter.value.parameterCount == 0 && p.getter.value.genericArgumentCount == 0
  }

  /** The classification a property's declared type gets, first match wins. */
  function Classify(p: PropInfo): (k: PropType)
    ensures k == Simple <==> UnwrapNullable(p.propertyType).Enum? || UnwrapNullable(p.propertyType).Builtin?
    ensures k == Enumerable <==> k != Simple && IsEnumerableType(p.propertyType)
    ensures k == Complex <==> k != Simple && !IsEnumerableType(p.propertyType) && SimpleGetter(p)
    ensures k == Unknown <==> k != Simple && !IsEnumerableType(p.propertyType) && !SimpleGetter(p)
  {
    ConvertibleIff(p.propertyType);
    var t := p.propertyType;
    if IsEnum(t) || IsConvertible(t) then Simple
    else if IsEnumerableType(t) then Enumerable
    else if SimpleGetter(p) then Complex
    else Unknown
  }

  /** The per-type defaults table; any other value type falls back to `Activator.CreateInstance`. */
  const Defaults: map<ClrType, Value> := map[
    Builtin(Bool) := Boxed(Builtin(Bool), ZeroPayload),
    Builtin(Int) := Boxed(Builtin(Int), ZeroPayload),
    Builtin(DateTime) := Boxed(Builtin(DateTime), ZeroPayload),
    Builtin(Decimal) := Boxed(Builtin(Decimal), ZeroPayload),
    Builtin(Float) := Boxed(Builtin(Float), ZeroPayload),
    Builtin(Double) := Boxed(Builtin(Double), ZeroPayload)
  ]

  /** `GetDefault`: the table agrees with `Activator`, and reference types and Nullables default to null. */
  function GetDefault(t: ClrType): (r: Value)
    ensures r == DefaultInstance(t)
    ensures r.Null? <==> !IsValueType(t) || t.Nullable?
  {
    if IsValueType(t) then
      if t in Defaults then Defaults[t] else DefaultInstance(t)
    else Null
  }

  /** A Simple property is skipped when null, or when default-valued and not marked `[FromRoute]`. */
  predicate Skipped(p: Property) {
    p.value.Null? || (ValueEquals(p.value, GetDefault(p.info.propertyType)) && !HasFromRoute(p.info.attributes))
  }

  type TypeFormatter = (ClrType, Value) -> Value
  type NameFormatter = (PropInfo, seq<Attribute>) -> string

  /** The prefix of the element with index `i` of an enumerable property named `name`. */
  function ElementPrefix(name: string, i: nat): (r: string)
    ensures name <= r && |r| > 0 && r[|r| - 1] == '.'
  {
    name + "[" + NatToString(i) + "]."
  }

  /** `value` with every null element removed. */
  function NonNulls(xs: seq<Value>): (r: seq<Value>)
    ensures |r| <= |xs|
    ensures forall i | 0 <= i < |r| :: r[i].Obj?
  {
    if xs == [] then []
    else NonNulls(xs[..|xs| - 1]) + (if xs[|xs| - 1].Null? then [] else [xs[|xs| - 1]])
  }

  // ---- The entries a walk adds, in the order it adds them ----

  function Emitted(o: Value, tf: TypeFormatter, nf: NameFormatter, prefix: string): seq<RouteEntry>
    decreases o, 2, 0
  {
    if o.Null? then [] else PropsEmitted(o, |o.props|, tf, nf, prefix)
  }

  /** The entries of the first `k` properties of `o`. */
  function PropsEmitted(o: Value, k: nat, tf: TypeFormatter, nf: NameFormatter, prefix: string): seq<RouteEntry>
    requires o.Obj? && k <= |o.props|
    decreases o, 1, k
  {
    if k == 0 then [] else PropsEmitted(o, k - 1, tf, nf, prefix) + PropEmitted(o, k - 1, tf, nf, prefix)
  }

  /** The entries of property `idx` of `o`. */
  function PropEmitted(o: Value, idx: nat, tf: TypeFormatter, nf: NameFormatter, prefix: string): (r: seq<RouteEntry>)
    requires o.Obj? && idx < |o.props|
    ensures Classify(o.props[idx].info) == Unknown ==> r == []
    ensures Classify(o.props[idx].info) == Simple ==>
      |r| <= 1 && (r == [] <==> Skipped(o.props[idx]))
      && (r != [] ==> r == [RouteEntry(prefix + nf(o.props[idx].info, o.props[idx].info.attributes),
                                      tf(o.props[idx].info.propertyType, o.props[idx].value))])
    ensures Classify(o.props[idx].info) == Enumerable && o.props[idx].value.Null? ==> r == []
    decreases o, 0, 0
  {
    var p := o.props[idx];
    var name := prefix + nf(p.info, p.info.attributes);
    match Classify(p.info)
    case Simple => if Skipped(p) then [] else [RouteEntry(name, tf(p.info.propertyType, p.value))]
    case Enumerable => if p.value.Null? then [] else ElementsEmitted(p.value, |p.value.elements|, tf, nf, name)
    case Complex => Emitted(p.value, tf, nf, name + ".")
    case Unknown => []
  }

  /**
    A Complex property contributes the entries of its value under `name.`; a non-null
    Enumerable one those of its non-null elements, the `i`-th of them under `name[i].`.
   */
  lemma PropertyContributions(o: Value, idx: nat, tf: TypeFormatter, nf: NameFormatter, prefix: string)
    requires o.Obj? && idx < |o.props|
    ensures var p := o.props[idx];
      Classify(p.info) == Complex ==> PropEmitted(o, idx, tf, nf, prefix) == Emitted(p.value, tf, nf, prefix + nf(p.info, p.info.attributes) + ".")
    ensures var p := o.props[idx];
      Classify(p.info) == Enumerable && p.value.Obj? ==>
        PropEmitted(o, idx, tf, nf, prefix) == Indexed(NonNulls(p.value.elements), tf, nf, prefix + nf(p.info, p.info.attributes))
  {
    var p := o.props[idx];
    if Classify(p.info) == Enumerable && p.value.Obj? {
      ElementsIndexed(p.value, |p.value.elements|, tf, nf, prefix + nf(p.info, p.info.attributes));
      assert p.value.elements[..|p.value.elements|] == p.value.elements;
    }
  }

  /** The entries of the first `j` elements of the enumerable `v`; null elements take no index. */
  function ElementsEmitted(v: Value, j: nat, tf: TypeFormatter, nf: NameFormatter, name: string): seq<RouteEntry>
    requires v.Obj? && j <= |v.elements|
    decreases v, 1, j
  {
    if j == 0 then []
    else
      var sub := v.elements[j - 1];
      ElementsEmitted(v, j - 1, tf, nf, name)
      + (if sub.Null? then [] else Emitted(sub, tf, nf, ElementPrefix(name, |NonNulls(v.elements[..j - 1])|)))
  }

  // ---- The walk ----

  /**
    `Generate`: adds the entries of `o` under `prefix` to `dict`, creating the dictionary
    when none is given. A null object returns `dict` as it was. `duplicate` is the key
    whose `Add` threw; the dictionary then holds what was added before it.
   */
  method Generate(o: Value, tf: TypeFormatter, nf: NameFormatter, prefix: string, dict: RouteValueDictionary?)
    returns (r: RouteValueDictionary?, duplicate: Option<string>)
    requires dict != null ==> dict.Valid()
    modifies dict
    ensures o.Null? ==> r == dict && duplicate.None?
    ensures o.Obj? ==> r != null && (dict == null ==> fresh(r))
    ensures dict != null ==> r == dict
    ensures r != null ==> r.Valid()
    ensures r != null ==>
      Outcome(r.entries, duplicate) == AddAll(old(if dict == null then [] else dict.entries), Emitted(o, tf, nf, prefix))
    decreases o, 3
  {
    if o.Null? {
      return dict, None;
    }
    var d: RouteValueDictionary;
    if dict == null {
      d := new RouteValueDictionary();
    } else {
      d := dict;
    }
    duplicate := AddProperties(o, tf, nf, prefix, d);
    r := d;
  }

  /** The property loop of `Generate`, adding to a dictionary that exists. */
  method AddProperties(o: Value, tf: TypeFormatter, nf: NameFormatter, prefix: string, d: RouteValueDictionary)
    returns (duplicate: Option<string>)
    requires o.Obj? && d.Valid()
    modifies d
    ensures d.Valid()
    ensures Outcome(d.entries, duplicate) == AddAll(old(d.entries), Emitted(o, tf, nf, prefix))
    decreases o, 2
  {
    ghost var start := d.entries;
    var k := 0;
    while k < |o.props|
      invariant 0 <= k <= |o.props|
      invariant d.Valid()
      invariant Outcome(d.entries, None) == AddAll(start, PropsEmitted(o, k, tf, nf, prefix))
    {
      AddAllAppend(start, PropsEmitted(o, k, tf, nf, prefix), PropEmitted(o, k, tf, nf, prefix));
      var dup := AddProperty(o, k, tf, nf, prefix, d);
      if dup.Some? {
        PropsExtend(o, k + 1, |o.props|, tf, nf, prefix);
        FailureSticks(start, PropsEmitted(o, k + 1, tf, nf, prefix), PropsEmitted(o, |o.props|, tf, nf, prefix));
        return dup;
      }
      k := k + 1;
    }
    return None;
  }

  /** One iteration of the property loop of `Generate`: the entries of property `k` of `o`. */
  method AddProperty(o: Value, k: nat, tf: TypeFormatter, nf: NameFormatter, prefix: string, d: RouteValueDictionary)
    returns (duplicate: Option<string>)
    requires o.Obj? && k < |o.props| && d.Valid()
    modifies d
    ensures d.Valid()
    ensures Outcome(d.entries, duplicate) == AddAll(old(d.entries), PropEmitted(o, k, tf, nf, prefix))
    decreases o, 1
  {
    var p := o.props[k];
    var name := prefix + nf(p.info, p.info.attributes);
    var kind := Classify(p.info);
    duplicate := None;
    if kind == Simple {
      if !Skipped(p) {
        var ok := d.Add(name, tf(p.info.propertyType, p.value));
        if !ok {
          duplicate := Some(name);
        }
      }
    } else if kind == Enumerable {
      if p.value.Obj? {
        var listKind := if IsEnum(p.info.propertyType) || IsConvertible(p.info.propertyType) then Simple else Unknown;
        if listKind == Simple {
          // an Enumerable property's declared type is neither an enum nor convertible (with cache keys that never collide)
          assert false;
        }
        duplicate := AddElements(p.value, tf, nf, name, d);
      }
    } else if kind == Complex {
      var _, dup := Generate(p.value, tf, nf, name + ".", d);
      duplicate := dup;
    }
  }

  /** The element loop of `Generate`: each non-null element under `name[i].`, `i` counting them. */
  method AddElements(v: Value, tf: TypeFormatter, nf: NameFormatter, name: string, d: RouteValueDictionary)
    returns (duplicate: Option<string>)
    requires v.Obj? && d.Valid()
    modifies d
    ensures d.Valid()
    ensures Outcome(d.entries, duplicate) == AddAll(old(d.entries), ElementsEmitted(v, |v.elements|, tf, nf, name))
    decreases v, 0
  {
    ghost var start := d.entries;
    var elems := v.elements;
    var i := 0;
    var j := 0;
    while j < |elems|
      invariant 0 <= j <= |elems|
      invariant i == |NonNulls(elems[..j])|
      invariant d.Valid()
      invariant Outcome(d.entries, None) == AddAll(start, ElementsEmitted(v, j, tf, nf, name))
    {
      var sub := elems[j];
      ElementsStep(v, j, tf, nf, name);
      if sub.Obj? {
        AddAllAppend(start, ElementsEmitted(v, j, tf, nf, name), Emitted(sub, tf, nf, ElementPrefix(name, i)));
        var _, dup := Generate(sub, tf, nf, ElementPrefix(name, i), d);
        if dup.Some? {
          ElementsExtend(v, j + 1, |elems|, tf, nf, name);
          FailureSticks(start, ElementsEmitted(v, j + 1, tf, nf, name), ElementsEmitted(v, |elems|, tf, nf, name));
          return dup;
        }
        i := i + 1;
      } else {
        assert ElementsEmitted(v, j + 1, tf, nf, name) == ElementsEmitted(v, j, tf, nf, name);
      }
      j := j + 1;
    }
    return None;
  }

  /** One more element: its entries, if it is not null, under the next free index. */
  lemma ElementsStep(v: Value, j: nat, tf: TypeFormatter, nf: NameFormatter, name: string)
    requires v.Obj? && j < |v.elements|
    ensures ElementsEmitted(v, j + 1, tf, nf, name) == ElementsEmitted(v, j, tf, nf, name)
      + (if v.elements[j].Null? then [] else Emitted(v.elements[j], tf, nf, ElementPrefix(name, |NonNulls(v.elements[..j])|)))
    ensures |NonNulls(v.elements[..j + 1])| == |NonNulls(v.elements[..j])| + (if v.elements[j].Null? then 0 else 1)
  {
    assert v.elements[..j + 1][..j] == v.elements[..j];
  }

  lemma {:induction false} PropsExtend(o: Value, k: nat, m: nat, tf: TypeFormatter, nf: NameFormatter, prefix: string)
    requires o.Obj? && k <= m <= |o.props|
    ensures PropsEmitted(o, k, tf, nf, prefix) <= PropsEmitted(o, m, tf, nf, prefix)
    decreases m
  {
    if k < m {
      PropsExtend(o, k, m - 1, tf, nf, prefix);
    }
  }

  lemma {:induction false} ElementsExtend(v: Value, j: nat, m: nat, tf: TypeFormatter, nf: NameFormatter, name: string)
    requires v.Obj? && j <= m <= |v.elements|
    ensures ElementsEmitted(v, j, tf, nf, name) <= ElementsEmitted(v, m, tf, nf, name)
    decreases m
  {
    if j < m {
      ElementsExtend(v, j, m - 1, tf, nf, name);
    }
  }

  // ---- Properties of the entries a walk adds ----

  /** Every key is under `pre`. */
  predicate AllUnder(es: seq<RouteEntry>, pre: string) {
    forall i | 0 <= i < |es| :: pre <= es[i].key
  }

  lemma UnderAppend(a: seq<RouteEntry>, b: seq<RouteEntry>, pre: string)
    requires AllUnder(a, pre) && AllUnder(b, pre)
    ensures AllUnder(a + b, pre)
  {
    forall i | 0 <= i < |a + b|
      ensures pre <= (a + b)[i].key
    {
      if i < |a| { assert (a + b)[i] == a[i]; } else { assert (a + b)[i] == b[i - |a|]; }
    }
  }

  lemma UnderWeaken(es: seq<RouteEntry>, short: string, long: string)
    requires short <= long && AllUnder(es, long)
    ensures AllUnder(es, short)
  {
    forall i | 0 <= i < |es|
      ensures short <= es[i].key
    {
      assert es[i].key[..|long|] == long;
      assert es[i].key[..|short|] == long[..|short|];
    }
  }

  /** Every key a walk under `prefix` adds begins with `prefix`. */
  lemma {:induction false} EmittedUnder(o: Value, tf: TypeFormatter, nf: NameFormatter, prefix: string)
    ensures AllUnder(Emitted(o, tf, nf, prefix), prefix)
    decreases o, 2, 0
  {
    if o.Obj? {
      PropsUnder(o, |o.props|, tf, nf, prefix);
    }
  }

  lemma {:induction false} PropsUnder(o: Value, k: nat, tf: TypeFormatter, nf: NameFormatter, prefix: string)
    requires o.Obj? && k <= |o.props|
    ensures AllUnder(PropsEmitted(o, k, tf, nf, prefix), prefix)
    decreases o, 1, k
  {
    if k > 0 {
      PropsUnder(o, k - 1, tf, nf, prefix);
      PropUnder(o, k - 1, tf, nf, prefix);
      UnderAppend(PropsEmitted(o, k - 1, tf, nf, prefix), PropEmitted(o, k - 1, tf, nf, prefix), prefix);
    }
  }

  lemma {:induction false} PropUnder(o: Value, idx: nat, tf: TypeFormatter, nf: NameFormatter, prefix: string)
    requires o.Obj? && idx < |o.props|
    ensures AllUnder(PropEmitted(o, idx, tf, nf, prefix), prefix)
    decreases o, 0, 0
  {
    var p := o.props[idx];
    var name := prefix + nf(p.info, p.info.attributes);
    match Classify(p.info)
    case Simple =>
    case Enumerable =>
      if p.value.Obj? {
        ElementsUnder(p.value, |p.value.elements|, tf, nf, name);
        UnderWeaken(PropEmitted(o, idx, tf, nf, prefix), prefix, name);
      }
    case Complex =>
      EmittedUnder(p.value, tf, nf, name + ".");
      assert prefix <= name + ".";
      UnderWeaken(PropEmitted(o, idx, tf, nf, prefix), prefix, name + ".");
    case Unknown =>
  }

  lemma {:induction false} ElementsUnder(v: Value, j: nat, tf: TypeFormatter, nf: NameFormatter, name: string)
    requires v.Obj? && j <= |v.elements|
    ensures AllUnder(ElementsEmitted(v, j, tf, nf, name), name)
    decreases v, 1, j
  {
    if j > 0 {
      ElementsUnder(v, j - 1, tf, nf, name);
      var sub := v.elements[j - 1];
      if sub.Obj? {
        var ep := ElementPrefix(name, |NonNulls(v.elements[..j - 1])|);
        EmittedUnder(sub, tf, nf, ep);
        UnderWeaken(Emitted(sub, tf, nf, ep), name, ep);
        UnderAppend(ElementsEmitted(v, j - 1, tf, nf, name), Emitted(sub, tf, nf, ep), name);
      } else {
        assert ElementsEmitted(v, j, tf, nf, name) == ElementsEmitted(v, j - 1, tf, nf, name);
      }
    }
  }

  /** `es` with `p` put in front of every key. */
  function Prepend(p: string, es: seq<RouteEntry>): (r: seq<RouteEntry>)
    ensures |r| == |es|
    ensures forall i | 0 <= i < |es| :: r[i].key == p + es[i].key && r[i].value == es[i].value
  {
    seq(|es|, i requires 0 <= i < |es| => RouteEntry(p + es[i].key, es[i].value))
  }

  lemma PrependAppend(p: string, a: seq<RouteEntry>, b: seq<RouteEntry>)
    ensures Prepend(p, a + b) == Prepend(p, a) + Prepend(p, b)
  {
  }

  /**
    A walk under `p + q` adds the keys of the walk under `q`, each with `p` in front:
    the prefix is prepended once and plays no other part.
   */
  lemma {:induction false} EmittedShift(o: Value, tf: TypeFormatter, nf: NameFormatter, p: string, q: string)
    ensures Emitted(o, tf, nf, p + q) == Prepend(p, Emitted(o, tf, nf, q))
    decreases o, 2, 0
  {
    if o.Obj? {
      PropsShift(o, |o.props|, tf, nf, p, q);
    }
  }

  lemma {:induction false} PropsShift(o: Value, k: nat, tf: TypeFormatter, nf: NameFormatter, p: string, q: string)
    requires o.Obj? && k <= |o.props|
    ensures PropsEmitted(o, k, tf, nf, p + q) == Prepend(p, PropsEmitted(o, k, tf, nf, q))
    decreases o, 1, k
  {
    if k > 0 {
      PropsShift(o, k - 1, tf, nf, p, q);
      PropShift(o, k - 1, tf, nf, p, q);
      PrependAppend(p, PropsEmitted(o, k - 1, tf, nf, q), PropEmitted(o, k - 1, tf, nf, q));
    }
  }

  lemma {:induction false} PropShift(o: Value, idx: nat, tf: TypeFormatter, nf: NameFormatter, p: string, q: string)
    requires o.Obj? && idx < |o.props|
    ensures PropEmitted(o, idx, tf, nf, p + q) == Prepend(p, PropEmitted(o, idx, tf, nf, q))
    decreases o, 0, 0
  {
    var pr := o.props[idx];
    var n := nf(pr.info, pr.info.attributes);
    assert (p + q) + n == p + (q + n);
    match Classify(pr.info)
    case Simple =>
    case Enumerable =>
      if pr.value.Obj? {
        ElementsShift(pr.value, |pr.value.elements|, tf, nf, p, q + n);
      }
    case Complex =>
      assert (p + q) + n + "." == p + (q + n + ".");
      EmittedShift(pr.value, tf, nf, p, q + n + ".");
    case Unknown =>
  }

  lemma {:induction false} ElementsShift(v: Value, j: nat, tf: TypeFormatter, nf: NameFormatter, p: string, name: string)
    requires v.Obj? && j <= |v.elements|
    ensures ElementsEmitted(v, j, tf, nf, p + name) == Prepend(p, ElementsEmitted(v, j, tf, nf, name))
    decreases v, 1, j
  {
    if j > 0 {
      ElementsShift(v, j - 1, tf, nf, p, name);
      var sub := v.elements[j - 1];
      if sub.Obj? {
        var i := |NonNulls(v.elements[..j - 1])|;
        assert ElementPrefix(p + name, i) == p + ElementPrefix(name, i);
        EmittedShift(sub, tf, nf, p, ElementPrefix(name, i));
        PrependAppend(p, ElementsEmitted(v, j - 1, tf, nf, name), Emitted(sub, tf, nf, ElementPrefix(name, i)));
      } else {
        assert ElementsEmitted(v, j, tf, nf, name) == ElementsEmitted(v, j - 1, tf, nf, name);
        assert ElementsEmitted(v, j, tf, nf, p + name) == ElementsEmitted(v, j - 1, tf, nf, p + name);
      }
    }
  }

  /** The reference reading of an enumerable: element `i` of `ys` under `name[i].`. */
  function Indexed(ys: seq<Value>, tf: TypeFormatter, nf: NameFormatter, name: string): seq<RouteEntry>
    decreases |ys|
  {
    if ys == [] then []
    else Indexed(ys[..|ys| - 1], tf, nf, name) + Emitted(ys[|ys| - 1], tf, nf, ElementPrefix(name, |ys| - 1))
  }

  lemma IndexedSnoc(ys: seq<Value>, sub: Value, tf: TypeFormatter, nf: NameFormatter, name: string)
    ensures Indexed(ys + [sub], tf, nf, name) == Indexed(ys, tf, nf, name) + Emitted(sub, tf, nf, ElementPrefix(name, |ys|))
  {
    assert (ys + [sub])[..|ys|] == ys;
  }

  lemma NonNullsSnoc(xs: seq<Value>, j: nat)
    requires 0 < j <= |xs|
    ensures xs[j - 1].Null? ==> NonNulls(xs[..j]) == NonNulls(xs[..j - 1])
    ensures xs[j - 1].Obj? ==> NonNulls(xs[..j]) == NonNulls(xs[..j - 1]) + [xs[j - 1]]
  {
    assert xs[..j][..j - 1] == xs[..j - 1];
  }

  /**
    The element loop numbers the non-null elements 0, 1, 2, ... in order: it adds what
    the reference reading adds for the elements with the nulls removed.
   */
  lemma {:induction false} ElementsIndexed(v: Value, j: nat, tf: TypeFormatter, nf: NameFormatter, name: string)
    requires v.Obj? && j <= |v.elements|
    ensures ElementsEmitted(v, j, tf, nf, name) == Indexed(NonNulls(v.elements[..j]), tf, nf, name)
  {
    if j > 0 {
      ElementsIndexed(v, j - 1, tf, nf, name);
      NonNullsSnoc(v.elements, j);
      var sub := v.elements[j - 1];
      if sub.Obj? {
        IndexedSnoc(NonNulls(v.elements[..j - 1]), sub, tf, nf, name);
      } else {
        assert ElementsEmitted(v, j, tf, nf, name) == ElementsEmitted(v, j - 1, tf, nf, name);
      }
    }
  }
}
