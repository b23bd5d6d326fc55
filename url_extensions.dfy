/**
  The URL extensions of SchoStack.AspNetCore.ModelUrls: binding the query string into a
  model, applying modifiers to it, and merging its generated route values with the
  ambient ones for a route named after the model's type.
 */
module UrlExtensions {
  import opened Wrappers
  import opened Text
  import opened Clr
  import opened RouteValues
  import TypedRouting

  // ---- The route-value merge ----

  /** The filter applied to an ambient route value: not "action", not "controller", not already generated. */
  predicate Carried(generated: seq<RouteEntry>, e: RouteEntry) {
    e.key != "action" && e.key != "controller" && !KeyIn(generated, e.key)
  }

  /** The ambient route values that survive the filter, in their own order. */
  function AmbientKept(generated: seq<RouteEntry>, ambient: seq<RouteEntry>): (r: seq<RouteEntry>)
    ensures forall e :: e in r <==> e in ambient && Carried(generated, e)
    ensures |r| <= |ambient|
  {
    if |ambient| == 0 then []
    else (if Carried(generated, ambient[0]) then [ambient[0]] else []) + AmbientKept(generated, ambient[1..])
  }

  /** `dict.Concat(RouteData.Values.Where(...))`: the values handed to `RouteUrl`. */
  function MergedRouteValues(generated: seq<RouteEntry>, ambient: seq<RouteEntry>): (r: seq<RouteEntry>)
    ensures |r| >= |generated| && r[..|generated|] == generated
    ensures forall e :: e in r[|generated|..] <==> e in ambient && Carried(generated, e)
  {
    generated + AmbientKept(generated, ambient)
  }

  /** The value a case-insensitive dictionary built from `es` holds for `key`. */
  function Lookup(es: seq<RouteEntry>, key: string): (r: Option<Value>)
    ensures r.None? <==> !KeyIn(es, key)
    ensures r.Some? ==> exists i | 0 <= i < |es| :: SameKey(es[i].key, key) && es[i].value == r.value
  {
    if |es| == 0 then None
    else if SameKey(es[0].key, key) then Some(es[0].value)
    else
      var r := Lookup(es[1..], key);
      assert r.Some? ==> exists i | 0 <= i < |es[1..]| :: SameKey(es[1..][i].key, key) && es[1..][i].value == r.value;
      assert KeyIn(es, key) ==> KeyIn(es[1..], key) by {
        if KeyIn(es, key) {
          var i :| 0 <= i < |es| && SameKey(es[i].key, key);
          assert es[1..][i - 1] == es[i];
        }
      }
      r
  }

  /** Looking a key up in `a + b` finds it in `a` first. */
  lemma {:induction false} LookupAppend(a: seq<RouteEntry>, b: seq<RouteEntry>, key: string)
    ensures Lookup(a + b, key) == if KeyIn(a, key) then Lookup(a, key) else Lookup(b, key)
  {
    if |a| > 0 {
      assert (a + b)[1..] == a[1..] + b;
      LookupAppend(a[1..], b, key);
      if !SameKey(a[0].key, key) && KeyIn(a, key) {
        var i :| 0 <= i < |a| && SameKey(a[i].key, key);
        assert a[1..][i - 1] == a[i];
      }
    } else {
      assert a + b == b;
    }
  }

  /** Ambient entries whose key is neither "action" nor "controller", in order. */
  function NotActionOrController(ambient: seq<RouteEntry>): (r: seq<RouteEntry>)
    ensures forall e :: e in r <==> e in ambient && e.key != "action" && e.key != "controller"
  {
    if |ambient| == 0 then []
    else
      (if ambient[0].key != "action" && ambient[0].key != "controller" then [ambient[0]] else [])
      + NotActionOrController(ambient[1..])
  }

  /** Dropping entries whose key is already generated does not change a lookup of a key not generated. */
  lemma {:induction false} KeptLookup(generated: seq<RouteEntry>, ambient: seq<RouteEntry>, key: string)
    requires !KeyIn(generated, key)
    ensures Lookup(AmbientKept(generated, ambient), key) == Lookup(NotActionOrController(ambient), key)
  {
    if |ambient| > 0 {
      KeptLookup(generated, ambient[1..], key);
      var e := ambient[0];
      var kept := if Carried(generated, e) then [e] else [];
      var named := if e.key != "action" && e.key != "controller" then [e] else [];
      LookupAppend(kept, AmbientKept(generated, ambient[1..]), key);
      LookupAppend(named, NotActionOrController(ambient[1..]), key);
    }
  }

  /**
    A generated value wins over an ambient one with the same key; any other key resolves to
    its ambient value unless that value is filed under "action" or "controller".
   */
  lemma MergedLookup(generated: seq<RouteEntry>, ambient: seq<RouteEntry>, key: string)
    ensures KeyIn(generated, key) ==> Lookup(MergedRouteValues(generated, ambient), key) == Lookup(generated, key)
    ensures !KeyIn(generated, key) ==>
      Lookup(MergedRouteValues(generated, ambient), key) == Lookup(NotActionOrController(ambient), key)
  {
    LookupAppend(generated, AmbientKept(generated, ambient), key);
    if !KeyIn(generated, key) {
      KeptLookup(generated, ambient, key);
    }
  }

  /** Filtering keeps distinct keys distinct. */
  lemma {:induction false} KeptDistinct(generated: seq<RouteEntry>, ambient: seq<RouteEntry>)
    requires DistinctKeys(ambient)
    ensures DistinctKeys(AmbientKept(generated, ambient))
  {
    if |ambient| > 0 {
      assert DistinctKeys(ambient[1..]) by {
        forall i, j | 0 <= i < j < |ambient[1..]|
          ensures !SameKey(ambient[1..][i].key, ambient[1..][j].key)
        {
          assert ambient[1..][i] == ambient[i + 1] && ambient[1..][j] == ambient[j + 1];
        }
      }
      KeptDistinct(generated, ambient[1..]);
      var rest := AmbientKept(generated, ambient[1..]);
      forall e | e in rest
        ensures !SameKey(ambient[0].key, e.key)
      {
        var j :| 0 < j < |ambient| && ambient[j] == e;
      }
    }
  }

  /**
    The merged values never repeat a key when the generated and the ambient dictionaries
    do not, so building the `RouteValueDictionary` handed to `RouteUrl` cannot throw.
   */
  lemma MergedDistinct(generated: seq<RouteEntry>, ambient: seq<RouteEntry>)
    requires DistinctKeys(generated) && DistinctKeys(ambient)
    ensures DistinctKeys(MergedRouteValues(generated, ambient))
  {
    var kept := AmbientKept(generated, ambient);
    KeptDistinct(generated, ambient);
    var r := generated + kept;
    forall i, j | 0 <= i < j < |r|
      ensures !SameKey(r[i].key, r[j].key)
    {
      if i < |generated| && j >= |generated| {
        assert r[j] in kept;
        assert r[i] == generated[i];
      }
    }
  }

  // ---- BindModelFor and the For overloads ----

  /** The model object the extensions bind and modify in place, with its runtime type. */
  class Model<M> {
    var state: M
    const runtimeType: ClrType

    constructor (state: M, runtimeType: ClrType)
      ensures this.state == state && this.runtimeType == runtimeType
    {
      this.state := state;
      this.runtimeType := runtimeType;
    }
  }

  /**
    What a URL helper supplies: the ambient route values of the current request, the
    query-string model binding (`TryUpdateModelAsync` over the query), and the route-value
    generator configured by the action conventions.
   */
  datatype UrlHelper<!M> = UrlHelper(ambient: seq<RouteEntry>, bindQuery: M -> M, generate: M -> seq<RouteEntry>)

  /** The modifiers applied in the order given. */
  function Modified<M>(modifiers: seq<M -> M>, m: M): M
  {
    if |modifiers| == 0 then m else Modified(modifiers[1..], modifiers[0](m))
  }

  /** Running `a` and then `b` is running `a + b`: modifiers compose in order. */
  lemma {:induction false} ModifiedAppend<M>(a: seq<M -> M>, b: seq<M -> M>, m: M)
    ensures Modified(a + b, m) == Modified(b, Modified(a, m))
  {
    if |a| > 0 {
      assert (a + b)[1..] == a[1..] + b;
      ModifiedAppend(a[1..], b, a[0](m));
    } else {
      assert a + b == b;
    }
  }

  /** The state `BindModelFor` leaves: query-string binding first, when asked for, then the modifiers. */
  function Bound<M>(url: UrlHelper<M>, m: M, bindExistingQueryString: bool, modifiers: seq<M -> M>): M {
    Modified(modifiers, if bindExistingQueryString then url.bindQuery(m) else m)
  }

  /** Without binding and without modifiers the model is left as it is. */
  lemma BoundNothing<M>(url: UrlHelper<M>, m: M)
    ensures Bound(url, m, false, []) == m
  {
  }

  /** `BindModelFor(model, bindExistingQueryString, modifiers)`. */
  method BindModelFor<M>(url: UrlHelper<M>, model: Model<M>, bindExistingQueryString: bool, modifiers: seq<M -> M>)
    returns (r: Model<M>)
    modifies model
    ensures r == model
    ensures model.state == Bound(url, old(model.state), bindExistingQueryString, modifiers)
  {
    if bindExistingQueryString {
      model.state := url.bindQuery(model.state);
    }
    ghost var start := model.state;
    for i := 0 to |modifiers|
      invariant model.state == Modified(modifiers[..i], start)
    {
      ModifiedAppend(modifiers[..i], [modifiers[i]], start);
      assert modifiers[..i + 1] == modifiers[..i] + [modifiers[i]];
      model.state := modifiers[i](model.state);
    }
    assert modifiers[..|modifiers|] == modifiers;
    r := model;
  }

  /** The arguments of the `RouteUrl(routeName, values)` call the URL is produced by. */
  datatype RouteUrlCall = RouteUrlCall(routeName: string, values: seq<RouteEntry>)

  /** `ForAsync(model, bindExistingQueryString, modifiers)`. */
  method ForAsync<M>(url: UrlHelper<M>, model: Model<M>, bindExistingQueryString: bool, modifiers: seq<M -> M>)
    returns (call: RouteUrlCall)
    modifies model
    ensures model.state == Bound(url, old(model.state), bindExistingQueryString, modifiers)
    ensures call == RouteUrlCall(TypeName(model.runtimeType), MergedRouteValues(url.generate(model.state), url.ambient))
  {
    var _ := BindModelFor(url, model, bindExistingQueryString, modifiers);
    var dict := url.generate(model.state);
    var dict2 := MergedRouteValues(dict, url.ambient);
    call := RouteUrlCall(TypeName(model.runtimeType), dict2);
  }

  /** `For(obj)`: no query-string binding, no modifiers. */
  method For<M>(url: UrlHelper<M>, model: Model<M>) returns (call: RouteUrlCall)
    modifies model
    ensures model.state == old(model.state)
    ensures call == RouteUrlCall(TypeName(model.runtimeType), MergedRouteValues(url.generate(model.state), url.ambient))
  {
    call := ForAsync(url, model, false, []);
  }

  /** `For<T>()`: a new `T`, not bound. */
  method ForNew<M>(url: UrlHelper<M>, initial: M, t: ClrType) returns (call: RouteUrlCall)
    ensures call == RouteUrlCall(TypeName(t), MergedRouteValues(url.generate(initial), url.ambient))
  {
    var model := new Model(initial, t);
    call := For(url, model);
  }

  /** `For<T>(modifiers)` and `ForAsync<T>(modifiers)`: a new `T`, bound from the query string, then modified. */
  method ForModifiers<M>(url: UrlHelper<M>, initial: M, t: ClrType, modifiers: seq<M -> M>) returns (call: RouteUrlCall)
    ensures call == RouteUrlCall(TypeName(t),
      MergedRouteValues(url.generate(Modified(modifiers, url.bindQuery(initial))), url.ambient))
  {
    var model := new Model(initial, t);
    call := ForAsync(url, model, true, modifiers);
  }

  /** `BindModelFor<T>(modifiers)`: a new `T`, bound from the query string, then modified. */
  method BindModelForNew<M>(url: UrlHelper<M>, initial: M, t: ClrType, modifiers: seq<M -> M>) returns (r: Model<M>)
    ensures fresh(r) && r.runtimeType == t
    ensures r.state == Modified(modifiers, url.bindQuery(initial))
  {
    var model := new Model(initial, t);
    r := BindModelFor(url, model, true, modifiers);
  }

  /**
    The name typed routing gives an action's route is the name URL generation asks for,
    for a model whose runtime type is the action's first parameter type.
   */
  lemma RouteNamesAgree<M>(a: TypedRouting.ActionModel, model: Model<M>)
    requires TypedRouting.Target(a).Some? && model.runtimeType == a.parameterTypes[0]
    ensures TypedRouting.Target(a).value.name == TypeName(model.runtimeType)
  {
  }
}
