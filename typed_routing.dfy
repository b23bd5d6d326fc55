/**
  The typed-routing application-model convention: every action that has an attribute
  route and takes a class (other than string) as its first parameter gets its first
  attribute route named after that parameter's type.
 */
module TypedRouting {
  import opened Wrappers
  import opened Clr

  /** An `AttributeRouteModel`, whose `Name` the convention assigns in place. */
  class AttributeRouteModel {
    var name: Option<string>

    constructor (name: Option<string>)
      ensures this.name == name
    {
      this.name := name;
    }
  }

  /** A `SelectorModel`, reduced to its attribute route (null when conventionally routed). */
  datatype Selector = Selector(attributeRouteModel: AttributeRouteModel?)

  /** An `ActionModel`: its selectors and the declared types of its parameters, in order. */
  datatype ActionModel = ActionModel(selectors: seq<Selector>, parameterTypes: seq<ClrType>)

  datatype ControllerModel = ControllerModel(actions: seq<ActionModel>)

  /** `Selectors.Where(x => x.AttributeRouteModel != null).Select(...).FirstOrDefault()`. */
  function FirstRoute(ss: seq<Selector>): (r: AttributeRouteModel?)
    ensures r == null <==> forall i | 0 <= i < |ss| :: ss[i].attributeRouteModel == null
    ensures r != null ==> exists i | 0 <= i < |ss| ::
      ss[i].attributeRouteModel == r && forall j | 0 <= j < i :: ss[j].attributeRouteModel == null
  {
    if |ss| == 0 then null
    else if ss[0].attributeRouteModel != null then ss[0].attributeRouteModel
    else
      var r := FirstRoute(ss[1..]);
      assert r != null ==> exists i | 0 <= i < |ss[1..]| ::
        ss[1..][i].attributeRouteModel == r && forall j | 0 <= j < i :: ss[1..][j].attributeRouteModel == null;
      assert r != null ==> exists i | 1 <= i < |ss| ::
        ss[i].attributeRouteModel == r && forall j | 0 <= j < i :: ss[j].attributeRouteModel == null;
      r
  }

  /** The name the convention gives to one route. */
  datatype Assignment = Assignment(route: AttributeRouteModel, name: string)

  /** What the convention does to one action, if anything. */
  function Target(a: ActionModel): (r: Option<Assignment>)
    ensures (forall i | 0 <= i < |a.selectors| :: a.selectors[i].attributeRouteModel == null) ==> r.None?
    ensures |a.parameterTypes| == 0 ==> r.None?
    ensures |a.parameterTypes| > 0 && (!IsClass(a.parameterTypes[0]) || a.parameterTypes[0] == Builtin(String)) ==> r.None?
    ensures r.Some? ==> r.value.route == FirstRoute(a.selectors) && r.value.name == TypeName(a.parameterTypes[0])
    ensures r.None? && |a.parameterTypes| > 0 && IsClass(a.parameterTypes[0]) && a.parameterTypes[0] != Builtin(String) ==>
      FirstRoute(a.selectors) == null
  {
    var route := FirstRoute(a.selectors);
    if route != null && |a.parameterTypes| > 0 && IsClass(a.parameterTypes[0]) && a.parameterTypes[0] != Builtin(String)
    then Some(Assignment(route, TypeName(a.parameterTypes[0])))
    else None
  }

  /** Every controller's actions, in order. */
  function Flatten(cs: seq<ControllerModel>): (r: seq<ActionModel>)
    ensures forall i | 0 <= i < |cs| :: forall a | a in cs[i].actions :: a in r
  {
    if |cs| == 0 then [] else Flatten(cs[..|cs| - 1]) + cs[|cs| - 1].actions
  }

  /** The routes the convention may rename. */
  ghost function Routes(cs: seq<ControllerModel>): set<AttributeRouteModel> {
    set a | a in Flatten(cs) && Target(a).Some? :: Target(a).value.route
  }

  predicate Names(a: ActionModel, r: AttributeRouteModel) {
    Target(a).Some? && Target(a).value.route == r
  }

  /** The name `r` holds after the actions `xs` are visited in order, starting from `prior`. */
  function NameAfter(xs: seq<ActionModel>, r: AttributeRouteModel, prior: Option<string>): (n: Option<string>)
    ensures (forall k | 0 <= k < |xs| :: !Names(xs[k], r)) ==> n == prior
    ensures n != prior ==> exists k | 0 <= k < |xs| :: Names(xs[k], r) && n == Some(Target(xs[k]).value.name)
  {
    if |xs| == 0 then prior
    else
      var last := xs[|xs| - 1];
      if Names(last, r) then Some(Target(last).value.name) else NameAfter(xs[..|xs| - 1], r, prior)
  }

  /** Once some action names `r`, the outcome no longer depends on what `r` held before. */
  lemma {:induction false} NameAfterForgetsPrior(xs: seq<ActionModel>, r: AttributeRouteModel, p: Option<string>, q: Option<string>)
    requires exists k | 0 <= k < |xs| :: Names(xs[k], r)
    ensures NameAfter(xs, r, p) == NameAfter(xs, r, q)
  {
    var last := xs[|xs| - 1];
    if !Names(last, r) {
      var k :| 0 <= k < |xs| && Names(xs[k], r);
      assert xs[..|xs| - 1][k] == xs[k];
      NameAfterForgetsPrior(xs[..|xs| - 1], r, p, q);
    }
  }

  /** Applying the convention a second time leaves every name as the first application left it. */
  lemma ApplyIdempotent(xs: seq<ActionModel>, r: AttributeRouteModel, p: Option<string>)
    ensures NameAfter(xs, r, NameAfter(xs, r, p)) == NameAfter(xs, r, p)
  {
    if exists k | 0 <= k < |xs| :: Names(xs[k], r) {
      NameAfterForgetsPrior(xs, r, NameAfter(xs, r, p), p);
    }
  }

  /** Visiting `xs` and then `ys` is visiting `xs + ys`. */
  lemma {:induction false} NameAfterAppend(xs: seq<ActionModel>, ys: seq<ActionModel>, r: AttributeRouteModel, p: Option<string>)
    ensures NameAfter(xs + ys, r, p) == NameAfter(ys, r, NameAfter(xs, r, p))
    decreases |ys|
  {
    if |ys| > 0 {
      assert (xs + ys)[..|xs + ys| - 1] == xs + ys[..|ys| - 1];
      NameAfterAppend(xs, ys[..|ys| - 1], r, p);
    } else {
      assert xs + ys == xs;
    }
  }

  lemma NameAfterStep(actions: seq<ActionModel>, j: nat)
    requires j < |actions|
    ensures forall r, p ::
      NameAfter(actions[..j + 1], r, p)
      == (if Names(actions[j], r) then Some(Target(actions[j]).value.name) else NameAfter(actions[..j], r, p))
  {
    var xs := actions[..j + 1];
    assert xs[..|xs| - 1] == actions[..j] && xs[|xs| - 1] == actions[j];
    forall r, p
      ensures NameAfter(xs, r, p)
        == (if Names(actions[j], r) then Some(Target(actions[j]).value.name) else NameAfter(actions[..j], r, p))
    {
    }
  }

  /** The inner loop over one controller's actions. */
  method ApplyToActions(actions: seq<ActionModel>, ghost routes: set<AttributeRouteModel>)
    requires forall a | a in actions && Target(a).Some? :: Target(a).value.route in routes
    modifies routes
    ensures forall r | r in routes && old(allocated(r)) :: r.name == NameAfter(actions, r, old(r.name))
  {
    var j := 0;
    while j < |actions|
      invariant 0 <= j <= |actions|
      invariant forall r | r in routes && old(allocated(r)) :: r.name == NameAfter(actions[..j], r, old(r.name))
    {
      var a := actions[j];
      var route := FirstRoute(a.selectors);
      NameAfterStep(actions, j);
      if route != null && |a.parameterTypes| > 0 && IsClass(a.parameterTypes[0]) && a.parameterTypes[0] != Builtin(String) {
        assert a in actions;
        route.name := Some(TypeName(a.parameterTypes[0]));
      }
      j := j + 1;
    }
    assert actions[..j] == actions;
  }

  /** `Apply`: the nested loops over controllers and actions, renaming routes in place. */
  method Apply(application: seq<ControllerModel>)
    modifies Routes(application)
    ensures forall r | r in Routes(application) && old(allocated(r)) ::
      r.name == NameAfter(Flatten(application), r, old(r.name))
  {
    var i := 0;
    while i < |application|
      invariant 0 <= i <= |application|
      invariant forall r | r in Routes(application) && old(allocated(r)) ::
        r.name == NameAfter(Flatten(application[..i]), r, old(r.name))
    {
      ApplyToActions(application[i].actions, Routes(application));
      assert application[..i + 1][..i] == application[..i];
      forall r | r in Routes(application) && old(allocated(r))
        ensures NameAfter(Flatten(application[..i + 1]), r, old(r.name))
          == NameAfter(application[i].actions, r, NameAfter(Flatten(application[..i]), r, old(r.name)))
      {
        NameAfterAppend(Flatten(application[..i]), application[i].actions, r, old(r.name));
      }
      i := i + 1;
    }
    assert application[..i] == application;
  }
}
