/**
  The FluentValidation validator search: the validators registered for the last member of a
  property path, found by descending through child validators along the path.
 */
module FluentValidatorFinder {
  import opened Wrappers
  import opened Clr

  /**
    The property validators the model distinguishes. `message` is what the message
    formatter builds for it (null when it builds none).
   */
  datatype PropertyValidator =
    | LengthValidator(max: int, message: Option<string>)
    | NotEmptyValidator(message: Option<string>)
    | NotNullValidator(message: Option<string>)
    | CreditCardValidator(message: Option<string>)
    | EqualValidator(memberToCompare: Option<string>, message: Option<string>)
    | RegularExpressionValidator(expression: string, message: Option<string>)
    | EmailValidator(message: Option<string>)
    | ChildValidatorAdaptor(validatorType: ClrType)
    | ChildCollectionValidatorAdaptor(childValidatorType: ClrType)
    | DelegatingValidator(inner: PropertyValidator)
    | OtherValidator(validatorName: string)

  /** A validator's descriptor: the validators and display name of each member. */
  datatype Descriptor = Descriptor(members: map<string, seq<PropertyValidator>>, displayNames: map<string, string>)

  /** `GetValidatorsForMember`: none for a member without rules. */
  function ValidatorsFor(d: Descriptor, member: string): (r: seq<PropertyValidator>)
    ensures member !in d.members ==> r == []
    ensures member in d.members ==> r == d.members[member]
  {
    if member in d.members then d.members[member] else []
  }

  /** `GetName`. */
  function DisplayName(d: Descriptor, member: string): (r: Option<string>)
    ensures r.Some? <==> member in d.displayNames
    ensures r.Some? ==> r.value == d.displayNames[member]
  {
    if member in d.displayNames then Some(d.displayNames[member]) else None
  }

  /** `PropertyValidatorResult`. */
  datatype ValidatorResult = ValidatorResult(propertyValidator: PropertyValidator, displayName: Option<string>)

  /** The service resolver: the validator registered for a model type, if any. */
  type Resolver = ClrType -> Option<Descriptor>

  /**
    `GetValidator(inlineval, null)`: the validator a property validator hands on to the
    next path member. Child adaptors resolve their type; a delegating validator is followed
    to its inner validator; anything else hands on nothing.
   */
  function ChildOf(v: PropertyValidator, resolve: Resolver): (r: Option<Descriptor>)
    ensures v.ChildValidatorAdaptor? ==> r == resolve(v.validatorType)
    ensures v.ChildCollectionValidatorAdaptor? ==> r == resolve(v.childValidatorType)
    ensures !v.ChildValidatorAdaptor? && !v.ChildCollectionValidatorAdaptor? && !v.DelegatingValidator? ==> r.None?
  {
    match v
    case ChildCollectionValidatorAdaptor(t) => resolve(t)
    case ChildValidatorAdaptor(t) => resolve(t)
    case DelegatingValidator(inner) => ChildOf(inner, resolve)
    case _ => None
  }

  /** Only child adaptors, possibly behind delegating validators, hand anything on. */
  predicate Descends(v: PropertyValidator) {
    match v
    case ChildCollectionValidatorAdaptor(_) => true
    case ChildValidatorAdaptor(_) => true
    case DelegatingValidator(inner) => Descends(inner)
    case _ => false
  }

  lemma {:induction false} ChildOfOnlyThroughAdaptors(v: PropertyValidator, resolve: Resolver)
    ensures ChildOf(v, resolve).Some? ==> Descends(v)
  {
    if v.DelegatingValidator? {
      ChildOfOnlyThroughAdaptors(v.inner, resolve);
    }
  }

  /** `GetNestedPropertyValidators(desc, path, i)`. */
  function Nested(d: Descriptor, path: seq<string>, i: nat, resolve: Resolver): seq<ValidatorResult>
    requires i <= |path|
    decreases |path| - i, 1, 0
  {
    if i == |path| then [] else Contributions(d, path, i, resolve, |ValidatorsFor(d, path[i])|)
  }

  /** What the first `k` validators of member `path[i]` contribute, in order. */
  function Contributions(d: Descriptor, path: seq<string>, i: nat, resolve: Resolver, k: nat): seq<ValidatorResult>
    requires i < |path| && k <= |ValidatorsFor(d, path[i])|
    decreases |path| - i, 0, k
  {
    if k == 0 then []
    else Contributions(d, path, i, resolve, k - 1) + Contribution(d, path, i, resolve, ValidatorsFor(d, path[i])[k - 1])
  }

  /** One validator's share: itself at the last index, then what its child validator finds one member further. */
  function Contribution(d: Descriptor, path: seq<string>, i: nat, resolve: Resolver, v: PropertyValidator): seq<ValidatorResult>
    requires i < |path|
    decreases |path| - i, 0, 0
  {
    (if i == |path| - 1 then [ValidatorResult(v, DisplayName(d, path[i]))] else [])
    + match ChildOf(v, resolve)
      case None => []
      case Some(child) => Nested(child, path, i + 1, resolve)
  }

  /** At the last index every validator of the member is included once, in order, with the member's display name. */
  lemma {:induction false} LastMemberResults(d: Descriptor, path: seq<string>, resolve: Resolver)
    requires |path| > 0
    ensures Nested(d, path, |path| - 1, resolve)
         == seq(|ValidatorsFor(d, path[|path| - 1])|, j requires 0 <= j < |ValidatorsFor(d, path[|path| - 1])| =>
              ValidatorResult(ValidatorsFor(d, path[|path| - 1])[j], DisplayName(d, path[|path| - 1])))
  {
    var i := |path| - 1;
    var vs := ValidatorsFor(d, path[i]);
    var name := DisplayName(d, path[i]);
    var k := 0;
    while k < |vs|
      invariant k <= |vs|
      invariant Contributions(d, path, i, resolve, k) == seq(k, j requires 0 <= j < k => ValidatorResult(vs[j], name))
    {
      assert Contribution(d, path, i, resolve, vs[k]) == [ValidatorResult(vs[k], name)];
      k := k + 1;
    }
  }

  /** Below the last index, a member none of whose validators hands on a child contributes nothing. */
  lemma NoDescentNoResults(d: Descriptor, path: seq<string>, i: nat, resolve: Resolver)
    requires i < |path| - 1
    requires forall v | v in ValidatorsFor(d, path[i]) :: !Descends(v)
    ensures Nested(d, path, i, resolve) == []
  {
    var vs := ValidatorsFor(d, path[i]);
    var k := 0;
    while k < |vs|
      invariant k <= |vs|
      invariant Contributions(d, path, i, resolve, k) == []
    {
      ChildOfOnlyThroughAdaptors(vs[k], resolve);
      k := k + 1;
    }
  }

  /** `GetNestedPropertyValidators`: the foreach over the member's validators, adding and recursing. */
  method GetNestedPropertyValidators(d: Descriptor, path: seq<string>, i: nat, resolve: Resolver) returns (r: seq<ValidatorResult>)
    requires i <= |path|
    ensures r == Nested(d, path, i, resolve)
    decreases |path| - i
  {
    if i == |path| {
      return [];
    }
    var vals := ValidatorsFor(d, path[i]);
    var name := DisplayName(d, path[i]);
    r := [];
    for k := 0 to |vals|
      invariant r == Contributions(d, path, i, resolve, k)
    {
      var v := vals[k];
      var own := if i == |path| - 1 then [ValidatorResult(v, name)] else [];
      var child := ChildOf(v, resolve);
      if child.None? {
        r := r + own;
      } else {
        var more := GetNestedPropertyValidators(child.value, path, i + 1, resolve);
        r := r + (own + more);
      }
    }
  }

  /** `FindValidators`: empty without an input type or a validator for it, else the nested search from member 0. */
  method FindValidators(inputType: Option<ClrType>, path: seq<string>, resolve: Resolver) returns (r: seq<ValidatorResult>)
    ensures inputType.None? ==> r == []
    ensures inputType.Some? && resolve(inputType.value).None? ==> r == []
    ensures inputType.Some? && resolve(inputType.value).Some? ==> r == Nested(resolve(inputType.value).value, path, 0, resolve)
  {
    if inputType.None? {
      return [];
    }
    var base := resolve(inputType.value);
    if base.None? {
      return [];
    }
    r := GetNestedPropertyValidators(base.value, path, 0, resolve);
  }
}
