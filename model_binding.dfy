/**
  The conversion and binding helpers of SchoStack.AspNetCore.ModelUrls: reshaping between
  arrays and scalars on conversion, the include-expression property filter, and clearing
  model-state entries for a model.
 */
module ModelBinding {
  import opened Wrappers
  import opened Text
  import opened Clr

  /**
    What conversion relies on but does not define here: `IsAssignableFrom` between types,
    and the type-converter step (`TypeDescriptor` converters, `Enum.ToObject`, culture)
    that runs once the null, assignable and blank-string cases are out of the way.
   */
  datatype Converter = Converter(assignable: (ClrType, ClrType) -> bool, convert: (Value, ClrType) -> Result<Value>)

  /** A value whose runtime type is an array. */
  predicate IsArrayValue(v: Value) {
    v.Obj? && v.runtimeType.ArrayOf?
  }

  /** A new array of element type `e` holding `ys`. */
  function ArrayValue(e: ClrType, ys: seq<Value>): Value {
    Obj(ArrayOf(e), ZeroPayload, [], ys)
  }

  /** Storing `v` into an array of element type `e`: a null stored into a value-type array becomes the default. */
  function Stored(e: ClrType, v: Value): (r: Value)
    ensures v.Obj? ==> r == v
    ensures v.Null? ==> r == DefaultInstance(e)
  {
    if v.Null? && IsValueType(e) then DefaultInstance(e) else v
  }

  /** `ConvertSimpleType`: converts one element to `dest`. */
  function ConvertSimpleType(value: Value, dest: ClrType, conv: Converter): (r: Result<Value>)
    ensures value.Null? ==> r == Ok(Null)
    ensures value.Obj? && conv.assignable(dest, value.runtimeType) ==> r == Ok(value)
    ensures (value.Obj? && !conv.assignable(dest, value.runtimeType) && value.runtimeType == Builtin(String)
             && IsWhiteSpaceOnly(value.payload)) ==> r == Ok(Null)
    ensures (value.Obj? && !conv.assignable(dest, value.runtimeType)
             && !(value.runtimeType == Builtin(String) && IsWhiteSpaceOnly(value.payload)))
      ==> r == conv.convert(value, UnwrapNullable(dest))
  {
    if value.Null? || conv.assignable(dest, value.runtimeType) then Ok(value)
    else
      var d := UnwrapNullable(dest);
      if value.runtimeType == Builtin(String) && IsWhiteSpaceOnly(value.payload) then Ok(Null)
      else conv.convert(value, d)
  }

  /** Converting every element in order; the first element whose conversion throws decides the error. */
  function ConvertAll(xs: seq<Value>, e: ClrType, conv: Converter): (r: Result<seq<Value>>)
    ensures r.Ok? <==> forall i | 0 <= i < |xs| :: ConvertSimpleType(xs[i], e, conv).Ok?
    ensures r.Ok? ==> |r.value| == |xs|
    ensures r.Ok? ==> forall i | 0 <= i < |xs| :: r.value[i] == Stored(e, ConvertSimpleType(xs[i], e, conv).value)
    ensures r.Throws? ==> exists i | 0 <= i < |xs| ::
      ConvertSimpleType(xs[i], e, conv) == Throws(r.error)
      && forall j | 0 <= j < i :: ConvertSimpleType(xs[j], e, conv).Ok?
    decreases |xs|
  {
    if xs == [] then Ok([])
    else
      match ConvertSimpleType(xs[0], e, conv)
      case Throws(err) => Throws(err)
      case Ok(y) =>
        var rest := ConvertAll(xs[1..], e, conv);
        assert forall i | 1 <= i < |xs| :: xs[1..][i - 1] == xs[i];
        match rest
        case Throws(err) =>
          assert exists i | 0 <= i < |xs| ::
            ConvertSimpleType(xs[i], e, conv) == Throws(err)
            && forall j | 0 <= j < i :: ConvertSimpleType(xs[j], e, conv).Ok? by {
            var k :| 0 <= k < |xs[1..]| && ConvertSimpleType(xs[1..][k], e, conv) == Throws(err)
              && forall j | 0 <= j < k :: ConvertSimpleType(xs[1..][j], e, conv).Ok?;
            assert forall j | 0 <= j < k + 1 :: ConvertSimpleType(xs[j], e, conv).Ok? by {
              forall j | 0 <= j < k + 1
                ensures ConvertSimpleType(xs[j], e, conv).Ok?
              {
                if j > 0 { assert xs[j] == xs[1..][j - 1]; }
              }
            }
            assert ConvertSimpleType(xs[k + 1], e, conv) == Throws(err);
          }
          Throws(err)
        case Ok(ys) => Ok([Stored(e, y)] + ys)
  }

  /** The four cases of `UnwrapPossibleArrayType`. */
  function Reshape(value: Value, dest: ClrType, conv: Converter): (r: Result<Value>)
    requires value.Obj?
    // both arrays: same length, element i converted from element i
    ensures dest.ArrayOf? && IsArrayValue(value) ==>
      (r.Ok? <==> ConvertAll(value.elements, dest.element, conv).Ok?)
      && (r.Ok? ==> r.value == ArrayValue(dest.element, ConvertAll(value.elements, dest.element, conv).value)
                    && |r.value.elements| == |value.elements|)
      && (r.Throws? ==> r.error == ConvertAll(value.elements, dest.element, conv).error)
    // array target, scalar source: a one-element array
    ensures dest.ArrayOf? && !IsArrayValue(value) ==>
      (r.Ok? <==> ConvertSimpleType(value, dest.element, conv).Ok?)
      && (r.Ok? ==> r.value == ArrayValue(dest.element, [Stored(dest.element, ConvertSimpleType(value, dest.element, conv).value)]))
    // scalar target, array source: element 0 only, null for an empty array
    ensures !dest.ArrayOf? && IsArrayValue(value) ==>
      r == if |value.elements| == 0 then Ok(Null) else ConvertSimpleType(value.elements[0], dest, conv)
    // both scalars
    ensures !dest.ArrayOf? && !IsArrayValue(value) ==> r == ConvertSimpleType(value, dest, conv)
  {
    if dest.ArrayOf? then
      if IsArrayValue(value) then
        match ConvertAll(value.elements, dest.element, conv)
        case Ok(ys) => Ok(ArrayValue(dest.element, ys))
        case Throws(e) => Throws(e)
      else
        match ConvertSimpleType(value, dest.element, conv)
        case Ok(y) => Ok(ArrayValue(dest.element, [Stored(dest.element, y)]))
        case Throws(e) => Throws(e)
    else if IsArrayValue(value) then
      if |value.elements| > 0 then ConvertSimpleType(value.elements[0], dest, conv) else Ok(Null)
    else ConvertSimpleType(value, dest, conv)
  }

  /** `UnwrapPossibleArrayType`: fills a new array element by element. */
  method UnwrapPossibleArrayType(value: Value, dest: ClrType, conv: Converter) returns (r: Result<Value>)
    requires value.Obj?
    ensures r == Reshape(value, dest, conv)
  {
    if dest.ArrayOf? {
      var e := dest.element;
      if IsArrayValue(value) {
        var xs := value.elements;
        var converted := new Value[|xs|](_ => DefaultInstance(e));
        var i := 0;
        while i < |xs|
          invariant 0 <= i <= |xs|
          invariant forall j | 0 <= j < i :: ConvertSimpleType(xs[j], e, conv).Ok?
          invariant forall j | 0 <= j < i :: converted[j] == Stored(e, ConvertSimpleType(xs[j], e, conv).value)
        {
          var c := ConvertSimpleType(xs[i], e, conv);
          if c.Throws? {
            return Throws(c.error);
          }
          converted[i] := Stored(e, c.value);
          i := i + 1;
        }
        assert ConvertAll(xs, e, conv).Ok?;
        assert converted[..] == ConvertAll(xs, e, conv).value;
        return Ok(ArrayValue(e, converted[..]));
      } else {
        var c := ConvertSimpleType(value, e, conv);
        if c.Throws? {
          return Throws(c.error);
        }
        var converted := new Value[1](_ => DefaultInstance(e));
        converted[0] := Stored(e, c.value);
        assert converted[..] == [Stored(e, c.value)];
        return Ok(ArrayValue(e, converted[..]));
      }
    } else if IsArrayValue(value) {
      if |value.elements| > 0 {
        return ConvertSimpleType(value.elements[0], dest, conv);
      } else {
        return Ok(Null);
      }
    }
    return ConvertSimpleType(value, dest, conv);
  }

  /** `ConvertTo(value, type, culture)`; a null `type` is `None`. */
  function ConvertTo(value: Value, t: Option<ClrType>, conv: Converter): (r: Result<Value>)
    ensures t.None? ==> r == Throws(ArgumentNull("type"))
    ensures t.Some? && value.Null? ==> r == Ok(DefaultInstance(t.value))
    ensures t.Some? && value.Null? ==> (r.value.Null? <==> !IsValueType(t.value) || t.value.Nullable?)
    ensures t.Some? && value.Obj? && conv.assignable(t.value, value.runtimeType) ==> r == Ok(value)
    ensures t.Some? && value.Obj? && !conv.assignable(t.value, value.runtimeType) ==> r == Reshape(value, t.value, conv)
  {
    match t
    case None => Throws(ArgumentNull("type"))
    case Some(ty) =>
      if value.Null? then Ok(DefaultInstance(ty))
      else if conv.assignable(ty, value.runtimeType) then Ok(value)
      else Reshape(value, ty, conv)
  }

  /** `ConvertTo<T>`: a null result becomes `default(T)`; anything else is cast to `T`. */
  function ConvertToGeneric(value: Value, t: ClrType, conv: Converter): (r: Result<Value>)
    ensures ConvertTo(value, Some(t), conv).Throws? ==> r == ConvertTo(value, Some(t), conv)
    ensures ConvertTo(value, Some(t), conv) == Ok(Null) ==> r == Ok(DefaultInstance(t))
    ensures ConvertTo(value, Some(t), conv).Ok? && ConvertTo(value, Some(t), conv).value.Obj? ==>
      var v := ConvertTo(value, Some(t), conv).value;
      r == if conv.assignable(t, v.runtimeType) then Ok(v) else Throws(ConversionFailed("InvalidCastException"))
  {
    match ConvertTo(value, Some(t), conv)
    case Throws(e) => Throws(e)
    case Ok(Null) => Ok(DefaultInstance(t))
    case Ok(v) =>
      if conv.assignable(t, v.runtimeType) then Ok(v)
      else Throws(ConversionFailed("InvalidCastException"))
  }

  /** `CastOrDefault<TModel>`: the model if it is a `TModel`, else `default(TModel)`. */
  function CastOrDefault(model: Value, t: ClrType, conv: Converter): (r: Value)
    ensures model.Obj? && conv.assignable(t, model.runtimeType) ==> r == model
    ensures !(model.Obj? && conv.assignable(t, model.runtimeType)) ==> r == DefaultInstance(t)
  {
    if model.Obj? && conv.assignable(t, model.runtimeType) then model else DefaultInstance(t)
  }

  // ---- Include expressions ----

  datatype Member = PropertyMember(name: string) | FieldMember(name: string)

  /** The expression-tree nodes an include expression's body can be built from. */
  datatype Expr =
    | Parameter(parameterName: string)
    | MemberAccess(target: Option<Expr>, member: Member)   // target None: a static member
    | Convert(operand: Expr)
    | ConvertChecked(operand: Expr)
    | OtherNode(nodeType: string)

  function NodeType(e: Expr): string {
    match e
    case Parameter(_) => "Parameter"
    case MemberAccess(_, _) => "MemberAccess"
    case Convert(_) => "Convert"
    case ConvertChecked(_) => "ConvertChecked"
    case OtherNode(n) => n
  }

  /** One boxing conversion is looked through. */
  function Unboxed(e: Expr): Expr {
    if e.Convert? || e.ConvertChecked? then e.operand else e
  }

  /** A property read directly off the lambda parameter. */
  predicate IsParameterProperty(e: Expr) {
    e.MemberAccess? && e.member.PropertyMember? && e.target.Some? && e.target.value.Parameter?
  }

  /**
    `GetPropertyName`: the property name of `x => x.Prop`, possibly wrapped in one
    boxing conversion. Anything else throws `InvalidOperationException` naming the node
    type, except a static property, whose missing target is dereferenced.
   */
  function GetPropertyName(e: Expr): (r: Result<string>)
    ensures r.Ok? <==> IsParameterProperty(Unboxed(e))
    ensures r.Ok? ==> r.value == Unboxed(e).member.name
    ensures r.Throws? ==> (r.error == NullReference || r.error == InvalidOperation(NodeType(Unboxed(e))))
    ensures r == Throws(NullReference) <==>
      Unboxed(e).MemberAccess? && Unboxed(e).member.PropertyMember? && Unboxed(e).target.None?
  {
    var x := Unboxed(e);
    if !x.MemberAccess? then Throws(InvalidOperation(NodeType(x)))
    else match x.member
      case PropertyMember(name) =>
        (match x.target
         case None => Throws(NullReference)
         case Some(t) => if !t.Parameter? then Throws(InvalidOperation(NodeType(x))) else Ok(name))
      case FieldMember(_) => Throws(InvalidOperation(NodeType(x)))
  }

  /** The predicate tree the filter builder produces over a property's metadata. */
  datatype Filter = AcceptAll | NameIs(name: string) | OrElse(left: Filter, right: Filter)

  /** Evaluates a filter on `metadata.PropertyName` (null for a non-property metadata). */
  predicate Accepts(f: Filter, propertyName: Option<string>) {
    match f
    case AcceptAll => true
    case NameIs(n) => propertyName == Some(n)
    case OrElse(l, r) => Accepts(l, propertyName) || Accepts(r, propertyName)
  }

  /**
    `GetPropertyFilterExpression`: no expressions accept everything; otherwise the
    metadata accepted are exactly those whose PropertyName equals one of the named
    properties. The first expression that is not a property access decides the error.
   */
  method GetPropertyFilterExpression(exprs: seq<Expr>) returns (r: Result<Filter>)
    ensures |exprs| == 0 ==> r == Ok(AcceptAll)
    ensures r.Ok? <==> forall i | 0 <= i < |exprs| :: GetPropertyName(exprs[i]).Ok?
    ensures r.Ok? && |exprs| > 0 ==> forall m: Option<string> ::
      Accepts(r.value, m) <==> exists i | 0 <= i < |exprs| :: m == Some(GetPropertyName(exprs[i]).value)
    ensures r.Throws? ==> exists i | 0 <= i < |exprs| ::
      GetPropertyName(exprs[i]) == Throws(r.error) && forall j | 0 <= j < i :: GetPropertyName(exprs[j]).Ok?
  {
    if |exprs| == 0 {
      return Ok(AcceptAll);
    }
    var first := GetPropertyName(exprs[0]);
    if first.Throws? {
      return Throws(first.error);
    }
    var acc := NameIs(first.value);
    var i := 1;
    while i < |exprs|
      invariant 1 <= i <= |exprs|
      invariant forall j | 0 <= j < i :: GetPropertyName(exprs[j]).Ok?
      invariant forall m: Option<string> ::
        Accepts(acc, m) <==> exists j | 0 <= j < i :: m == Some(GetPropertyName(exprs[j]).value)
    {
      var p := GetPropertyName(exprs[i]);
      if p.Throws? {
        return Throws(p.error);
      }
      acc := OrElse(acc, NameIs(p.value));
      i := i + 1;
    }
    return Ok(acc);
  }

  // ---- Model state ----

  datatype ValidationState = Unvalidated | Invalid | Valid | SkippedValidation

  datatype ModelStateEntry = ModelStateEntry(attemptedValue: Option<string>, errors: seq<string>, validationState: ValidationState)

  /** Errors cleared and the state back to Unvalidated; everything else kept. */
  function Reset(e: ModelStateEntry): (r: ModelStateEntry)
    ensures r.errors == [] && r.validationState == Unvalidated && r.attemptedValue == e.attemptedValue
  {
    e.(errors := [], validationState := Unvalidated)
  }

  /** Every entry whose key `sel` selects is reset; the others are untouched. */
  function ResetWhere(m: map<string, ModelStateEntry>, sel: string -> bool): (r: map<string, ModelStateEntry>)
    ensures r.Keys == m.Keys
    ensures forall k | k in m :: r[k] == if sel(k) then Reset(m[k]) else m[k]
  {
    map k | k in m :: if sel(k) then Reset(m[k]) else m[k]
  }

  /**
    The keys `ModelStateDictionary.ClearValidationState(prefix)` reaches: all keys for the
    empty prefix, otherwise the prefix itself and the keys continuing it with '.' or '['.
   */
  predicate UnderPrefix(key: string, prefix: string) {
    |prefix| == 0
    || (prefix <= key
        && (|key| == |prefix| || key[|prefix|] == '.' || key[|prefix|] == '['))
  }

  /** A key starting with an indexer. */
  predicate IsIndexKey(key: string) {
    |key| > 0 && key[0] == '['
  }

  class ModelStateDictionary {
    var entries: map<string, ModelStateEntry>

    constructor(initial: map<string, ModelStateEntry>)
      ensures entries == initial
    {
      entries := initial;
    }

    /** Resets every entry whose key `sel` selects, visiting the keys one at a time. */
    method ResetEntries(sel: string -> bool)
      modifies this
      ensures entries == ResetWhere(old(entries), sel)
    {
      ghost var m0 := entries;
      var keys := entries.Keys;
      while keys != {}
        invariant keys <= m0.Keys && entries.Keys == m0.Keys
        invariant forall k | k in m0 :: entries[k] == if k in keys || !sel(k) then m0[k] else Reset(m0[k])
        decreases keys
      {
        var k :| k in keys;
        if sel(k) {
          entries := entries[k := Reset(entries[k])];
        }
        keys := keys - {k};
      }
    }

    /** `ClearValidationState(key)`: resets every entry under `key`. */
    method ClearValidationState(key: string)
      modifies this
      ensures entries == ResetWhere(old(entries), k => UnderPrefix(k, key))
    {
      ResetEntries(k => UnderPrefix(k, key));
    }
  }

  /** What `ClearValidationStateForModel` needs of a model's metadata. */
  datatype PropertyMetadata = PropertyMetadata(propertyName: string, binderModelName: Option<string>)
  datatype ModelMetadata = ModelMetadata(isEnumerableType: bool, isComplexType: bool, properties: seq<PropertyMetadata>)

  /** The key a property binds under: its binder model name, else its property name. */
  function BindingKey(p: PropertyMetadata): string {
    p.binderModelName.GetOr(p.propertyName)
  }

  /** The entries a clear for `meta` under `modelKey` (null when None) resets. */
  predicate Selected(meta: ModelMetadata, modelKey: Option<string>, key: string) {
    if modelKey.None? || modelKey.value == "" then
      if meta.isEnumerableType then IsIndexKey(key)
      else if meta.isComplexType then exists i | 0 <= i < |meta.properties| :: UnderPrefix(key, BindingKey(meta.properties[i]))
      else key == ""
    else UnderPrefix(key, modelKey.value)
  }

  /** The keys under any of `prefixes`. */
  predicate UnderAny(key: string, prefixes: seq<string>) {
    exists i | 0 <= i < |prefixes| :: UnderPrefix(key, prefixes[i])
  }

  /** Clearing the prefixes one after another resets exactly the keys under any of them. */
  lemma {:induction false} ClearInTurn(m: map<string, ModelStateEntry>, prefixes: seq<string>, n: nat)
    requires n <= |prefixes|
    ensures ClearEach(m, prefixes, n) == ResetWhere(m, k => UnderAny(k, prefixes[..n]))
  {
    if n > 0 {
      ClearInTurn(m, prefixes, n - 1);
      var before := ResetWhere(m, k => UnderAny(k, prefixes[..n - 1]));
      var after := ResetWhere(before, k => UnderPrefix(k, prefixes[n - 1]));
      forall k | k in m
        ensures after[k] == ResetWhere(m, k => UnderAny(k, prefixes[..n]))[k]
      {
        if UnderPrefix(k, prefixes[n - 1]) {
          assert prefixes[..n][n - 1] == prefixes[n - 1];
        }
        if UnderAny(k, prefixes[..n - 1]) {
          var i :| 0 <= i < n - 1 && UnderPrefix(k, prefixes[..n - 1][i]);
          assert prefixes[..n][i] == prefixes[..n - 1][i];
        }
        if UnderAny(k, prefixes[..n]) && !UnderPrefix(k, prefixes[n - 1]) {
          var i :| 0 <= i < n && UnderPrefix(k, prefixes[..n][i]);
          assert i < n - 1;
          assert prefixes[..n - 1][i] == prefixes[..n][i];
        }
      }
    } else {
      assert forall k | k in m :: !UnderAny(k, prefixes[..0]);
    }
  }

  /** The state after `ClearValidationState` on the first `n` prefixes, in order. */
  function ClearEach(m: map<string, ModelStateEntry>, prefixes: seq<string>, n: nat): map<string, ModelStateEntry>
    requires n <= |prefixes|
  {
    if n == 0 then m else ResetWhere(ClearEach(m, prefixes, n - 1), k => UnderPrefix(k, prefixes[n - 1]))
  }

  function BindingKeys(props: seq<PropertyMetadata>): (r: seq<string>)
    ensures |r| == |props| && forall i | 0 <= i < |props| :: r[i] == BindingKey(props[i])
  {
    seq(|props|, i requires 0 <= i < |props| => BindingKey(props[i]))
  }

  /**
    `ClearValidationStateForModel` (metadata overload): resets exactly the entries
    `Selected` picks and leaves every other entry as it was. Null metadata or model state
    (None, null) throw `ArgumentNullException`.
   */
  method ClearValidationStateForModel(meta: Option<ModelMetadata>, modelState: ModelStateDictionary?, modelKey: Option<string>)
    returns (error: Option<Exception>)
    modifies modelState
    ensures meta.None? ==> error == Some(ArgumentNull("modelMetadata"))
    ensures meta.Some? && modelState == null ==> error == Some(ArgumentNull("modelState"))
    ensures error.Some? ==> modelState == null || unchanged(modelState)
    ensures meta.Some? && modelState != null ==> error.None?
    ensures meta.Some? && modelState != null ==>
      modelState.entries == ResetWhere(old(modelState.entries), k => Selected(meta.value, modelKey, k))
  {
    if meta.None? {
      return Some(ArgumentNull("modelMetadata"));
    }
    if modelState == null {
      return Some(ArgumentNull("modelState"));
    }
    var md := meta.value;
    ghost var m0 := modelState.entries;
    if modelKey.None? || modelKey.value == "" {
      if md.isEnumerableType {
        modelState.ResetEntries(IsIndexKey);
      } else if md.isComplexType {
        var keys := BindingKeys(md.properties);
        var i := 0;
        while i < |md.properties|
          invariant 0 <= i <= |md.properties|
          invariant modelState.entries == ClearEach(m0, keys, i)
        {
          modelState.ClearValidationState(BindingKey(md.properties[i]));
          i := i + 1;
        }
        ClearInTurn(m0, keys, |keys|);
        assert keys[..|keys|] == keys;
        assert forall k :: UnderAny(k, keys) <==> Selected(md, modelKey, k);
      } else {
        if "" in modelState.entries {
          modelState.entries := modelState.entries["" := Reset(modelState.entries[""])];
        }
      }
    } else {
      modelState.ClearValidationState(modelKey.value);
    }
    return None;
  }
}
