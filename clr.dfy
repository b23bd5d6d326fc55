/**
  The part of the .NET type system the modelled code inspects by reflection: declared
  types, property descriptors with their attributes and getters, and object values.
 */
module Clr {
  import opened Wrappers

  /** The primitive and framework value types the route generator treats as convertible. */
  datatype Prim =
    | Bool | Byte | Char | DateTime | DateTimeOffset | Decimal | Double | Float | Int
    | Long | SByte | Short | String | UInt | ULong | UShort | Guid | TimeSpan

  datatype Category = Class | Struct | Interface

  /** A declared or runtime type. */
  datatype ClrType =
    | Builtin(prim: Prim)
    | Enum(enumName: string)
    | Nullable(underlying: ClrType)
    | ArrayOf(element: ClrType)
    | Custom(typeName: string, category: Category, enumerable: bool)

  /** `Type.IsValueType`. */
  predicate IsValueType(t: ClrType) {
    match t
    case Builtin(p) => p != String
    case Enum(_) => true
    case Nullable(_) => true
    case ArrayOf(_) => false
    case Custom(_, c, _) => c == Struct
  }

  /** `Type.IsClass`: reference types that are not interfaces. */
  predicate IsClass(t: ClrType) {
    match t
    case Builtin(p) => p == String
    case Enum(_) => false
    case Nullable(_) => false
    case ArrayOf(_) => true
    case Custom(_, c, _) => c == Class
  }

  /** `typeof(IEnumerable).IsAssignableFrom(t)`: strings and arrays are enumerable. */
  predicate IsEnumerableType(t: ClrType) {
    match t
    case Builtin(p) => p == String
    case Enum(_) => false
    case Nullable(_) => false
    case ArrayOf(_) => true
    case Custom(_, _, e) => e
  }

  /** `Nullable.GetUnderlyingType(t) ?? t`. */
  function UnwrapNullable(t: ClrType): ClrType {
    if t.Nullable? then t.underlying else t
  }

  function PrimName(p: Prim): string {
    match p
    case Bool => "System.Boolean"
    case Byte => "System.Byte"
    case Char => "System.Char"
    case DateTime => "System.DateTime"
    case DateTimeOffset => "System.DateTimeOffset"
    case Decimal => "System.Decimal"
    case Double => "System.Double"
    case Float => "System.Single"
    case Int => "System.Int32"
    case Long => "System.Int64"
    case SByte => "System.SByte"
    case Short => "System.Int16"
    case String => "System.String"
    case UInt => "System.UInt32"
    case ULong => "System.UInt64"
    case UShort => "System.UInt16"
    case Guid => "System.Guid"
    case TimeSpan => "System.TimeSpan"
  }

  /** `Type.ToString()`: the full name of the type. */
  function TypeName(t: ClrType): string {
    match t
    case Builtin(p) => PrimName(p)
    case Enum(n) => n
    case Nullable(u) => "System.Nullable`1[" + TypeName(u) + "]"
    case ArrayOf(e) => TypeName(e) + "[]"
    case Custom(n, _, _) => n
  }

  /** The custom attributes the modelled code looks for on a property. */
  datatype Attribute =
    | FromRoute
    | FromQuery(aliasName: Option<string>)
    | OtherAttribute(attributeType: string)

  predicate HasFromRoute(attrs: seq<Attribute>) {
    exists i | 0 <= i < |attrs| :: attrs[i].FromRoute?
  }

  /** The public-getter shape: whether it is public, its parameter count, its generic arguments. */
  datatype Getter = Getter(isPublic: bool, parameterCount: nat, genericArgumentCount: nat)

  /** A `PropertyInfo`: name, declared type, custom attributes and getter (absent if write-only). */
  datatype PropInfo = PropInfo(name: string, propertyType: ClrType, attributes: seq<Attribute>, getter: Option<Getter>)

  /**
    A value: `null`, or an object with its runtime type, a payload that identifies it among
    values of that type (its invariant text, say), the current values of its public
    properties, and the elements it yields when enumerated (empty for a non-enumerable).
   */
  datatype Value =
    | Null
    | Obj(runtimeType: ClrType, payload: string, props: seq<Property>, elements: seq<Value>)

  /** A property of an object together with the value its getter returns. */
  datatype Property = Property(info: PropInfo, value: Value)

  /** The payload of a default struct instance (all fields zero). */
  const ZeroPayload: string := ""

  /** A boxed value of a runtime type with no public properties. */
  function Boxed(t: ClrType, payload: string): Value {
    Obj(t, payload, [], [])
  }

  /**
    `Activator.CreateInstance(t)` for a value type and `null` otherwise. Creating a
    `Nullable<T>` yields `null`, because a Nullable without a value boxes to `null`.
   */
  function DefaultInstance(t: ClrType): (r: Value)
    ensures r.Obj? <==> IsValueType(t) && !t.Nullable?
    ensures r.Obj? ==> r.runtimeType == t && r.payload == ZeroPayload
  {
    if IsValueType(t) && !t.Nullable? then Boxed(t, ZeroPayload) else Null
  }

  /** The static `object.Equals(a, b)` on boxed values. */
  predicate ValueEquals(a: Value, b: Value) {
    if a.Null? || b.Null? then a.Null? && b.Null?
    else a.runtimeType == b.runtimeType && a.payload == b.payload
  }

  /** The runtime type of a non-null value (`value.GetType()`). */
  function RuntimeType(v: Value): ClrType
    requires v.Obj?
  {
    v.runtimeType
  }
}
