/**
  The DataAnnotations HTML conventions: attribute-driven builders and modifiers, and the
  numeric classes every input gets from its property type.
 */
module DataAnnotationConventions {
  import opened Wrappers
  import opened Text
  import opened Clr
  import opened HtmlTags

  // ---- AddNumberClasses ----

  predicate IsIntegral(p: Prim) {
    p == Int || p == UInt || p == Long || p == ULong || p == Short || p == UShort
  }

  predicate IsFractional(p: Prim) {
    p == Double || p == Decimal || p == Float
  }

  /** The type itself or its `Nullable` form, each compared exactly as `==` on `Type` does. */
  predicate IsPrimOrNullable(t: ClrType, holds: Prim -> bool) {
    (t.Builtin? && holds(t.prim)) || (t.Nullable? && t.underlying.Builtin? && holds(t.underlying.prim))
  }

  /** The class `AddNumberClasses` adds: "digits" for integral types, else "number" for fractional ones. */
  function NumberClass(t: ClrType): (r: Option<string>)
    ensures r.Some? ==> r.value == "digits" || r.value == "number"
  {
    if IsPrimOrNullable(t, IsIntegral) then Some("digits")
    else if IsPrimOrNullable(t, IsFractional) then Some("number")
    else None
  }

  /** The twelve types of the number-class convention's "digits" condition, and the six of its "number" condition. */
  const DigitsTypes: set<ClrType> :=
    { Builtin(Int), Nullable(Builtin(Int)), Builtin(UInt), Nullable(Builtin(UInt)),
      Builtin(Long), Nullable(Builtin(Long)), Builtin(ULong), Nullable(Builtin(ULong)),
      Builtin(Short), Nullable(Builtin(Short)), Builtin(UShort), Nullable(Builtin(UShort)) }
  const NumberTypes: set<ClrType> :=
    { Builtin(Double), Nullable(Builtin(Double)), Builtin(Decimal), Nullable(Builtin(Decimal)),
      Builtin(Float), Nullable(Builtin(Float)) }

  /** A type gets "digits" exactly when it is one of the twelve, "number" exactly when one of the six, and never both. */
  lemma NumberClassSpec(t: ClrType)
    ensures NumberClass(t) == Some("digits") <==> t in DigitsTypes
    ensures NumberClass(t) == Some("number") <==> t in NumberTypes
    ensures DigitsTypes !! NumberTypes
    ensures t == Builtin(Byte) || t == Builtin(SByte) || t == Nullable(Builtin(Byte)) ==> NumberClass(t).None?
  {
    assert "digits" != "number";
  }

  method AddNumberClasses(propertyType: ClrType, h: HtmlTag)
    modifies h
    ensures NumberClass(propertyType).Some? ==>
      h.Snapshot() == old(h.Snapshot()).(classes := old(h.classes) + {NumberClass(propertyType).value})
    ensures NumberClass(propertyType).None? ==> h.Snapshot() == old(h.Snapshot())
  {
    if IsPrimOrNullable(propertyType, IsIntegral) {
      h.AddClass("digits");
    } else if IsPrimOrNullable(propertyType, IsFractional) {
      h.AddClass("number");
    }
  }

  // ---- DataType, HiddenInput, StringLength, DisplayName ----

  /** `DataTypeAttribute.DataType`; only `Text` and `Password` are looked at. */
  datatype DataType = Text | Password | OtherDataType(name: string)

  /** The DataType builder: a textarea holding the attempted value, else the bound one, for `Text`; no tag otherwise. */
  function DataTypeBuilder(dataType: DataType, attempted: Option<string>, bound: Option<string>): (r: Option<Element>)
    ensures r.Some? <==> dataType.Text?
    ensures r.Some? ==> r.value.tagName == "textarea" && r.value.attrs == map[] && r.value.children == []
    ensures r.Some? && attempted.Some? ==> r.value.text == attempted.value
    ensures r.Some? && attempted.None? ==> r.value.text == bound.GetOr("")
  {
    if dataType.Text? then Some(Tag("textarea").(text := (if attempted.Some? then attempted else bound).GetOr(""))) else None
  }

  /** The DataType modifier: a password input with no value and autocomplete off; other types untouched. */
  method PasswordModifier(dataType: DataType, h: HtmlTag)
    modifies h
    ensures dataType.Password? ==> (h.Snapshot() ==
      WithAttr(WithAttr(WithAttr(old(h.Snapshot()), "type", Some("password")), "value", None), "autocomplete", Some("off")))
    ensures !dataType.Password? ==> h.Snapshot() == old(h.Snapshot())
  {
    if dataType.Password? {
      h.Attr("type", Some("password"));
      h.Attr("value", None);
      h.Attr("autocomplete", Some("off"));
    }
  }

  /** A password input ends with type "password", autocomplete "off" and no value, whatever it had. */
  lemma PasswordEffect(e: Element)
    ensures var r := WithAttr(WithAttr(WithAttr(e, "type", Some("password")), "value", None), "autocomplete", Some("off"));
      "type" in r.attrs && r.attrs["type"] == "password" && "value" !in r.attrs
      && "autocomplete" in r.attrs && r.attrs["autocomplete"] == "off"
  {
  }

  /** The StringLength modifier: `maxlength` always, `minlength` only when positive. */
  method StringLengthModifier(maximumLength: int, minimumLength: int, h: HtmlTag)
    modifies h
    ensures h.GetAttr("maxlength") == Some(IntToString(maximumLength))
    ensures minimumLength > 0 ==> h.GetAttr("minlength") == Some(IntToString(minimumLength))
    ensures minimumLength <= 0 ==> h.GetAttr("minlength") == old(h.GetAttr("minlength"))
    ensures forall k | k != "maxlength" && k != "minlength" :: h.GetAttr(k) == old(h.GetAttr(k))
    ensures h.tagName == old(h.tagName) && h.classes == old(h.classes) && h.text == old(h.text) && h.children == old(h.children)
  {
    h.Attr("maxlength", Some(IntToString(maximumLength)));
    if minimumLength > 0 {
      h.Attr("minlength", Some(IntToString(minimumLength)));
    }
  }

  /** The DisplayName modifier: the label's text becomes the display name. */
  method DisplayNameModifier(displayName: string, h: HtmlTag)
    modifies h
    ensures h.Snapshot() == old(h.Snapshot()).(text := displayName)
  {
    h.SetText(displayName);
  }
}
