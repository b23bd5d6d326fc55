/**
  The FluentValidation HTML conventions: six rule providers, run in a fixed order on every
  input, each turning the first validator of its kind into unobtrusive-validation attributes.
 */
module FluentValidationConventions {
  import opened Wrappers
  import opened Text
  import opened Linq
  import opened HtmlTags
  import opened FluentValidatorFinder

  datatype RuleProvider =
    | AddLengthClasses | AddRequiredClass | AddCreditCardClass | AddEqualToDataAttr | AddRegexData | AddEmailData

  /** The order the constructor registers the providers in. */
  const RuleProviders: seq<RuleProvider> :=
    [AddLengthClasses, AddRequiredClass, AddCreditCardClass, AddEqualToDataAttr, AddRegexData, AddEmailData]

  /** What the equal-to rule reads of the request: its id, its accessor's name and how many property names that has. */
  datatype RequestView = RequestView(id: string, accessorName: string, propertyNameCount: nat)

  predicate IsLength(r: ValidatorResult) { r.propertyValidator.LengthValidator? }
  predicate IsRequired(r: ValidatorResult) { r.propertyValidator.NotEmptyValidator? || r.propertyValidator.NotNullValidator? }
  predicate IsEqual(r: ValidatorResult) { r.propertyValidator.EqualValidator? }
  predicate IsRegex(r: ValidatorResult) { r.propertyValidator.RegularExpressionValidator? }
  predicate IsEmail(r: ValidatorResult) { r.propertyValidator.EmailValidator? }

  /** `data-val-equalto-other`: the sibling's id for a nested accessor, else a `*.` wildcard. */
  function EqualToOther(req: RequestView, member: string): (r: string)
    ensures req.propertyNameCount > 1 ==> r == ReplaceAll(req.id, "_" + req.accessorName, "") + "_" + member
    ensures req.propertyNameCount <= 1 ==> r == "*." + member
  {
    if req.propertyNameCount > 1 then ReplaceAll(req.id, "_" + req.accessorName, "") + "_" + member
    else "*." + member
  }

  const RegexFallback := "The value did not match the regular expression '"
  const EmailFallback := "The value is not a valid email address"

  /** The attributes each provider may write. */
  function Keys(p: RuleProvider): set<string> {
    match p
    case AddLengthClasses => {"maxlength"}
    case AddRequiredClass => {"data-val", "data-val-required"}
    case AddCreditCardClass => {}
    case AddEqualToDataAttr => {"data-val", "data-val-equalto", "data-val-equalto-other"}
    case AddRegexData => {"data-val", "data-val-regex", "data-val-regex-pattern"}
    case AddEmailData => {"data-val", "data-val-email"}
  }

  /** Attribute `k` is as it was in `e`. */
  predicate SameAttr(r: Element, e: Element, k: string) {
    (k in r.attrs <==> k in e.attrs) && (k in e.attrs ==> r.attrs[k] == e.attrs[k])
  }

  /** Attribute `k` is set to `v`. */
  predicate HasAttr(r: Element, k: string, v: string) {
    k in r.attrs && r.attrs[k] == v
  }

  /** `k` holds `v`'s value when `v` has one, and is absent when `v` is null (`Data(k, null)` removes it). */
  predicate AttrIs(r: Element, k: string, v: Option<string>) {
    (k in r.attrs <==> v.Some?) && (v.Some? ==> r.attrs[k] == v.value)
  }

  /** The tag's name, classes, text and children are those of `e`. */
  predicate SameShape(r: Element, e: Element) {
    r.tagName == e.tagName && r.classes == e.classes && r.text == e.text && r.children == e.children
  }

  // `HtmlTag.Data(key, value)` writes the attribute "data-" + key; the keys below are written out.

  /** `AddLengthClasses`: the first length validator's maximum as `maxlength`. */
  function LengthEffect(vs: seq<ValidatorResult>, e: Element): (r: Element)
    ensures SameShape(r, e)
    ensures forall k | k != "maxlength" :: SameAttr(r, e, k)
    ensures First(vs, IsLength).None? ==> r == e
    ensures First(vs, IsLength).Some? ==> HasAttr(r, "maxlength", IntToString(First(vs, IsLength).value.propertyValidator.max))
  {
    match First(vs, IsLength)
    case None => e
    case Some(v) => e.(attrs := e.attrs["maxlength" := IntToString(v.propertyValidator.max)])
  }

  /** `AddRequiredClass`: the first not-empty or not-null validator marks the field required, its message or "". */
  function RequiredEffect(vs: seq<ValidatorResult>, e: Element): (r: Element)
    ensures SameShape(r, e)
    ensures forall k | k != "data-val" && k != "data-val-required" :: SameAttr(r, e, k)
    ensures First(vs, IsRequired).None? ==> r == e
    ensures First(vs, IsRequired).Some? ==> HasAttr(r, "data-val", "true")
    ensures First(vs, IsRequired).Some? ==>
      HasAttr(r, "data-val-required", First(vs, IsRequired).value.propertyValidator.message.GetOr(""))
  {
    match First(vs, IsRequired)
    case None => e
    case Some(v) => e.(attrs := e.attrs["data-val" := "true"]["data-val-required" := v.propertyValidator.message.GetOr("")])
  }

  /** The first equal-to validator that names a member to compare with, which is what fires the equal-to rule. */
  function EqualMember(vs: seq<ValidatorResult>): (m: Option<string>)
    ensures m.Some? ==> First(vs, IsEqual).Some? && First(vs, IsEqual).value.propertyValidator.memberToCompare == m
    ensures First(vs, IsEqual).Some? && First(vs, IsEqual).value.propertyValidator.memberToCompare.Some? ==> m.Some?
  {
    match First(vs, IsEqual)
    case None => None
    case Some(v) => v.propertyValidator.memberToCompare
  }

  /** `AddEqualToDataAttr`: only an equal-to validator comparing with a member adds anything. */
  function EqualToEffect(vs: seq<ValidatorResult>, req: RequestView, e: Element): (r: Element)
    ensures SameShape(r, e)
    ensures forall k | k != "data-val" && k != "data-val-equalto" && k != "data-val-equalto-other" :: SameAttr(r, e, k)
    ensures EqualMember(vs).None? ==> r == e
    ensures EqualMember(vs).Some? ==> HasAttr(r, "data-val", "true")
    ensures EqualMember(vs).Some? ==> HasAttr(r, "data-val-equalto-other", EqualToOther(req, EqualMember(vs).value))
    ensures EqualMember(vs).Some? ==> AttrIs(r, "data-val-equalto", First(vs, IsEqual).value.propertyValidator.message)
  {
    match EqualMember(vs)
    case None => e
    case Some(member) =>
      var v := First(vs, IsEqual).value;
      var withMessage := WithAttr(e.(attrs := e.attrs["data-val" := "true"]), "data-val-equalto", v.propertyValidator.message);
      withMessage.(attrs := withMessage.attrs["data-val-equalto-other" := EqualToOther(req, member)])
  }

  /** The regex message: the validator's own, else one naming the expression. */
  function RegexMessage(v: PropertyValidator): string
    requires v.RegularExpressionValidator?
  {
    v.message.GetOr(RegexFallback + v.expression + "'")
  }

  /** `AddRegexData`: the first regex validator's expression and message. */
  function RegexEffect(vs: seq<ValidatorResult>, e: Element): (r: Element)
    ensures SameShape(r, e)
    ensures forall k | k != "data-val" && k != "data-val-regex" && k != "data-val-regex-pattern" :: SameAttr(r, e, k)
    ensures First(vs, IsRegex).None? ==> r == e
    ensures First(vs, IsRegex).Some? ==> HasAttr(r, "data-val", "true")
    ensures First(vs, IsRegex).Some? ==> HasAttr(r, "data-val-regex", RegexMessage(First(vs, IsRegex).value.propertyValidator))
    ensures First(vs, IsRegex).Some? ==> HasAttr(r, "data-val-regex-pattern", First(vs, IsRegex).value.propertyValidator.expression)
  {
    match First(vs, IsRegex)
    case None => e
    case Some(v) =>
      e.(attrs := e.attrs["data-val" := "true"]["data-val-regex" := RegexMessage(v.propertyValidator)]
                          ["data-val-regex-pattern" := v.propertyValidator.expression])
  }

  /** `AddEmailData`: the first email validator's message, else a fixed one. */
  function EmailEffect(vs: seq<ValidatorResult>, e: Element): (r: Element)
    ensures SameShape(r, e)
    ensures forall k | k != "data-val" && k != "data-val-email" :: SameAttr(r, e, k)
    ensures First(vs, IsEmail).None? ==> r == e
    ensures First(vs, IsEmail).Some? ==> HasAttr(r, "data-val", "true")
    ensures First(vs, IsEmail).Some? ==>
      HasAttr(r, "data-val-email", First(vs, IsEmail).value.propertyValidator.message.GetOr(EmailFallback))
  {
    match First(vs, IsEmail)
    case None => e
    case Some(v) => e.(attrs := e.attrs["data-val" := "true"]["data-val-email" := v.propertyValidator.message.GetOr(EmailFallback)])
  }

  /** What one provider does to the tag; `AddCreditCardClass` does nothing. */
  function Effect(p: RuleProvider, vs: seq<ValidatorResult>, req: RequestView, e: Element): (r: Element)
    ensures SameShape(r, e)
    ensures forall k | k !in Keys(p) :: SameAttr(r, e, k)
  {
    match p
    case AddLengthClasses => LengthEffect(vs, e)
    case AddRequiredClass => RequiredEffect(vs, e)
    case AddCreditCardClass => e
    case AddEqualToDataAttr => EqualToEffect(vs, req, e)
    case AddRegexData => RegexEffect(vs, e)
    case AddEmailData => EmailEffect(vs, e)
  }

  /** The providers `ps`, run in order. */
  function Applied(ps: seq<RuleProvider>, vs: seq<ValidatorResult>, req: RequestView, e: Element): (r: Element)
    ensures r.tagName == e.tagName && r.classes == e.classes && r.text == e.text && r.children == e.children
  {
    if ps == [] then e else Applied(ps[1..], vs, req, Effect(ps[0], vs, req, e))
  }

  /** Whether any provider writes `data-val`. */
  predicate SetsDataVal(vs: seq<ValidatorResult>) {
    First(vs, IsRequired).Some? || EqualMember(vs).Some? || First(vs, IsRegex).Some? || First(vs, IsEmail).Some?
  }

  /** After all six providers, `maxlength` is the first length validator's maximum, or untouched without one. */
  lemma LengthOutcome(vs: seq<ValidatorResult>, req: RequestView, e: Element)
    ensures First(vs, IsLength).Some? ==> HasAttr(Applied(RuleProviders, vs, req, e), "maxlength", IntToString(First(vs, IsLength).value.propertyValidator.max))
    ensures First(vs, IsLength).None? ==> SameAttr(Applied(RuleProviders, vs, req, e), e, "maxlength")
  {
    var e1 := LengthEffect(vs, e);
    var e2 := RequiredEffect(vs, e1);
    var e4 := EqualToEffect(vs, req, e2);
    var e5 := RegexEffect(vs, e4);
    var e6 := EmailEffect(vs, e5);
    AppliedSix(vs, req, e);
    assert SameAttr(e2, e1, "maxlength") && SameAttr(e4, e2, "maxlength");
    assert SameAttr(e5, e4, "maxlength") && SameAttr(e6, e5, "maxlength");
  }

  /** `data-val-required` is the first not-empty or not-null validator's message, or untouched without one. */
  lemma RequiredOutcome(vs: seq<ValidatorResult>, req: RequestView, e: Element)
    ensures First(vs, IsRequired).Some? ==> HasAttr(Applied(RuleProviders, vs, req, e), "data-val-required", First(vs, IsRequired).value.propertyValidator.message.GetOr(""))
    ensures First(vs, IsRequired).None? ==> SameAttr(Applied(RuleProviders, vs, req, e), e, "data-val-required")
  {
    var e1 := LengthEffect(vs, e);
    var e2 := RequiredEffect(vs, e1);
    var e4 := EqualToEffect(vs, req, e2);
    var e5 := RegexEffect(vs, e4);
    var e6 := EmailEffect(vs, e5);
    AppliedSix(vs, req, e);
    assert SameAttr(e1, e, "data-val-required") && SameAttr(e4, e2, "data-val-required");
    assert SameAttr(e5, e4, "data-val-required") && SameAttr(e6, e5, "data-val-required");
  }

  /** The equal-to attributes appear only when the first equal-to validator compares with a member. */
  lemma EqualToOutcome(vs: seq<ValidatorResult>, req: RequestView, e: Element)
    ensures EqualMember(vs).Some? ==> HasAttr(Applied(RuleProviders, vs, req, e), "data-val-equalto-other", EqualToOther(req, EqualMember(vs).value))
    ensures EqualMember(vs).Some? ==> AttrIs(Applied(RuleProviders, vs, req, e), "data-val-equalto", First(vs, IsEqual).value.propertyValidator.message)
    ensures EqualMember(vs).None? ==> SameAttr(Applied(RuleProviders, vs, req, e), e, "data-val-equalto-other") && SameAttr(Applied(RuleProviders, vs, req, e), e, "data-val-equalto")
  {
    var e1 := LengthEffect(vs, e);
    var e2 := RequiredEffect(vs, e1);
    var e4 := EqualToEffect(vs, req, e2);
    var e5 := RegexEffect(vs, e4);
    var e6 := EmailEffect(vs, e5);
    AppliedSix(vs, req, e);
    assert SameAttr(e1, e, "data-val-equalto-other") && SameAttr(e2, e1, "data-val-equalto-other");
    assert SameAttr(e5, e4, "data-val-equalto-other") && SameAttr(e6, e5, "data-val-equalto-other");
    assert SameAttr(e1, e, "data-val-equalto") && SameAttr(e2, e1, "data-val-equalto");
    assert SameAttr(e5, e4, "data-val-equalto") && SameAttr(e6, e5, "data-val-equalto");
  }

  /** The first regex validator's expression becomes `data-val-regex-pattern`; without one it is untouched. */
  lemma RegexPatternOutcome(vs: seq<ValidatorResult>, req: RequestView, e: Element)
    ensures First(vs, IsRegex).Some? ==> HasAttr(Applied(RuleProviders, vs, req, e), "data-val-regex-pattern", First(vs, IsRegex).value.propertyValidator.expression)
    ensures First(vs, IsRegex).None? ==> SameAttr(Applied(RuleProviders, vs, req, e), e, "data-val-regex-pattern")
  {
    var e1 := LengthEffect(vs, e);
    var e2 := RequiredEffect(vs, e1);
    var e4 := EqualToEffect(vs, req, e2);
    var e5 := RegexEffect(vs, e4);
    var e6 := EmailEffect(vs, e5);
    AppliedSix(vs, req, e);
  }

  /** The first regex validator's message, with the fixed fallback, becomes `data-val-regex`; without one it is untouched. */
  lemma RegexMessageOutcome(vs: seq<ValidatorResult>, req: RequestView, e: Element)
    ensures First(vs, IsRegex).Some? ==> HasAttr(Applied(RuleProviders, vs, req, e), "data-val-regex", RegexMessage(First(vs, IsRegex).value.propertyValidator))
    ensures First(vs, IsRegex).None? ==> SameAttr(Applied(RuleProviders, vs, req, e), e, "data-val-regex")
  {
    var e1 := LengthEffect(vs, e);
    var e2 := RequiredEffect(vs, e1);
    var e4 := EqualToEffect(vs, req, e2);
    var e5 := RegexEffect(vs, e4);
    var e6 := EmailEffect(vs, e5);
    AppliedSix(vs, req, e);
  }

  /** The first email validator's message, with the fixed fallback message. */
  lemma EmailOutcome(vs: seq<ValidatorResult>, req: RequestView, e: Element)
    ensures First(vs, IsEmail).Some? ==> HasAttr(Applied(RuleProviders, vs, req, e), "data-val-email", First(vs, IsEmail).value.propertyValidator.message.GetOr(EmailFallback))
    ensures First(vs, IsEmail).None? ==> SameAttr(Applied(RuleProviders, vs, req, e), e, "data-val-email")
  {
    var e1 := LengthEffect(vs, e);
    var e2 := RequiredEffect(vs, e1);
    var e4 := EqualToEffect(vs, req, e2);
    var e5 := RegexEffect(vs, e4);
    var e6 := EmailEffect(vs, e5);
    AppliedSix(vs, req, e);
    assert SameAttr(e1, e, "data-val-email") && SameAttr(e2, e1, "data-val-email");
    assert SameAttr(e4, e2, "data-val-email") && SameAttr(e5, e4, "data-val-email");
  }

  /** `data-val` is "true" exactly when some rule fired, else untouched. */
  lemma DataValOutcome(vs: seq<ValidatorResult>, req: RequestView, e: Element)
    ensures SetsDataVal(vs) ==> HasAttr(Applied(RuleProviders, vs, req, e), "data-val", "true")
    ensures !SetsDataVal(vs) ==> SameAttr(Applied(RuleProviders, vs, req, e), e, "data-val")
  {
    var e1 := LengthEffect(vs, e);
    var e2 := RequiredEffect(vs, e1);
    var e4 := EqualToEffect(vs, req, e2);
    var e5 := RegexEffect(vs, e4);
    var e6 := EmailEffect(vs, e5);
    AppliedSix(vs, req, e);
    assert SameAttr(e2, e1, "data-val") || HasAttr(e2, "data-val", "true");
  }

  /** The attributes some provider may write. */
  const ProviderKeys: set<string> :=
    {"maxlength", "data-val", "data-val-required", "data-val-equalto", "data-val-equalto-other",
     "data-val-regex", "data-val-regex-pattern", "data-val-email"}

  /** No other attribute, and nothing else of the tag, changes. */
  lemma OtherAttributesKept(vs: seq<ValidatorResult>, req: RequestView, e: Element, k: string)
    requires k !in ProviderKeys
    ensures SameShape(Applied(RuleProviders, vs, req, e), e)
    ensures SameAttr(Applied(RuleProviders, vs, req, e), e, k)
  {
    var e1 := LengthEffect(vs, e);
    var e2 := RequiredEffect(vs, e1);
    var e4 := EqualToEffect(vs, req, e2);
    var e5 := RegexEffect(vs, e4);
    var e6 := EmailEffect(vs, e5);
    AppliedSix(vs, req, e);
  }

  lemma AppliedSix(vs: seq<ValidatorResult>, req: RequestView, e: Element)
    ensures Applied(RuleProviders, vs, req, e) ==
      EmailEffect(vs, RegexEffect(vs, EqualToEffect(vs, req, RequiredEffect(vs, LengthEffect(vs, e)))))
  {
    var ps := RuleProviders;
    var e1 := Effect(ps[0], vs, req, e);
    assert ps[1..] == [AddRequiredClass, AddCreditCardClass, AddEqualToDataAttr, AddRegexData, AddEmailData];
    var e2 := Effect(ps[1], vs, req, e1);
    assert ps[1..][1..] == ps[2..];
    var e3 := Effect(ps[2], vs, req, e2);
    assert ps[2..][1..] == ps[3..];
    var e4 := Effect(ps[3], vs, req, e3);
    assert ps[3..][1..] == ps[4..];
    var e5 := Effect(ps[4], vs, req, e4);
    assert ps[4..][1..] == ps[5..];
    var e6 := Effect(ps[5], vs, req, e5);
    assert ps[5..][1..] == [];
    assert Applied(ps[5..], vs, req, e5) == e6;
    assert Applied(ps[4..], vs, req, e4) == e6;
    assert Applied(ps[3..], vs, req, e3) == e6;
    assert Applied(ps[2..], vs, req, e2) == e6;
    assert Applied(ps[1..], vs, req, e1) == e6;
  }

  /** One provider: `ruleProvider.Invoke(propertyValidators, h, r)`. */
  method ApplyProvider(p: RuleProvider, vs: seq<ValidatorResult>, req: RequestView, h: HtmlTag)
    modifies h
    ensures h.Snapshot() == Effect(p, vs, req, old(h.Snapshot()))
  {
    var e := Effect(p, vs, req, h.Snapshot());
    h.tagName, h.attrs, h.classes, h.text, h.children := e.tagName, e.attrs, e.classes, e.text, e.children;
  }

  /** The input modifier: every provider in registration order. */
  method Modify(vs: seq<ValidatorResult>, req: RequestView, h: HtmlTag)
    modifies h
    ensures h.Snapshot() == Applied(RuleProviders, vs, req, old(h.Snapshot()))
  {
    ghost var start := h.Snapshot();
    for i := 0 to |RuleProviders|
      invariant Applied(RuleProviders[i..], vs, req, h.Snapshot()) == Applied(RuleProviders, vs, req, start)
    {
      assert RuleProviders[i..][1..] == RuleProviders[i + 1..];
      ApplyProvider(RuleProviders[i], vs, req, h);
    }
  }
}
