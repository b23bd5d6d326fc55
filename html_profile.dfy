/**
  The per-request slots of `HttpContext.Items` that the HTML helpers keep: the active HTML
  profile context, which nested `Profile` calls stack through their parent links, and the
  input type of the form being rendered.
 */
module HtmlProfiles {
  import opened Wrappers
  import opened Clr
  import UrlExtensions

  /** The key `HtmlProfileContext.SchostackWebProfile`. */
  const SchostackWebProfile: string := "__schostack.web.profile"

  /**
    Keys of `HttpContext.Items`: the profile slot, the form-input-type slot (the key
    `TagGenerator.FORMINPUTTYPE`), and any other key the application uses.
   */
  datatype ItemKey = ProfileSlot | FormInputTypeSlot | OtherSlot(name: string)

  /** Values stored in `HttpContext.Items`. */
  datatype ItemValue = ProfileContextItem(context: HtmlProfileContext) | TypeItem(t: ClrType) | OtherItem(payload: string)

  /** An `IHtmlProfile`, identified by name; its conventions are not part of this model. */
  datatype HtmlProfile = HtmlProfile(profileName: string)

  /** `HttpContext.Items` of one request. */
  class HttpItems {
    var items: map<ItemKey, ItemValue>

    constructor (items: map<ItemKey, ItemValue>)
      ensures this.items == items
    {
      this.items := items;
    }
  }

  // ---- The slot effects on the items map ----

  /** `Items[SchostackWebProfile] as HtmlProfileContext`. */
  function ExistingContext(m: map<ItemKey, ItemValue>): (r: HtmlProfileContext?)
    ensures r != null <==> ProfileSlot in m && m[ProfileSlot].ProfileContextItem?
    ensures r != null ==> m[ProfileSlot] == ProfileContextItem(r)
  {
    if ProfileSlot in m && m[ProfileSlot].ProfileContextItem? then m[ProfileSlot].context else null
  }

  /** The slot a new profile context is written to. */
  function WithContext(m: map<ItemKey, ItemValue>, ctx: HtmlProfileContext): (r: map<ItemKey, ItemValue>)
    ensures ExistingContext(r) == ctx
    ensures forall k | k != ProfileSlot :: (k in r <==> k in m) && (k in m ==> r[k] == m[k])
  {
    m[ProfileSlot := ProfileContextItem(ctx)]
  }

  /** What `Dispose` leaves: the slot removed when there is no parent, else the parent written back. */
  function Disposed(m: map<ItemKey, ItemValue>, parent: HtmlProfileContext?): (r: map<ItemKey, ItemValue>)
    ensures ExistingContext(r) == parent
    ensures parent == null ==> ProfileSlot !in r
    ensures forall k | k != ProfileSlot :: (k in r <==> k in m) && (k in m ==> r[k] == m[k])
  {
    if parent == null then m - {ProfileSlot} else m[ProfileSlot := ProfileContextItem(parent)]
  }

  /** Disposing twice leaves what disposing once leaves. */
  lemma DisposeIdempotent(m: map<ItemKey, ItemValue>, parent: HtmlProfileContext?)
    ensures Disposed(Disposed(m, parent), parent) == Disposed(m, parent)
  {
  }

  /**
    `Profile` then `Dispose` of the context it created restores the items exactly, provided
    the slot was empty or held a profile context (anything else there is dropped).
   */
  lemma ProfileThenDisposeRestores(m: map<ItemKey, ItemValue>, ctx: HtmlProfileContext)
    requires ProfileSlot !in m || m[ProfileSlot].ProfileContextItem?
    ensures Disposed(WithContext(m, ctx), ExistingContext(m)) == m
  {
    var r := Disposed(WithContext(m, ctx), ExistingContext(m));
    assert forall k :: k in r <==> k in m;
  }

  /** A slot holding something other than a profile context is lost by `Profile` then `Dispose`. */
  lemma ProfileThenDisposeDropsForeignValue(m: map<ItemKey, ItemValue>, ctx: HtmlProfileContext)
    requires ProfileSlot in m && !m[ProfileSlot].ProfileContextItem?
    ensures ProfileSlot !in Disposed(WithContext(m, ctx), ExistingContext(m))
  {
  }

  /** Two nested profiles unwind last in, first out. */
  lemma NestedProfilesUnwind(m: map<ItemKey, ItemValue>, outer: HtmlProfileContext, inner: HtmlProfileContext)
    requires ProfileSlot !in m || m[ProfileSlot].ProfileContextItem?
    ensures var m1 := WithContext(m, outer);
      var m2 := WithContext(m1, inner);
      ExistingContext(m1) == outer
      && Disposed(m2, ExistingContext(m1)) == m1
      && Disposed(Disposed(m2, ExistingContext(m1)), ExistingContext(m)) == m
  {
    var m1 := WithContext(m, outer);
    ProfileThenDisposeRestores(m1, inner);
    ProfileThenDisposeRestores(m, outer);
  }

  /** The input type the request data reads back: `Items[FORMINPUTTYPE] as Type`. */
  function CurrentInputType(m: map<ItemKey, ItemValue>): (r: Option<ClrType>)
    ensures r.Some? <==> FormInputTypeSlot in m && m[FormInputTypeSlot].TypeItem?
    ensures r.Some? ==> m[FormInputTypeSlot] == TypeItem(r.value)
  {
    if FormInputTypeSlot in m && m[FormInputTypeSlot].TypeItem? then Some(m[FormInputTypeSlot].t) else None
  }

  /** Beginning a form records its input type; ending it clears the slot; neither touches another key. */
  lemma FormSlotRoundTrip(m: map<ItemKey, ItemValue>, t: ClrType)
    ensures CurrentInputType(m[FormInputTypeSlot := TypeItem(t)]) == Some(t)
    ensures CurrentInputType(m[FormInputTypeSlot := TypeItem(t)] - {FormInputTypeSlot}).None?
    ensures FormInputTypeSlot !in m ==> m[FormInputTypeSlot := TypeItem(t)] - {FormInputTypeSlot} == m
  {
  }

  // ---- The classes ----

  /** `HtmlProfileContext`: the profile in force, the one it replaced, and the request's items. */
  class HtmlProfileContext {
    const items: HttpItems
    const htmlProfile: HtmlProfile
    var parentHtmlProfileContext: HtmlProfileContext?

    constructor (items: HttpItems, htmlProfile: HtmlProfile, parentHtmlProfileContext: HtmlProfileContext?)
      ensures this.items == items && this.htmlProfile == htmlProfile
      ensures this.parentHtmlProfileContext == parentHtmlProfileContext
    {
      this.items := items;
      this.htmlProfile := htmlProfile;
      this.parentHtmlProfileContext := parentHtmlProfileContext;
    }

    /** `Dispose`: hand the slot back to the parent context, or empty it when there is none. */
    method Dispose()
      modifies items
      ensures items.items == Disposed(old(items.items), parentHtmlProfileContext)
    {
      if parentHtmlProfileContext == null {
        items.items := items.items - {ProfileSlot};
      } else {
        items.items := items.items[ProfileSlot := ProfileContextItem(parentHtmlProfileContext)];
      }
    }
  }

  /** `Profile(profile)`: a new context whose parent is the current one, stored in the slot and returned. */
  method Profile(items: HttpItems, profile: HtmlProfile) returns (ctx: HtmlProfileContext)
    modifies items
    ensures fresh(ctx) && ctx.items == items && ctx.htmlProfile == profile
    ensures ctx.parentHtmlProfileContext == ExistingContext(old(items.items))
    ensures items.items == WithContext(old(items.items), ctx)
  {
    var existingContext := ExistingContext(items.items);
    ctx := new HtmlProfileContext(items, profile, existingContext);
    items.items := items.items[ProfileSlot := ProfileContextItem(ctx)];
  }

  /** `Class(condition, className)`: the class name when the condition holds, else null. */
  function Class(condition: bool, className: string): (r: Option<string>)
    ensures r.Some? <==> condition
    ensures r.Some? ==> r.value == className
  {
    if condition then Some(className) else None
  }

  /** `InputTypeMvcForm`: a form whose end also clears the form-input-type slot. */
  class InputTypeMvcForm {
    const items: HttpItems

    constructor (items: HttpItems)
      ensures this.items == items
    {
      this.items := items;
    }

    /** `GenerateEndForm`; writing the closing tag is not part of this model. */
    method GenerateEndForm()
      modifies items
      ensures items.items == old(items.items) - {FormInputTypeSlot}
    {
      items.items := items.items - {FormInputTypeSlot};
    }
  }

  /** `GenerateForm(inputType, …)`: records the input type for the inputs rendered inside the form. */
  method GenerateForm(inputType: ClrType, items: HttpItems) returns (form: InputTypeMvcForm)
    modifies items
    ensures fresh(form) && form.items == items
    ensures items.items == old(items.items)[FormInputTypeSlot := TypeItem(inputType)]
    ensures CurrentInputType(items.items) == Some(inputType)
  {
    items.items := items.items[FormInputTypeSlot := TypeItem(inputType)];
    form := new InputTypeMvcForm(items);
  }

  /** `Form(model, modifier)`: the action URL is `For(model)`, the input type the model's runtime type. */
  method Form<M>(url: UrlExtensions.UrlHelper<M>, model: UrlExtensions.Model<M>, items: HttpItems)
    returns (form: InputTypeMvcForm, action: UrlExtensions.RouteUrlCall)
    modifies items, model
    ensures model.state == old(model.state)
    ensures action == UrlExtensions.RouteUrlCall(TypeName(model.runtimeType),
      UrlExtensions.MergedRouteValues(url.generate(model.state), url.ambient))
    ensures fresh(form) && form.items == items
    ensures items.items == old(items.items)[FormInputTypeSlot := TypeItem(model.runtimeType)]
  {
    action := UrlExtensions.For(url, model);
    form := GenerateForm(model.runtimeType, items);
  }

  /** `FormEnd()`: clears the form-input-type slot and yields the closing tag. */
  method FormEnd(items: HttpItems) returns (html: string)
    modifies items
    ensures html == "</form>"
    ensures items.items == old(items.items) - {FormInputTypeSlot}
    ensures CurrentInputType(items.items).None?
  {
    items.items := items.items - {FormInputTypeSlot};
    html := "</form>";
  }
}
