/**
  The invoker-backed action builders: fluent setters that choose the handlers, and
  `ExecuteResult`, which checks the model state, calls the invoker and picks the result.
 */
module HandleActionBuilders {
  import opened Wrappers
  import opened Linq

  /** The framework's `ActionContext`; its model state is valid or not. */
  datatype ActionContext = ActionContext(modelStateValid: bool, requestPath: string)

  /** An action result a handler returns; its contents are the application's. */
  datatype ActionResult = ActionResult(description: string)

  type Handler = ActionContext -> ActionResult

  /** The three `IInvoker` entry points, each recorded with its argument. */
  datatype Call<I> =
    | ExecuteVoid(inputModel: Option<I>)     // `void Execute(object)`
    | ExecuteWith(argument: I)               // `TOutput Execute<TOutput>(object)`
    | ExecuteWithout                         // `TOutput Execute<TOutput>()`

  /** The invoker: every call is appended to `trace`; `reply` is what a typed call returns. */
  class Invoker<I, R> {
    var trace: seq<Call<I>>
    const reply: Call<I> -> R

    constructor(reply: Call<I> -> R)
      ensures trace == [] && this.reply == reply
    {
      trace := [];
      this.reply := reply;
    }

    method Execute(inputModel: Option<I>)
      modifies this
      ensures trace == old(trace) + [ExecuteVoid(inputModel)]
    {
      trace := trace + [ExecuteVoid(inputModel)];
    }

    method ExecuteTyped(c: Call<I>) returns (r: R)
      modifies this
      ensures trace == old(trace) + [c] && r == reply(c)
    {
      trace := trace + [c];
      r := reply(c);
    }
  }

  /** What one `ExecuteResult` does: the result (or exception) and the invoker calls made. */
  datatype Run<I> = Run(result: Result<Option<ActionResult>>, calls: seq<Call<I>>)

  /** Whether the error handler answers without calling the invoker. */
  predicate ErrorAnswers(ctx: ActionContext, error: Option<Handler>) {
    !ctx.modelStateValid && error.Some?
  }

  // ---- HandleActionBuilder<T> ----

  /** `HandleActionBuilder<T>.HandleActionResult.ExecuteResult`. */
  function InputRun<I>(inputModel: Option<I>, success: Option<Handler>, error: Option<Handler>, ctx: ActionContext): (r: Run<I>)
    ensures r.result.Ok?
    ensures ErrorAnswers(ctx, error) ==> r.calls == [] && r.result.value == Some(error.value(ctx))
    ensures !ErrorAnswers(ctx, error) ==> r.calls == [ExecuteVoid(inputModel)]
    ensures !ErrorAnswers(ctx, error) ==> (r.result.value.None? <==> success.None?)
    ensures !ErrorAnswers(ctx, error) && success.Some? ==> r.result.value == Some(success.value(ctx))
  {
    if ErrorAnswers(ctx, error) then Run(Ok(Some(error.value(ctx))), [])
    else Run(Ok(if success.Some? then Some(success.value(ctx)) else None), [ExecuteVoid(inputModel)])
  }

  /** `HandleActionBuilder<T>`: the input model, the invoker, and the last handlers set. */
  class InputBuilder<I, R(!new)> {
    const inputModel: Option<I>
    const invoker: Invoker<I, R>
    var success: Option<Handler>
    var error: Option<Handler>

    constructor(inputModel: Option<I>, invoker: Invoker<I, R>)
      ensures this.inputModel == inputModel && this.invoker == invoker
      ensures success.None? && error.None?
    {
      this.inputModel := inputModel;
      this.invoker := invoker;
      success := None;
      error := None;
    }

    /** `OnSuccess(Func<ActionContext, ActionResult>)`: replaces any earlier success handler. */
    method OnSuccess(h: Handler)
      modifies this
      ensures success == Some(h) && error == old(error)
    {
      success := Some(h);
    }

    /** `OnSuccess(Func<ActionResult>)`: the thunk, ignoring the context. */
    method OnSuccessThunk(f: () -> ActionResult)
      modifies this
      ensures success.Some? && error == old(error)
      ensures forall c :: success.value(c) == f()
    {
      success := Some(_ => f());
    }

    method OnModelError(h: Handler)
      modifies this
      ensures error == Some(h) && success == old(success)
    {
      error := Some(h);
    }

    method OnModelErrorThunk(f: () -> ActionResult)
      modifies this
      ensures error.Some? && success == old(success)
      ensures forall c :: error.value(c) == f()
    {
      error := Some(_ => f());
    }

    /** `Returning<TRet>()`: a typed builder carrying this builder's input, invoker and handlers. */
    method Returning() returns (b: TypedBuilder<I, R>)
      ensures fresh(b)
      ensures b.inputModel == inputModel && b.invoker == invoker && b.conditions == []
      ensures b.success == Lift(success) && b.error == error
    {
      b := new TypedBuilder(inputModel, invoker, success, error);
    }

    method ExecuteResult(ctx: ActionContext) returns (r: Option<ActionResult>)
      modifies invoker
      ensures Ok(r) == InputRun(inputModel, old(success), old(error), ctx).result
      ensures invoker.trace == old(invoker.trace) + InputRun(inputModel, old(success), old(error), ctx).calls
    {
      if !ctx.modelStateValid && error.Some? {
        return Some(error.value(ctx));
      }
      invoker.Execute(inputModel);
      r := if success.Some? then Some(success.value(ctx)) else None;
    }
  }

  // ---- HandleActionBuilder (no input) ----

  /** `HandleActionBuilder`: no input model; only its handlers and `Returning`. */
  class UntypedBuilder<I, R(!new)> {
    const invoker: Invoker<I, R>
    var success: Option<Handler>
    var error: Option<Handler>

    constructor(invoker: Invoker<I, R>)
      ensures this.invoker == invoker && success.None? && error.None?
    {
      this.invoker := invoker;
      success := None;
      error := None;
    }

    method OnSuccess(h: Handler)
      modifies this
      ensures success == Some(h) && error == old(error)
    {
      success := Some(h);
    }

    method OnSuccessThunk(f: () -> ActionResult)
      modifies this
      ensures success.Some? && error == old(error)
      ensures forall c :: success.value(c) == f()
    {
      success := Some(_ => f());
    }

    method OnModelError(h: Handler)
      modifies this
      ensures error == Some(h) && success == old(success)
    {
      error := Some(h);
    }

    method OnModelErrorThunk(f: () -> ActionResult)
      modifies this
      ensures error.Some? && success == old(success)
      ensures forall c :: error.value(c) == f()
    {
      error := Some(_ => f());
    }

    /** `Returning<TRet>()`: a typed builder with a null input model. */
    method Returning() returns (b: TypedBuilder<I, R>)
      ensures fresh(b)
      ensures b.inputModel.None? && b.invoker == invoker && b.conditions == []
      ensures b.success == Lift(success) && b.error == error
    {
      b := new TypedBuilder(None, invoker, success, error);
    }
  }

  // ---- HandleActionBuilder<T, TRet> ----

  /** A registered `On(condition, result)` pair. */
  datatype Condition<!R> = Condition(holds: (R, ActionContext) -> bool, result: (R, ActionContext) -> ActionResult)

  /**
    The typed builder's success handler. `NullDelegate` is a non-null delegate whose
    body calls a null one: invoking it throws.
   */
  datatype SuccessSlot<!R> = NoSuccess | Success(f: (R, ActionContext) -> ActionResult) | NullDelegate

  function Invoke<R>(s: SuccessSlot<R>, response: R, ctx: ActionContext): (r: Result<Option<ActionResult>>)
    ensures s.NoSuccess? <==> r == Ok(None)
    ensures s.NullDelegate? <==> r.Throws?
    ensures s.Success? ==> r == Ok(Some(s.f(response, ctx)))
  {
    match s
    case NoSuccess => Ok(None)
    case Success(f) => Ok(Some(f(response, ctx)))
    case NullDelegate => Throws(NullReference)
  }

  /** The constructor's lift of an untyped success handler, as written: a null one becomes `NullDelegate`. */
  function LiftAsWritten<R(!new)>(success: Option<Handler>): (r: SuccessSlot<R>)
    ensures success.None? ==> r.NullDelegate?
    ensures success.Some? ==> r.Success? && forall x, c :: r.f(x, c) == success.value(c)
  {
    if success.Some? then Success((_, c) => success.value(c)) else NullDelegate
  }

  /** The lift as evidently intended: a null handler stays null, so a null result is returned as by the untyped builder. */
  function Lift<R(!new)>(success: Option<Handler>): (r: SuccessSlot<R>)
    ensures success.None? ==> r.NoSuccess?
    ensures success.Some? ==> r.Success? && forall x, c :: r.f(x, c) == success.value(c)
  {
    if success.Some? then Success((_, c) => success.value(c)) else NoSuccess
  }

  /** The first condition that holds on the response picks the result; when none holds, the success handler does. */
  function Dispatch<R>(conditions: seq<Condition<R>>, success: SuccessSlot<R>, response: R, ctx: ActionContext): (r: Result<Option<ActionResult>>)
    ensures forall i | 0 <= i < |conditions| && conditions[i].holds(response, ctx)
      && (forall j | 0 <= j < i :: !conditions[j].holds(response, ctx)) ::
        r == Ok(Some(conditions[i].result(response, ctx)))
    ensures (forall i | 0 <= i < |conditions| :: !conditions[i].holds(response, ctx)) ==>
      r == Invoke(success, response, ctx)
  {
    match FirstMatch(conditions, (c: Condition<R>) => c.holds(response, ctx))
    case Some(i) => Ok(Some(conditions[i].result(response, ctx)))
    case None => Invoke(success, response, ctx)
  }

  /** Conditions registered after one that holds are never consulted. */
  lemma DispatchIgnoresLater<R>(conditions: seq<Condition<R>>, later: seq<Condition<R>>, success: SuccessSlot<R>, response: R, ctx: ActionContext)
    requires exists i | 0 <= i < |conditions| :: conditions[i].holds(response, ctx)
    ensures Dispatch(conditions + later, success, response, ctx) == Dispatch(conditions, success, response, ctx)
  {
    var k := FirstMatch(conditions, (c: Condition<R>) => c.holds(response, ctx));
    var i := k.value;
    var all := conditions + later;
    assert all[i] == conditions[i];
    assert forall j | 0 <= j < i :: all[j] == conditions[j];
  }

  /** The invoker call the typed builder makes: without an argument exactly when the input model is null. */
  function TypedCall<I>(inputModel: Option<I>): (c: Call<I>)
    ensures inputModel.None? <==> c.ExecuteWithout?
    ensures inputModel.Some? ==> c == ExecuteWith(inputModel.value)
  {
    if inputModel.None? then ExecuteWithout else ExecuteWith(inputModel.value)
  }

  /** `HandleActionBuilder<T, TRet>.HandleActionResult.ExecuteResult`. */
  function TypedRun<I, R>(inputModel: Option<I>, conditions: seq<Condition<R>>, success: SuccessSlot<R>,
                          error: Option<Handler>, ctx: ActionContext, reply: Call<I> -> R): (r: Run<I>)
    ensures ErrorAnswers(ctx, error) ==> r == Run(Ok(Some(error.value(ctx))), [])
    ensures !ErrorAnswers(ctx, error) ==> r.calls == [TypedCall(inputModel)]
    ensures !ErrorAnswers(ctx, error) ==> r.result == Dispatch(conditions, success, reply(TypedCall(inputModel)), ctx)
  {
    if ErrorAnswers(ctx, error) then Run(Ok(Some(error.value(ctx))), [])
    else
      var c := TypedCall(inputModel);
      Run(Dispatch(conditions, success, reply(c), ctx), [c])
  }

  /**
    As written, a typed builder made by `Returning` from a builder without a success
    handler throws when no condition holds; with the intended lift it returns null.
   */
  lemma ReturningWithoutSuccessThrows<I, R(!new)>(inputModel: Option<I>, reply: Call<I> -> R, path: string)
    ensures TypedRun(inputModel, [], LiftAsWritten(None), None, ActionContext(true, path), reply).result == Throws(NullReference)
    ensures TypedRun(inputModel, [], Lift(None), None, ActionContext(true, path), reply).result == Ok(None)
  {
  }

  /** With the intended lift, a success handler carried by `Returning` is applied to the context alone. */
  lemma ReturningCarriesSuccess<I, R(!new)>(inputModel: Option<I>, success: Option<Handler>, ctx: ActionContext, reply: Call<I> -> R)
    requires !ErrorAnswers(ctx, None)
    ensures TypedRun(inputModel, [], Lift(success), None, ctx, reply).result
         == Ok(if success.Some? then Some(success.value(ctx)) else None)
  {
  }

  /** `HandleActionBuilder<T, TRet>`. */
  class TypedBuilder<I, R(!new)> {
    const inputModel: Option<I>
    const invoker: Invoker<I, R>
    var conditions: seq<Condition<R>>
    var success: SuccessSlot<R>
    var error: Option<Handler>

    constructor(inputModel: Option<I>, invoker: Invoker<I, R>, successResult: Option<Handler>, errorResult: Option<Handler>)
      ensures this.inputModel == inputModel && this.invoker == invoker
      ensures conditions == [] && success == Lift(successResult) && error == errorResult
    {
      this.inputModel := inputModel;
      this.invoker := invoker;
      conditions := [];
      success := Lift(successResult);
      error := errorResult;
    }

    /** `On(Func<TRet, bool>, Func<TRet, ActionResult>)`: appended, ignoring the context. */
    method On(holds: R -> bool, result: R -> ActionResult)
      modifies this
      ensures |conditions| == |old(conditions)| + 1 && conditions[..|old(conditions)|] == old(conditions)
      ensures forall x, c :: conditions[|old(conditions)|].holds(x, c) == holds(x)
      ensures forall x, c :: conditions[|old(conditions)|].result(x, c) == result(x)
      ensures success == old(success) && error == old(error)
    {
      conditions := conditions + [Condition((x, _) => holds(x), (x, _) => result(x))];
    }

    /** `On(Func<TRet, ActionContext, bool>, Func<TRet, ActionContext, ActionResult>)`. */
    method OnWithContext(cond: Condition<R>)
      modifies this
      ensures conditions == old(conditions) + [cond]
      ensures success == old(success) && error == old(error)
    {
      conditions := conditions + [cond];
    }

    method OnSuccess(f: R -> ActionResult)
      modifies this
      ensures success.Success? && forall x, c :: success.f(x, c) == f(x)
      ensures conditions == old(conditions) && error == old(error)
    {
      success := Success((x, _) => f(x));
    }

    method OnSuccessWithContext(f: (R, ActionContext) -> ActionResult)
      modifies this
      ensures success == Success(f)
      ensures conditions == old(conditions) && error == old(error)
    {
      success := Success(f);
    }

    method OnModelError(h: Handler)
      modifies this
      ensures error == Some(h)
      ensures conditions == old(conditions) && success == old(success)
    {
      error := Some(h);
    }

    method OnModelErrorThunk(f: () -> ActionResult)
      modifies this
      ensures error.Some? && forall c :: error.value(c) == f()
      ensures conditions == old(conditions) && success == old(success)
    {
      error := Some(_ => f());
    }

    method ExecuteResult(ctx: ActionContext) returns (r: Result<Option<ActionResult>>)
      modifies invoker
      ensures r == TypedRun(inputModel, old(conditions), old(success), old(error), ctx, invoker.reply).result
      ensures invoker.trace == old(invoker.trace) + TypedRun(inputModel, old(conditions), old(success), old(error), ctx, invoker.reply).calls
    {
      if !ctx.modelStateValid && error.Some? {
        return Ok(Some(error.value(ctx)));
      }
      var response := invoker.ExecuteTyped(TypedCall(inputModel));
      var i := 0;
      while i < |conditions|
        invariant 0 <= i <= |conditions|
        invariant forall j | 0 <= j < i :: !conditions[j].holds(response, ctx)
      {
        if conditions[i].holds(response, ctx) {
          return Ok(Some(conditions[i].result(response, ctx)));
        }
        i := i + 1;
      }
      r := Invoke(success, response, ctx);
    }
  }
}
