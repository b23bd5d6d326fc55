/** `MediatrResultBuilder.BuilderActions`: the model state is checked before the request is sent. */
module MediatrResultBuilder {
  import opened Wrappers
  import opened Mediation

  /** `Send`: an invalid model with an error handler answers without sending; otherwise the request is sent once. */
  function CheckThenSend<Q, R, T>(request: Q, conditions: seq<Condition<R, T>>, success: Option<R -> T>,
                                  error: Option<() -> T>, modelStateValid: bool, reply: Q -> R): (r: SendRun<Q, T>)
    ensures error.Some? && !modelStateValid ==> r == SendRun(Some(error.value()), [])
    ensures error.None? || modelStateValid ==> r.sent == [request]
    ensures error.None? || modelStateValid ==> r.result == FirstOrSuccess(conditions, success, reply(request))
  {
    if error.Some? && !modelStateValid then SendRun(Some(error.value()), [])
    else SendRun(FirstOrSuccess(conditions, success, reply(request)), [request])
  }

  class BuilderActions<Q, R, T> {
    const request: Q
    const mediator: Mediator<Q, R>
    var conditions: seq<Condition<R, T>>
    var error: Option<() -> T>
    var success: Option<R -> T>

    constructor(request: Q, mediator: Mediator<Q, R>)
      ensures this.request == request && this.mediator == mediator
      ensures conditions == [] && error.None? && success.None?
    {
      this.request := request;
      this.mediator := mediator;
      conditions := [];
      error := None;
      success := None;
    }

    /** `On`: appended after the earlier conditions. */
    method On(holds: R -> bool, result: R -> T)
      modifies this
      ensures conditions == old(conditions) + [Condition(holds, result)]
      ensures error == old(error) && success == old(success)
    {
      conditions := conditions + [Condition(holds, result)];
    }

    /** `Error`: replaces any earlier error handler. */
    method Error(f: () -> T)
      modifies this
      ensures error == Some(f)
      ensures conditions == old(conditions) && success == old(success)
    {
      error := Some(f);
    }

    /** `Success`: replaces any earlier success handler. */
    method Success(f: R -> T)
      modifies this
      ensures success == Some(f)
      ensures conditions == old(conditions) && error == old(error)
    {
      success := Some(f);
    }

    method Send(modelStateValid: bool) returns (r: Option<T>)
      modifies mediator
      ensures r == CheckThenSend(request, conditions, success, error, modelStateValid, mediator.reply).result
      ensures mediator.sent == old(mediator.sent) + CheckThenSend(request, conditions, success, error, modelStateValid, mediator.reply).sent
    {
      if error.Some? && !modelStateValid {
        return Some(error.value());
      }
      var response := mediator.Send(request);
      r := SelectResult(conditions, success, response);
    }
  }
}
