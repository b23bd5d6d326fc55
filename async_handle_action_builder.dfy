/** `AsyncActionResultBuilder.Actions`: the request is sent before the model state is checked. */
module AsyncHandleActionBuilder {
  import opened Wrappers
  import opened Mediation
  import MediatrResultBuilder

  /** `Send`: the request is always sent once; an invalid model with an error handler then answers. */
  function SendThenCheck<Q, R, T>(request: Q, conditions: seq<Condition<R, T>>, success: Option<R -> T>,
                                  error: Option<() -> T>, modelStateValid: bool, reply: Q -> R): (r: SendRun<Q, T>)
    ensures r.sent == [request]
    ensures error.Some? && !modelStateValid ==> r.result == Some(error.value())
    ensures error.None? || modelStateValid ==> r.result == FirstOrSuccess(conditions, success, reply(request))
  {
    SendRun(if error.Some? && !modelStateValid then Some(error.value()) else FirstOrSuccess(conditions, success, reply(request)), [request])
  }

  /** The two builders give the same result; they differ only in sending when the error handler answers. */
  lemma SameResultDifferentSends<Q, R, T>(request: Q, conditions: seq<Condition<R, T>>, success: Option<R -> T>,
                                          error: Option<() -> T>, modelStateValid: bool, reply: Q -> R)
    ensures SendThenCheck(request, conditions, success, error, modelStateValid, reply).result
         == MediatrResultBuilder.CheckThenSend(request, conditions, success, error, modelStateValid, reply).result
    ensures SendThenCheck(request, conditions, success, error, modelStateValid, reply).sent
         != MediatrResultBuilder.CheckThenSend(request, conditions, success, error, modelStateValid, reply).sent
        <==> error.Some? && !modelStateValid
  {
  }

  class Actions<Q, R, T> {
    const request: Q
    const mediator: Mediator<Q, R>
    var conditions: seq<Condition<R, T>>
    var error: Option<() -> T>
    var success: Option<R -> T>

    constructor(request: Q, mediator: Mediator<Q, R>)
      ensures this.request == request && this.mediator == mediator
      ensures conditions == [] && error.None? && success.None?
    {
      this.request := request;
      this.mediator := mediator;
      conditions := [];
      error := None;
      success := None;
    }

    method On(holds: R -> bool, result: R -> T)
      modifies this
      ensures conditions == old(conditions) + [Condition(holds, result)]
      ensures error == old(error) && success == old(success)
    {
      conditions := conditions + [Condition(holds, result)];
    }

    method Error(f: () -> T)
      modifies this
      ensures error == Some(f)
      ensures conditions == old(conditions) && success == old(success)
    {
      error := Some(f);
    }

    method Success(f: R -> T)
      modifies this
      ensures success == Some(f)
      ensures conditions == old(conditions) && error == old(error)
    {
      success := Some(f);
    }

    method Send(modelStateValid: bool) returns (r: Option<T>)
      modifies mediator
      ensures r == SendThenCheck(request, conditions, success, error, modelStateValid, mediator.reply).result
      ensures mediator.sent == old(mediator.sent) + SendThenCheck(request, conditions, success, error, modelStateValid, mediator.reply).sent
    {
      var response := mediator.Send(request);
      if error.Some? && !modelStateValid {
        return Some(error.value());
      }
      r := SelectResult(conditions, success, response);
    }
  }
}
