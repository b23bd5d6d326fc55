/**
  The mediator the MediatR builders send requests through, and the condition search both
  builders apply to its response.
 */
module Mediation {
  import opened Wrappers
  import opened Linq

  /** `IMediator`: every request sent is appended to `sent`; `reply` is the handler's response. */
  class Mediator<Q, R> {
    var sent: seq<Q>
    const reply: Q -> R

    constructor(reply: Q -> R)
      ensures sent == [] && this.reply == reply
    {
      sent := [];
      this.reply := reply;
    }

    method Send(request: Q) returns (response: R)
      modifies this
      ensures sent == old(sent) + [request] && response == reply(request)
    {
      sent := sent + [request];
      response := reply(request);
    }
  }

  /** A registered `On(condition, result)` pair; the task-returning and plain overloads coincide here. */
  datatype Condition<!R, T> = Condition(holds: R -> bool, result: R -> T)

  /**
    `FirstOrDefault(x => x.Condition(result))`, then the success handler: the first
    condition holding on the response picks the result, else the success handler, else null.
   */
  function FirstOrSuccess<R, T>(conditions: seq<Condition<R, T>>, success: Option<R -> T>, response: R): (r: Option<T>)
    ensures forall i | 0 <= i < |conditions| && conditions[i].holds(response)
      && (forall j | 0 <= j < i :: !conditions[j].holds(response)) ::
        r == Some(conditions[i].result(response))
    ensures (forall i | 0 <= i < |conditions| :: !conditions[i].holds(response)) ==>
      r == if success.Some? then Some(success.value(response)) else None
  {
    match FirstMatch(conditions, (c: Condition<R, T>) => c.holds(response))
    case Some(i) => Some(conditions[i].result(response))
    case None => if success.Some? then Some(success.value(response)) else None
  }

  /** Conditions registered after one that holds are never consulted. */
  lemma FirstOrSuccessIgnoresLater<R, T>(conditions: seq<Condition<R, T>>, later: seq<Condition<R, T>>, success: Option<R -> T>, response: R)
    requires exists i | 0 <= i < |conditions| :: conditions[i].holds(response)
    ensures FirstOrSuccess(conditions + later, success, response) == FirstOrSuccess(conditions, success, response)
  {
    var i := FirstMatch(conditions, (c: Condition<R, T>) => c.holds(response)).value;
    var all := conditions + later;
    assert all[i] == conditions[i];
    assert forall j | 0 <= j < i :: all[j] == conditions[j];
  }

  /** The search over the conditions, in registration order. */
  method SelectResult<R, T>(conditions: seq<Condition<R, T>>, success: Option<R -> T>, response: R) returns (r: Option<T>)
    ensures r == FirstOrSuccess(conditions, success, response)
  {
    for i := 0 to |conditions|
      invariant forall j | 0 <= j < i :: !conditions[j].holds(response)
    {
      if conditions[i].holds(response) {
        return Some(conditions[i].result(response));
      }
    }
    r := if success.Some? then Some(success.value(response)) else None;
  }

  /** What one `Send` does: its result (null when `None`) and the requests sent. */
  datatype SendRun<Q, T> = SendRun(result: Option<T>, sent: seq<Q>)
}
