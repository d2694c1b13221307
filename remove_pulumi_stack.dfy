/**
 * `RemovePulumiStack.remove`: select the stack with a program that declares
 * nothing, destroy it, and report the outcome as one event.
 */
module InfrastructureRemoval {
  import opened Wrappers
  import opened Events
  import opened Backend

  /** `do_nothing`: the program removal selects the stack with. */
  const DoNothingProgram: Program := []

  /** What `remove` returns once `destroy` has answered `response`. */
  function RemovalResult(request: Event, response: Outcome, newId: EventId): (r: Result<Event, Raised>)
    requires request.InfrastructureRemovalRequested?
    ensures r.Success? <==> !response.UnexpectedError?
    ensures r.Success? ==> (r.value.InfrastructureRemoved? <==> response.Succeeded?)
    ensures r.Success? ==> (r.value.InfrastructureRemovalFailed? <==> response.CommandError?)
    ensures r.Success? ==> r.value.id == newId && CausedBy(r.value, request) && SameStack(r.value, request)
    ensures response.UnexpectedError? ==> r == Failure(Propagated(response.message))
  {
    match response
    case Succeeded(_) => Success(InfrastructureRemoved(newId, CausalChain(request), request.identity, map[]))
    case CommandError(_) => Success(InfrastructureRemovalFailed(newId, CausalChain(request), request.identity, map[]))
    case UnexpectedError(message) => Failure(Propagated(message))
  }

  /** The calls a run of `remove` made on the backend, and what it returned or raised. */
  datatype RemovalRun = RemovalRun(calls: seq<BackendCall>, result: Result<Event, Raised>)

  /**
   * `remove` as written: the location is read from a name `event` that is
   * not bound in the method, so it raises once the stack is selected,
   * whatever the backend would have answered.
   */
  function RemoveAsWritten(request: Event): (run: RemovalRun)
    requires request.InfrastructureRemovalRequested?
    ensures run.result.Failure? && run.result.error.NameError?
    ensures |run.calls| == 1 && run.calls[0].CreateOrSelectStack?
  {
    RemovalRun([CreateOrSelectStack(request.identity.stackName, request.identity.projectName, DoNothingProgram)],
               Failure(NameError("event")))
  }

  /**
   * As written, no removal request is ever answered with an event and the
   * stack is never destroyed; the intended `remove` answers every request
   * the backend answers with success or a `CommandError`.
   */
  lemma UnboundEventBlocksRemoval(request: Event, response: Outcome, newId: EventId)
    requires request.InfrastructureRemovalRequested?
    ensures Destroy !in RemoveAsWritten(request).calls
    ensures RemoveAsWritten(request).result.Failure?
    ensures !response.UnexpectedError? ==> RemovalResult(request, response, newId).Success?
    ensures Destroy in DestroyCalls(request.identity, DoNothingProgram)
  {
    assert DestroyCalls(request.identity, DoNothingProgram)[3] == Destroy;
  }

  class RemovePulumiStack {
    const event: Event
    var outcome: Option<StackResult>

    ghost predicate Valid()
      reads this
    {
      event.InfrastructureRemovalRequested?
    }

    constructor (event: Event)
      requires event.InfrastructureRemovalRequested?
      ensures Valid() && this.event == event && outcome == None
    {
      this.event := event;
      outcome := None;
    }

    /**
     * Selects the stack, sets its location (the request's: the source reads an
     * unbound `event` here), refreshes it and destroys it. No resource is
     * declared and `up` is never called.
     */
    method Remove(engine: Engine, response: Outcome, newId: EventId) returns (result: Result<Event, Raised>)
      requires Valid()
      modifies this`outcome, engine`calls
      ensures engine.calls == old(engine.calls) + DestroyCalls(event.identity, DoNothingProgram)
      ensures outcome == RecordOutcome(old(outcome), response)
      ensures result == RemovalResult(event, response, newId)
    {
      engine.CreateOrSelectStack(event.identity.stackName, event.identity.projectName, DoNothingProgram);
      engine.SetConfig(LocationConfigKey, event.identity.location);
      engine.Refresh();
      engine.Destroy();
      match response {
        case Succeeded(r) =>
          outcome := Some(r);
          result := Success(InfrastructureRemoved(newId, CausalChain(event), event.identity, map[]));
        case CommandError(_) =>
          result := Success(InfrastructureRemovalFailed(newId, CausalChain(event), event.identity, map[]));
        case UnexpectedError(message) =>
          result := Failure(Propagated(message));
      }
    }
  }
}
