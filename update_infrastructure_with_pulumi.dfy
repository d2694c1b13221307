/**
 * `UpdateInfrastructureWithPulumi.perform`: bring a stack up with a program
 * that declares the infrastructure, and turn the answer of `up` into exactly
 * one terminal event. The method itself runs on the concrete Azure operation
 * (AzureInfrastructureUpdate), which inherits it; this module states what it
 * returns.
 */
module InfrastructureUpdate {
  import opened Wrappers
  import opened Events
  import opened Backend

  /** The program `perform` selects the stack with: one call to `declare_infrastructure`. */
  const InfrastructureProgram: Program := [DeclareInfrastructureStep]

  /** The one event `perform` returns once `up` has answered `response` with success or a `CommandError`. */
  function TerminalEvent(request: Event, response: Outcome, newId: EventId): (e: Event)
    requires request.InfrastructureUpdateRequested?
    requires !response.UnexpectedError?
    ensures e.InfrastructureUpdated? <==> response.Succeeded?
    ensures e.InfrastructureUpdateFailed? <==> response.CommandError?
    ensures e.id == newId && CausedBy(e, request) && SameStack(e, request)
    ensures e.metadata == request.metadata
  {
    if response.Succeeded? then
      InfrastructureUpdated(newId, CausalChain(request), request.identity, request.metadata)
    else
      InfrastructureUpdateFailed(newId, CausalChain(request), request.identity, request.metadata)
  }

  /** What `perform` returns: a one-event list, or the exception other than `CommandError` that escapes it. */
  function PerformResult(request: Event, response: Outcome, newId: EventId): (r: Result<seq<Event>, Raised>)
    requires request.InfrastructureUpdateRequested?
    ensures r.Success? <==> !response.UnexpectedError?
    ensures r.Success? ==> |r.value| == 1 && r.value[0] == TerminalEvent(request, response, newId)
    ensures response.UnexpectedError? ==> r == Failure(Propagated(response.message))
  {
    if response.UnexpectedError? then Failure(Propagated(response.message))
    else Success([TerminalEvent(request, response, newId)])
  }

  /** The failure event does not carry the error text: any two `CommandError`s give the same event. */
  lemma FailureCarriesNoErrorText(request: Event, first: string, second: string, newId: EventId)
    requires request.InfrastructureUpdateRequested?
    ensures TerminalEvent(request, CommandError(first), newId) == TerminalEvent(request, CommandError(second), newId)
  {
  }

  /** The success event does not depend on the stack outputs either. */
  lemma SuccessIgnoresOutputs(request: Event, first: StackResult, second: StackResult, newId: EventId)
    requires request.InfrastructureUpdateRequested?
    ensures TerminalEvent(request, Succeeded(first), newId) == TerminalEvent(request, Succeeded(second), newId)
  {
  }
}
