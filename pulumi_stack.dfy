/**
 * `PulumiStack`: the oldest stack abstraction, keyed by its identity. Its
 * `up` runs on the concrete Azure stack (AzureStack), which inherits it; this
 * module states what it returns, and models `down`.
 */
module PulumiStack {
  import opened Wrappers
  import opened Events
  import opened Backend

  /** The program `up` selects the stack with: one call to `declare_infrastructure`. */
  const StackProgram: Program := [DeclareInfrastructureStep]

  /**
   * What `up` returns once the backend has answered `response`: on success
   * an InfrastructureUpdated naming the stack (built without a chain), on a
   * `CommandError` no event at all.
   */
  function UpResult(identity: Identity, response: Outcome, newId: EventId): (r: Result<Option<Event>, Raised>)
    ensures r.Success? <==> !response.UnexpectedError?
    ensures r.Success? ==> (r.value.Some? <==> response.Succeeded?)
    ensures r.Success? && r.value.Some? ==>
              r.value.value.InfrastructureUpdated? && r.value.value.id == newId && r.value.value.identity == identity
              && r.value.value.previousEventIds == [] && r.value.value.metadata == map[]
    ensures response.UnexpectedError? ==> r == Failure(Propagated(response.message))
  {
    match response
    case Succeeded(_) => Success(Some(InfrastructureUpdated(newId, [], identity, map[])))
    case CommandError(_) => Success(None)
    case UnexpectedError(message) => Failure(Propagated(message))
  }

  /** `down` is not implemented: it always raises. */
  function Down(): (r: Result<(), Raised>)
    ensures r.Failure? && r.error.NotImplementedError?
  {
    Failure(NotImplementedError)
  }
}
