/**
 * `UpdateDockerResourcesWithPulumi.perform`: bring a stack up with a program
 * that declares the infrastructure and then the Docker resources, and turn
 * the answer of `up` into exactly one event. The method runs on the concrete
 * Azure operation (AzureDockerResourcesUpdate); this module holds the event
 * builders and states what it returns.
 */
module DockerResourcesUpdate {
  import opened Wrappers
  import opened Events
  import opened Backend

  /** The program `perform` selects the stack with: `declare_infrastructure`, then `declare_docker_resources`. */
  const DockerResourcesProgram: Program := [DeclareInfrastructureStep, DeclareDockerResourcesStep(None)]

  /** `_build_DockerResourcesUpdateFailed`: the request's stack and metadata, chained to the request. */
  function BuildDockerResourcesUpdateFailed(request: Event, newId: EventId): (e: Event)
    requires request.DockerResourcesUpdateRequested?
    ensures e.DockerResourcesUpdateFailed? && e.id == newId
    ensures CausedBy(e, request) && SameStack(e, request) && e.metadata == request.metadata
  {
    DockerResourcesUpdateFailed(newId, CausalChain(request), request.identity, request.metadata)
  }

  /**
   * `_build_DockerResourcesUpdated_from_outcome`, which no class of this
   * repository implements: built like the failure event.
   */
  function BuildDockerResourcesUpdated(request: Event, newId: EventId): (e: Event)
    requires request.DockerResourcesUpdateRequested?
    ensures e.DockerResourcesUpdated? && e.id == newId
    ensures CausedBy(e, request) && SameStack(e, request) && e.metadata == request.metadata
  {
    DockerResourcesUpdated(newId, CausalChain(request), request.identity, request.metadata)
  }

  /** What `perform` returns: one event (not a list), or the exception other than `CommandError` that escapes it. */
  function PerformResult(request: Event, response: Outcome, newId: EventId): (r: Result<Event, Raised>)
    requires request.DockerResourcesUpdateRequested?
    ensures r.Success? <==> !response.UnexpectedError?
    ensures response.Succeeded? ==> r == Success(BuildDockerResourcesUpdated(request, newId))
    ensures response.CommandError? ==> r == Success(BuildDockerResourcesUpdateFailed(request, newId))
    ensures response.UnexpectedError? ==> r == Failure(Propagated(response.message))
  {
    match response
    case Succeeded(_) => Success(BuildDockerResourcesUpdated(request, newId))
    case CommandError(_) => Success(BuildDockerResourcesUpdateFailed(request, newId))
    case UnexpectedError(message) => Failure(Propagated(message))
  }

  /** Success and failure are told apart by the event class alone: both carry the same chain, stack and metadata. */
  lemma OutcomesDifferOnlyInClass(request: Event, newId: EventId)
    requires request.DockerResourcesUpdateRequested?
    ensures BuildDockerResourcesUpdated(request, newId) != BuildDockerResourcesUpdateFailed(request, newId)
    ensures BuildDockerResourcesUpdated(request, newId).previousEventIds == BuildDockerResourcesUpdateFailed(request, newId).previousEventIds
    ensures BuildDockerResourcesUpdated(request, newId).identity == BuildDockerResourcesUpdateFailed(request, newId).identity
  {
  }
}
