/**
 * `RemoveDockerResourcesWithPulumi.perform`: a placeholder that calls no
 * backend and always reports the Docker resources as removed.
 */
module DockerResourcesRemoval {
  import opened Events

  /**
   * The one event `perform` returns (a single event, not a list). Its
   * failure branch sits behind `if True:` and cannot be taken, so it is not
   * modelled.
   */
  function Perform(request: Event, newId: EventId): (e: Event)
    requires request.DockerResourcesRemovalRequested?
    ensures e.DockerResourcesRemoved?
    ensures e.id == newId && CausedBy(e, request) && SameStack(e, request)
    ensures e.metadata == map[]
  {
    DockerResourcesRemoved(newId, CausalChain(request), request.identity, map[])
  }
}
