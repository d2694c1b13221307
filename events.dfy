/**
 * The events that flow in and out of the stack operations: requests, their
 * terminal outcomes and the Docker image events. Every event carries its own
 * id and the ordered ids of the events that caused it.
 */
module Events {
  import opened Wrappers

  /** An event identifier, generated by the event library when an event is built. */
  type EventId = nat

  /** The natural key of a stack: its name, its project and its Azure location. */
  datatype Identity = Identity(stackName: string, projectName: string, location: string)

  /** Free-form metadata; a key may be bound to `None`. */
  type Metadata = map<string, Option<string>>

  /** One event class of the library per constructor. */
  datatype Event =
    | InfrastructureUpdateRequested(id: EventId, previousEventIds: seq<EventId>, identity: Identity, metadata: Metadata)
    | InfrastructureUpdated(id: EventId, previousEventIds: seq<EventId>, identity: Identity, metadata: Metadata)
    | InfrastructureUpdateFailed(id: EventId, previousEventIds: seq<EventId>, identity: Identity, metadata: Metadata)
    | InfrastructureRemovalRequested(id: EventId, previousEventIds: seq<EventId>, identity: Identity, metadata: Metadata)
    | InfrastructureRemoved(id: EventId, previousEventIds: seq<EventId>, identity: Identity, metadata: Metadata)
    | InfrastructureRemovalFailed(id: EventId, previousEventIds: seq<EventId>, identity: Identity, metadata: Metadata)
    | DockerResourcesUpdateRequested(id: EventId, previousEventIds: seq<EventId>, identity: Identity, metadata: Metadata,
                                     imageName: string, imageVersion: string, imageUrl: Option<string>)
    | DockerResourcesUpdated(id: EventId, previousEventIds: seq<EventId>, identity: Identity, metadata: Metadata)
    | DockerResourcesUpdateFailed(id: EventId, previousEventIds: seq<EventId>, identity: Identity, metadata: Metadata)
    | DockerResourcesRemovalRequested(id: EventId, previousEventIds: seq<EventId>, identity: Identity, metadata: Metadata)
    | DockerResourcesRemoved(id: EventId, previousEventIds: seq<EventId>, identity: Identity, metadata: Metadata)
    | DockerResourcesRemovalFailed(id: EventId, previousEventIds: seq<EventId>, identity: Identity, metadata: Metadata)
    | DockerImageDetailsRequested(id: EventId, previousEventIds: seq<EventId>, metadata: Metadata)
    | DockerImageRequested(id: EventId, previousEventIds: seq<EventId>, imageName: string, imageVersion: string, metadata: Metadata)
    | DockerImagePushRequested(id: EventId, previousEventIds: seq<EventId>, imageName: string, imageVersion: string,
                               imageUrl: Option<string>, registryUrl: Option<string>, metadata: Metadata)
    | DockerImagePushed(id: EventId, previousEventIds: seq<EventId>, imageName: string, imageVersion: string,
                        imageUrl: Option<string>, registryUrl: Option<string>, metadata: Metadata)
  {
    /** The events that name a stack. */
    predicate HasIdentity() {
      !DockerImageDetailsRequested? && !DockerImageRequested? && !DockerImagePushRequested? && !DockerImagePushed?
    }
  }

  /** The causal chain an event hands on to the events it causes: its own id, then its own chain. */
  function CausalChain(e: Event): (chain: seq<EventId>)
    ensures |chain| == |e.previousEventIds| + 1
    ensures chain[0] == e.id && chain[1..] == e.previousEventIds
  {
    [e.id] + e.previousEventIds
  }

  /** `result` was caused by `request`. */
  predicate CausedBy(result: Event, request: Event) {
    result.previousEventIds == CausalChain(request)
  }

  /** `result` names the same stack as `request`. */
  predicate SameStack(result: Event, request: Event) {
    result.HasIdentity() && request.HasIdentity() && result.identity == request.identity
  }

  /** `metadata.get(key, None)`. */
  function Get(metadata: Metadata, key: string): (v: Option<string>)
    ensures key !in metadata ==> v == None
    ensures key in metadata ==> v == metadata[key]
  {
    if key in metadata then metadata[key] else None
  }

  /**
   * Causality is prepend-only: an event caused by `request` lists the request's
   * id first and then every id of the request's own chain, in the same order.
   */
  lemma CausedByKeepsChain(result: Event, request: Event)
    requires CausedBy(result, request)
    ensures request.id in result.previousEventIds
    ensures forall i | 0 <= i < |request.previousEventIds| ::
              result.previousEventIds[i + 1] == request.previousEventIds[i]
  {
    assert result.previousEventIds[0] == request.id;
  }

  /**
   * Along a saga a -> b -> c, the chain of c starts with b's id, then a's id,
   * then a's own chain, so the saga can be read back in causal order.
   */
  lemma SagaChain(a: Event, b: Event, c: Event)
    requires CausedBy(b, a) && CausedBy(c, b)
    ensures c.previousEventIds == [b.id, a.id] + a.previousEventIds
  {
  }
}
