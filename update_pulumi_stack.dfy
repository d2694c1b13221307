/**
 * `UpdatePulumiStack`: the older stack-update operation. Its declare methods
 * are abstract and no class of this repository implements them, so the model
 * records the program passed to the backend but does not run it.
 */
module StackUpdate {
  import opened Wrappers
  import opened Events
  import opened Backend
  import InfrastructureUpdate

  /** What `up` returns for the operation's own request, once `up` on the backend has answered `response`. */
  function UpResult(request: Event, response: Outcome, newId: EventId): (r: Result<seq<Event>, Raised>)
    requires request.InfrastructureUpdateRequested?
    ensures r.Success? <==> !response.UnexpectedError?
    ensures r.Success? ==> |r.value| == 1
    ensures r.Success? ==> (r.value[0].InfrastructureUpdated? <==> response.Succeeded?)
    ensures r.Success? ==> (r.value[0].InfrastructureUpdateFailed? <==> response.CommandError?)
    ensures r.Success? ==> r.value[0].id == newId && CausedBy(r.value[0], request) && SameStack(r.value[0], request)
    ensures response.UnexpectedError? ==> r == Failure(Propagated(response.message))
  {
    match response
    case Succeeded(_) => Success([InfrastructureUpdated(newId, CausalChain(request), request.identity, map[])])
    case CommandError(_) => Success([InfrastructureUpdateFailed(newId, CausalChain(request), request.identity, map[])])
    case UnexpectedError(message) => Failure(Propagated(message))
  }

  /** The program `up_docker_resources` selects the stack with: one `declare_docker_resources` call with the request's image and chain. */
  function DockerResourcesOnlyProgram(request: Event): (p: Program)
    requires request.DockerResourcesUpdateRequested?
    ensures |p| == 1 && p[0].DeclareDockerResourcesStep? && p[0].arguments.Some?
    ensures p[0].arguments.value.imageName == request.imageName
    ensures p[0].arguments.value.imageVersion == request.imageVersion
    ensures p[0].arguments.value.imageUrl == request.imageUrl
    ensures p[0].arguments.value.previousEventIds == CausalChain(request)
  {
    [DeclareDockerResourcesStep(Some(DockerResourcesArguments(request.imageName, request.imageVersion, request.imageUrl, CausalChain(request))))]
  }

  /** What `up_docker_resources` returns once `up` has answered `response`: one event, built from its argument. */
  function UpDockerResourcesResult(request: Event, response: Outcome, newId: EventId): (r: Result<Event, Raised>)
    requires request.DockerResourcesUpdateRequested?
    ensures r.Success? <==> !response.UnexpectedError?
    ensures r.Success? ==> (r.value.DockerResourcesUpdated? <==> response.Succeeded?)
    ensures r.Success? ==> (r.value.DockerResourcesUpdateFailed? <==> response.CommandError?)
    ensures r.Success? ==> r.value.id == newId && CausedBy(r.value, request) && SameStack(r.value, request)
    ensures response.UnexpectedError? ==> r == Failure(Propagated(response.message))
  {
    match response
    case Succeeded(_) => Success(DockerResourcesUpdated(newId, CausalChain(request), request.identity, map[]))
    case CommandError(_) => Success(DockerResourcesUpdateFailed(newId, CausalChain(request), request.identity, map[]))
    case UnexpectedError(message) => Failure(Propagated(message))
  }

  class UpdatePulumiStack {
    const event: Event
    var outcome: Option<StackResult>

    ghost predicate Valid()
      reads this
    {
      event.InfrastructureUpdateRequested?
    }

    constructor (event: Event)
      requires event.InfrastructureUpdateRequested?
      ensures Valid() && this.event == event && outcome == None
    {
      this.event := event;
      outcome := None;
    }

    /**
     * Brings the stack of the operation's own request up. The `request`
     * argument is not read: stack, chain and result all come from `event`.
     */
    method Up(engine: Engine, request: Event, response: Outcome, newId: EventId) returns (result: Result<seq<Event>, Raised>)
      requires Valid()
      modifies this`outcome, engine`calls
      ensures engine.calls == old(engine.calls) + UpCalls(event.identity, InfrastructureUpdate.InfrastructureProgram)
      ensures outcome == RecordOutcome(old(outcome), response)
      ensures result == UpResult(event, response, newId)
    {
      var events: seq<Event> := [];
      engine.CreateOrSelectStack(event.identity.stackName, event.identity.projectName, InfrastructureUpdate.InfrastructureProgram);
      engine.SetConfig(LocationConfigKey, event.identity.location);
      engine.Refresh();
      engine.Up();
      match response {
        case Succeeded(r) =>
          outcome := Some(r);
          // The source builds one more InfrastructureUpdated first and throws it away.
          events := events + [InfrastructureUpdated(newId, CausalChain(event), event.identity, map[])];
        case CommandError(_) =>
          events := events + [InfrastructureUpdateFailed(newId, CausalChain(event), event.identity, map[])];
        case UnexpectedError(message) =>
          return Failure(Propagated(message));
      }
      assert events == UpResult(event, response, newId).value;
      result := Success(events);
    }

    /** Brings up the Docker resources of `request`, which alone decides the stack and the event. */
    method UpDockerResources(engine: Engine, request: Event, response: Outcome, newId: EventId) returns (result: Result<Event, Raised>)
      requires request.DockerResourcesUpdateRequested?
      modifies this`outcome, engine`calls
      ensures engine.calls == old(engine.calls) + UpCalls(request.identity, DockerResourcesOnlyProgram(request))
      ensures outcome == RecordOutcome(old(outcome), response)
      ensures result == UpDockerResourcesResult(request, response, newId)
    {
      engine.CreateOrSelectStack(request.identity.stackName, request.identity.projectName, DockerResourcesOnlyProgram(request));
      engine.SetConfig(LocationConfigKey, request.identity.location);
      engine.Refresh();
      engine.Up();
      match response {
        case Succeeded(r) =>
          outcome := Some(r);
          result := Success(DockerResourcesUpdated(newId, CausalChain(request), request.identity, map[]));
        case CommandError(_) =>
          result := Success(DockerResourcesUpdateFailed(newId, CausalChain(request), request.identity, map[]));
        case UnexpectedError(message) =>
          result := Failure(Propagated(message));
      }
    }
  }
}
