/**
 * `UpdateAzureDockerResourcesWithPulumi`: the Azure operation that answers a
 * DockerResourcesUpdateRequested. It embeds an infrastructure operation for
 * the same stack, declares the base infrastructure through it and then the
 * web app and its pull-role grant in the same program, and builds the
 * Docker image events.
 */
module AzureDockerResourcesUpdate {
  import opened Wrappers
  import opened Events
  import opened Backend
  import opened AzureResources
  import DockerResourcesUpdate
  import Infrastructure = AzureInfrastructureUpdate

  /** The InfrastructureUpdateRequested the constructor embeds: the same stack, chained to the request. */
  function EmbeddedRequest(request: Event, embeddedId: EventId): (e: Event)
    requires request.DockerResourcesUpdateRequested?
    ensures e.InfrastructureUpdateRequested? && e.id == embeddedId
    ensures CausedBy(e, request) && SameStack(e, request) && e.metadata == map[]
  {
    InfrastructureUpdateRequested(embeddedId, CausalChain(request), request.identity, map[])
  }

  /**
   * What `declare_docker_resources` adds to a log that holds `base` steps:
   * the base infrastructure, built through the embedded operation, then the
   * web app, the pull-role definition and the pull-role assignment, each
   * created right after it is built.
   */
  function DockerResourcesDeclarations(identity: Identity, image: ImageReference, base: Handle): seq<Step> {
    Infrastructure.InfrastructureDeclarations(identity, base) +
    DeclareAndCreateEach(DockerResources(identity, image, base + 3, base + 1, base + 2, base + 4, base, base + 5, base + 7), base + 5)
  }

  /** The Docker part of the declarations, step by step. */
  lemma DockerResourcesSteps(identity: Identity, image: ImageReference, base: Handle)
    ensures DockerResourcesDeclarations(identity, image, base) == Infrastructure.InfrastructureDeclarations(identity, base) +
      [ Declared(Declaration(WebApp, identity, [base + 3, base + 1, base + 2, base + 4, base], Some(image))),
        Created(base + 5),
        Declared(Declaration(DockerPullRoleDefinition, identity, [base + 4, base], None)),
        Created(base + 7),
        Declared(Declaration(DockerPullRoleAssignment, identity, [base + 5, base + 7, base + 4, base], None)),
        Created(base + 9) ]
  {
    var ds := DockerResources(identity, image, base + 3, base + 1, base + 2, base + 4, base, base + 5, base + 7);
    assert DeclareAndCreateEach(ds[2..], base + 9) == [Declared(ds[2]), Created(base + 9)];
    assert DeclareAndCreateEach(ds[1..], base + 7) == [Declared(ds[1]), Created(base + 7)] + DeclareAndCreateEach(ds[2..], base + 9);
  }

  /**
   * The base infrastructure is declared before the Docker resources, and each
   * resource once; the web app gets the request's image, the role assignment
   * the web app and role definition of the same call, and each Docker
   * resource is created straight after it is built.
   */
  lemma DockerResourcesDeclarationOrder(identity: Identity, image: ImageReference, base: Handle)
    ensures var s := DockerResourcesDeclarations(identity, image, base);
      && DeclaredKinds(s) == InfrastructureKinds + DockerKinds
      && |s| == 11
      && s[5] == Declared(Declaration(WebApp, identity, [base + 3, base + 1, base + 2, base + 4, base], Some(image)))
      && s[6] == Created(base + 5)
      && s[7].Declared? && s[7].declaration.kind == DockerPullRoleDefinition && s[8] == Created(base + 7)
      && s[9] == Declared(Declaration(DockerPullRoleAssignment, identity, [base + 5, base + 7, base + 4, base], None))
      && s[10] == Created(base + 9)
  {
    var ds := DockerResources(identity, image, base + 3, base + 1, base + 2, base + 4, base, base + 5, base + 7);
    Infrastructure.InfrastructureDeclarationOrder(identity, base);
    DeclareAndCreateEachKinds(ds, base + 5);
    DockerResourcesShape(identity, image, base + 3, base + 1, base + 2, base + 4, base, base + 5, base + 7);
    DeclaredKindsAppend(Infrastructure.InfrastructureDeclarations(identity, base), DeclareAndCreateEach(ds, base + 5));
    DockerResourcesSteps(identity, image, base);
  }

  /** Appended to a well-formed log, the Docker resources only name resources declared before them. */
  lemma DockerResourcesDeclarationsWellFormed(log: seq<Step>, identity: Identity, image: ImageReference)
    requires WellFormed(log)
    ensures WellFormed(log + DockerResourcesDeclarations(identity, image, |log|))
  {
    var b := |log|;
    Infrastructure.InfrastructureDeclarationsWellFormed(log, identity);
    var first := log + Infrastructure.InfrastructureDeclarations(identity, b);
    var ds := DockerResources(identity, image, b + 3, b + 1, b + 2, b + 4, b, b + 5, b + 7);
    assert forall h | b <= h < b + 5 :: first[h].Declared?;
    DeclareAndCreateEachWellFormed(first, ds);
    assert first + DeclareAndCreateEach(ds, b + 5) == log + DockerResourcesDeclarations(identity, image, b);
  }

  /**
   * `request_docker_image`: asks for the image licdata:latest for the Azure
   * variant, passing on the registry secret and url.
   */
  function RequestDockerImage(secretName: string, registryUrl: string, newId: EventId): (e: Event)
    ensures e.DockerImageRequested? && e.id == newId
    ensures e.imageName == "licdata" && e.imageVersion == "latest"
    ensures e.metadata.Keys == {"variant", "python_version", "azure_base_image_version", "credential_name", "docker_registry_url"}
    ensures e.metadata["variant"] == Some("azure") && e.metadata["python_version"] == Some("3.11")
    ensures e.metadata["azure_base_image_version"] == Some("4")
    ensures e.metadata["credential_name"] == Some(secretName) && e.metadata["docker_registry_url"] == Some(registryUrl)
  {
    DockerImageRequested(newId, [], "licdata", "latest",
      map["variant" := Some("azure"), "python_version" := Some("3.11"), "azure_base_image_version" := Some("4"),
          "credential_name" := Some(secretName), "docker_registry_url" := Some(registryUrl)])
  }

  /** `push_docker_image`: reports the requested image as pushed, chained to the request. */
  function PushDockerImage(request: Event, newId: EventId): (e: Event)
    requires request.DockerImagePushRequested?
    ensures e.DockerImagePushed? && e.id == newId && CausedBy(e, request)
    ensures e.imageName == request.imageName && e.imageVersion == request.imageVersion
    ensures e.imageUrl == request.imageUrl && e.registryUrl == request.registryUrl
    ensures e.metadata == request.metadata
  {
    DockerImagePushed(newId, CausalChain(request), request.imageName, request.imageVersion,
                      request.imageUrl, request.registryUrl, request.metadata)
  }

  /** `instantiate` always raises: the operation is only built from a request. */
  function Instantiate(): (r: Result<(), Raised>)
    ensures r.Failure? && r.error.InvalidOperationError?
  {
    Failure(InvalidOperationError("Cannot instantiate UpdateAzureDockerResourcesWithPulumi directly"))
  }

  class UpdateAzureDockerResourcesWithPulumi {
    const event: Event
    const infrastructure: Infrastructure.UpdateAzureInfrastructureWithPulumi
    var outcome: Option<StackResult>
    var webApp: Option<Handle>
    var dockerPullRoleDefinition: Option<Handle>
    var dockerPullRoleAssignment: Option<Handle>

    /** The request is a Docker update and the embedded operation answers the request derived from it. */
    ghost predicate Valid()
      reads this, infrastructure
    {
      && event.DockerResourcesUpdateRequested?
      && infrastructure.Valid()
      && infrastructure.event == EmbeddedRequest(event, infrastructure.event.id)
    }

    /** The three Docker fields hold the handles `DockerResourcesDeclarations(_, _, base)` gives them. */
    ghost predicate HoldsDockerResourcesAt(base: Handle)
      reads this
    {
      webApp == Some(base + 5) && dockerPullRoleDefinition == Some(base + 7) && dockerPullRoleAssignment == Some(base + 9)
    }

    /** Builds the embedded infrastructure operation (its request gets the id `embeddedId`); no resource is declared yet. */
    constructor (event: Event, embeddedId: EventId)
      requires event.DockerResourcesUpdateRequested?
      ensures Valid() && this.event == event && fresh(infrastructure)
      ensures infrastructure.event == EmbeddedRequest(event, embeddedId)
      ensures outcome == None && webApp == None && dockerPullRoleDefinition == None && dockerPullRoleAssignment == None
      ensures infrastructure.outcome == None && infrastructure.resourceGroup == None && infrastructure.containerRegistry == None
      ensures infrastructure.functionStorageAccount == None && infrastructure.appServicePlan == None && infrastructure.appInsights == None
    {
      this.event := event;
      infrastructure := new Infrastructure.UpdateAzureInfrastructureWithPulumi(EmbeddedRequest(event, embeddedId));
      outcome := None;
      dockerPullRoleDefinition, dockerPullRoleAssignment, webApp := None, None, None;
    }

    /**
     * `declare_docker_resources`: declares the base infrastructure through the
     * embedded operation, then the web app, the role definition and the role
     * assignment, calling `create()` on each.
     */
    method DeclareDockerResources(engine: Engine)
      requires Valid() && engine.Valid()
      modifies this, infrastructure, engine`log
      ensures Valid() && engine.Valid()
      ensures outcome == old(outcome) && infrastructure.outcome == old(infrastructure.outcome)
      ensures engine.log == old(engine.log) +
                DockerResourcesDeclarations(event.identity, ImageReference(event.imageName, event.imageVersion), |old(engine.log)|)
      ensures infrastructure.HoldsInfrastructureAt(|old(engine.log)|) && HoldsDockerResourcesAt(|old(engine.log)|)
    {
      var identity := event.identity;
      infrastructure.DeclareInfrastructure(engine);
      var group := infrastructure.resourceGroup.value;
      var registry := infrastructure.containerRegistry.value;
      var app := engine.DeclareAndCreate(Declaration(WebApp, identity,
        [infrastructure.appInsights.value, infrastructure.functionStorageAccount.value,
         infrastructure.appServicePlan.value, registry, group],
        Some(ImageReference(event.imageName, event.imageVersion))));
      webApp := Some(app);
      var definition := engine.DeclareAndCreate(Declaration(DockerPullRoleDefinition, identity, [registry, group], None));
      dockerPullRoleDefinition := Some(definition);
      var assignment := engine.DeclareAndCreate(Declaration(DockerPullRoleAssignment, identity, [app, definition, registry, group], None));
      dockerPullRoleAssignment := Some(assignment);
      DockerResourcesSteps(identity, ImageReference(event.imageName, event.imageVersion), |old(engine.log)|);
    }

    /**
     * The inherited `perform`: selects the stack with the Docker program, sets
     * its location, refreshes it and brings it up. When the backend runs the
     * program (`programRan`, which every success implies), it declares the
     * infrastructure and then the Docker resources; a `CommandError` raised
     * before the program runs declares nothing. `_outcome` is set only on
     * success.
     */
    method Perform(engine: Engine, response: Outcome, programRan: bool, newId: EventId) returns (result: Result<Event, Raised>)
      requires Valid() && engine.Valid()
      requires response.Succeeded? ==> programRan
      modifies this, infrastructure, engine
      ensures Valid() && engine.Valid()
      ensures engine.calls == old(engine.calls) + UpCalls(event.identity, DockerResourcesUpdate.DockerResourcesProgram)
      ensures programRan ==>
                engine.log == old(engine.log) +
                DockerResourcesDeclarations(event.identity, ImageReference(event.imageName, event.imageVersion), |old(engine.log)|)
      ensures programRan ==> infrastructure.HoldsInfrastructureAt(|old(engine.log)|) && HoldsDockerResourcesAt(|old(engine.log)|)
      ensures !programRan ==> engine.log == old(engine.log) && unchanged(this, infrastructure)
      ensures outcome == RecordOutcome(old(outcome), response) && infrastructure.outcome == old(infrastructure.outcome)
      ensures result == DockerResourcesUpdate.PerformResult(event, response, newId)
    {
      engine.CreateOrSelectStack(event.identity.stackName, event.identity.projectName, DockerResourcesUpdate.DockerResourcesProgram);
      engine.SetConfig(LocationConfigKey, event.identity.location);
      engine.Refresh();
      engine.Up();
      if programRan {
        DeclareDockerResources(engine);
      }
      match response {
        case Succeeded(r) =>
          outcome := Some(r);
          result := Success(DockerResourcesUpdate.BuildDockerResourcesUpdated(event, newId));
        case CommandError(_) =>
          result := Success(DockerResourcesUpdate.BuildDockerResourcesUpdateFailed(event, newId));
        case UnexpectedError(message) =>
          result := Failure(Propagated(message));
      }
    }
  }
}
