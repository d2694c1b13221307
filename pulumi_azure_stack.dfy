/**
 * `PulumiAzureStack`: the Azure stack keyed by stack name, project and
 * location. It declares the base infrastructure, calling `create()` on each
 * resource as soon as it is built, declares the Docker-dependent resources
 * on top of it, maps the stack outputs to registry credentials, and builds
 * the Docker image events; `up` is the one it inherits from `PulumiStack`.
 */
module AzureStack {
  import opened Wrappers
  import opened Events
  import opened Backend
  import opened AzureResources
  import PulumiStack
  import AzureInfrastructureUpdate
  import AzureDockerResourcesUpdate

  /** What `declare_infrastructure` adds to a log that holds `base` steps: each base resource built, then created. */
  function StackInfrastructureDeclarations(identity: Identity, base: Handle): seq<Step> {
    DeclareAndCreateEach(InfrastructureResources(identity, base), base)
  }

  /** What `declare_docker_resources` adds: the base infrastructure, then each Docker resource built and created. */
  function StackDockerDeclarations(identity: Identity, image: ImageReference, base: Handle): seq<Step> {
    StackInfrastructureDeclarations(identity, base) + DockerDeclarationsAt(identity, image, base)
  }

  /** The Docker half of `StackDockerDeclarations`, for a stack whose infrastructure starts at `b`. */
  function DockerDeclarationsAt(identity: Identity, image: ImageReference, b: Handle): seq<Step> {
    DeclareAndCreateEach(DockerResources(identity, image, b + 6, b + 2, b + 4, b + 8, b, b + 10, b + 12), b + 10)
  }

  /** The infrastructure declarations, step by step. */
  lemma StackInfrastructureSteps(identity: Identity, base: Handle)
    ensures StackInfrastructureDeclarations(identity, base) ==
      [ Declared(Declaration(ResourceGroup, identity, [], None)), Created(base),
        Declared(Declaration(FunctionStorageAccount, identity, [base], None)), Created(base + 2),
        Declared(Declaration(AppServicePlan, identity, [base], None)), Created(base + 4),
        Declared(Declaration(AppInsights, identity, [base], None)), Created(base + 6),
        Declared(Declaration(ContainerRegistry, identity, [base], None)), Created(base + 8) ]
  {
    var ds := InfrastructureResources(identity, base);
    assert DeclareAndCreateEach(ds[4..], base + 8) == [Declared(ds[4]), Created(base + 8)];
    assert DeclareAndCreateEach(ds[3..], base + 6) == [Declared(ds[3]), Created(base + 6)] + DeclareAndCreateEach(ds[4..], base + 8);
    assert DeclareAndCreateEach(ds[2..], base + 4) == [Declared(ds[2]), Created(base + 4)] + DeclareAndCreateEach(ds[3..], base + 6);
    assert DeclareAndCreateEach(ds[1..], base + 2) == [Declared(ds[1]), Created(base + 2)] + DeclareAndCreateEach(ds[2..], base + 4);
  }

  /** After the infrastructure declarations, the five base resources sit declared at their handles. */
  lemma BaseResourcesDeclared(prefix: seq<Step>, identity: Identity)
    ensures var log := prefix + StackInfrastructureDeclarations(identity, |prefix|);
      var b := |prefix|;
      |log| == b + 10 && log[b].Declared? && log[b + 2].Declared? && log[b + 4].Declared?
      && log[b + 6].Declared? && log[b + 8].Declared?
  {
    StackInfrastructureSteps(identity, |prefix|);
  }

  /** The Docker part of `declare_docker_resources`, step by step. */
  lemma StackDockerSteps(identity: Identity, image: ImageReference, base: Handle)
    ensures DockerDeclarationsAt(identity, image, base) ==
      [ Declared(Declaration(WebApp, identity, [base + 6, base + 2, base + 4, base + 8, base], Some(image))),
        Created(base + 10),
        Declared(Declaration(DockerPullRoleDefinition, identity, [base + 8, base], None)),
        Created(base + 12),
        Declared(Declaration(DockerPullRoleAssignment, identity, [base + 10, base + 12, base + 8, base], None)),
        Created(base + 14) ]
  {
    var ds := DockerResources(identity, image, base + 6, base + 2, base + 4, base + 8, base, base + 10, base + 12);
    assert DeclareAndCreateEach(ds[2..], base + 14) == [Declared(ds[2]), Created(base + 14)];
    assert DeclareAndCreateEach(ds[1..], base + 12) == [Declared(ds[1]), Created(base + 12)] + DeclareAndCreateEach(ds[2..], base + 14);
  }

  /**
   * `declare_infrastructure` builds the five base resources in order, each
   * once, and calls `create()` on each as soon as it is built, before the
   * next one is built.
   */
  lemma StackInfrastructureOrder(identity: Identity, base: Handle)
    ensures var s := StackInfrastructureDeclarations(identity, base);
      && DeclaredKinds(s) == InfrastructureKinds
      && |s| == 10
      && forall i | 0 <= i < |s| :: if i % 2 == 0 then s[i].Declared? else s[i] == Created(base + i - 1)
  {
    var ds := InfrastructureResources(identity, base);
    DeclareAndCreateEachKinds(ds, base);
    InfrastructureResourcesShape(identity, base);
    forall i | 0 <= i < 10
      ensures var s := StackInfrastructureDeclarations(identity, base);
              if i % 2 == 0 then s[i].Declared? else s[i] == Created(base + i - 1)
    {
      DeclareAndCreateEachAt(ds, base, i);
    }
  }

  /**
   * `declare_docker_resources` declares the base infrastructure first, then
   * the web app (running the given image), the role definition and the role
   * assignment (given that web app and that role definition), each created
   * straight after it is built.
   */
  lemma StackDockerOrder(identity: Identity, image: ImageReference, base: Handle)
    ensures var s := StackDockerDeclarations(identity, image, base);
      && DeclaredKinds(s) == InfrastructureKinds + DockerKinds
      && |s| == 16
      && s[..10] == StackInfrastructureDeclarations(identity, base)
      && s[10].Declared? && s[10].declaration.kind == WebApp && s[10].declaration.image == Some(image)
      && s[11] == Created(base + 10)
      && s[12].Declared? && s[12].declaration.kind == DockerPullRoleDefinition && s[13] == Created(base + 12)
      && s[14] == Declared(Declaration(DockerPullRoleAssignment, identity, [base + 10, base + 12, base + 8, base], None))
      && s[15] == Created(base + 14)
  {
    var ds := DockerResources(identity, image, base + 6, base + 2, base + 4, base + 8, base, base + 10, base + 12);
    StackInfrastructureOrder(identity, base);
    DeclareAndCreateEachKinds(ds, base + 10);
    DockerResourcesShape(identity, image, base + 6, base + 2, base + 4, base + 8, base, base + 10, base + 12);
    DeclaredKindsAppend(StackInfrastructureDeclarations(identity, base), DeclareAndCreateEach(ds, base + 10));
    StackDockerSteps(identity, image, base);
  }

  /** Appended to a well-formed log, both declaration sequences only name resources declared and built before them. */
  lemma StackDeclarationsWellFormed(log: seq<Step>, identity: Identity, image: ImageReference)
    requires WellFormed(log)
    ensures WellFormed(log + StackInfrastructureDeclarations(identity, |log|))
    ensures WellFormed(log + StackDockerDeclarations(identity, image, |log|))
  {
    DeclareAndCreateEachWellFormed(log, InfrastructureResources(identity, |log|));
    StackDockerWellFormed(log + StackInfrastructureDeclarations(identity, |log|), |log|, identity, image);
    assert log + StackInfrastructureDeclarations(identity, |log|) + DockerDeclarationsAt(identity, image, |log|)
        == log + StackDockerDeclarations(identity, image, |log|);
  }

  lemma StackDockerWellFormed(first: seq<Step>, b: Handle, identity: Identity, image: ImageReference)
    requires |first| == b + 10 && WellFormed(first)
    requires first[b..] == StackInfrastructureDeclarations(identity, b)
    ensures WellFormed(first + DockerDeclarationsAt(identity, image, b))
  {
    StackInfrastructureSteps(identity, b);
    assert first[b] == first[b..][0] && first[b + 2] == first[b..][2] && first[b + 4] == first[b..][4];
    assert first[b + 6] == first[b..][6] && first[b + 8] == first[b..][8];
    DeclareAndCreateEachWellFormed(first, DockerResources(identity, image, b + 6, b + 2, b + 4, b + 8, b, b + 10, b + 12));
  }

  /**
   * `retrieve_container_registry_credentials`, read from the outputs of a
   * stack result: exactly three keys, each the output's value, or `None`
   * when the stack has no such output.
   */
  function RetrieveContainerRegistryCredentials(result: StackResult): (credentials: map<string, Option<string>>)
    ensures credentials.Keys == {"username", "password", "docker_registry_url"}
    ensures credentials["username"] == OutputOrNone(result.outputs, RegistryUsernameOutput)
    ensures credentials["password"] == OutputOrNone(result.outputs, RegistryPasswordOutput)
    ensures credentials["docker_registry_url"] == OutputOrNone(result.outputs, RegistryUrlOutput)
  {
    map["username" := OutputOrNone(result.outputs, RegistryUsernameOutput),
        "password" := OutputOrNone(result.outputs, RegistryPasswordOutput),
        "docker_registry_url" := OutputOrNone(result.outputs, RegistryUrlOutput)]
  }

  /** The stack and the infrastructure operation read the same three outputs, under different names for user and password. */
  lemma CredentialsAgree(result: StackResult)
    ensures var stack := RetrieveContainerRegistryCredentials(result);
            var operation := AzureInfrastructureUpdate.RetrieveContainerRegistryCredentials(result);
      && stack["username"] == operation["credential_name"]
      && stack["password"] == operation["credential_password"]
      && stack["docker_registry_url"] == operation["docker_registry_url"]
  {
  }

  /** `request_docker_image`: asks for licdata:latest for the Azure variant, with no registry details and no chain. */
  function RequestDockerImage(newId: EventId): (e: Event)
    ensures e.DockerImageRequested? && e.id == newId && e.previousEventIds == []
    ensures e.imageName == "licdata" && e.imageVersion == "latest"
    ensures e.metadata == map["variant" := Some("azure"), "python_version" := Some("3.11"), "azure_base_image_version" := Some("4")]
  {
    DockerImageRequested(newId, [], "licdata", "latest",
      map["variant" := Some("azure"), "python_version" := Some("3.11"), "azure_base_image_version" := Some("4")])
  }

  /** The stack's image request is the Docker operation's one without the two registry keys. */
  lemma RequestDockerImageWithoutRegistry(secretName: string, registryUrl: string, newId: EventId)
    ensures RequestDockerImage(newId).metadata ==
            AzureDockerResourcesUpdate.RequestDockerImage(secretName, registryUrl, newId).metadata - {"credential_name", "docker_registry_url"}
    ensures var full := AzureDockerResourcesUpdate.RequestDockerImage(secretName, registryUrl, newId);
      && RequestDockerImage(newId).imageName == full.imageName && RequestDockerImage(newId).imageVersion == full.imageVersion
      && RequestDockerImage(newId).previousEventIds == full.previousEventIds
  {
    var fixed := RequestDockerImage(newId).metadata;
    var full := AzureDockerResourcesUpdate.RequestDockerImage(secretName, registryUrl, newId).metadata;
    assert (full - {"credential_name", "docker_registry_url"}).Keys == fixed.Keys;
  }

  /** `push_docker_image`: reports the requested image as pushed, copying its five fields but starting no chain. */
  function PushDockerImage(request: Event, newId: EventId): (e: Event)
    requires request.DockerImagePushRequested?
    ensures e.DockerImagePushed? && e.id == newId && e.previousEventIds == []
    ensures e.imageName == request.imageName && e.imageVersion == request.imageVersion
    ensures e.imageUrl == request.imageUrl && e.registryUrl == request.registryUrl
    ensures e.metadata == request.metadata
  {
    DockerImagePushed(newId, [], request.imageName, request.imageVersion, request.imageUrl, request.registryUrl, request.metadata)
  }

  /** The stack's push event is the Docker operation's one with the causal chain dropped. */
  lemma PushDockerImageDropsChain(request: Event, newId: EventId)
    requires request.DockerImagePushRequested?
    ensures PushDockerImage(request, newId) == AzureDockerResourcesUpdate.PushDockerImage(request, newId).(previousEventIds := [])
    ensures !CausedBy(PushDockerImage(request, newId), request)
  {
    assert |PushDockerImage(request, newId).previousEventIds| == 0;
  }

  /** `instantiate` always raises: a stack is only built from its identity. */
  function Instantiate(): (r: Result<(), Raised>)
    ensures r.Failure? && r.error.InvalidOperationError?
  {
    Failure(InvalidOperationError("Cannot instantiate PulumiAzureStack directly"))
  }

  class PulumiAzureStack {
    const identity: Identity
    var resourceGroup: Option<Handle>
    var functionStorageAccount: Option<Handle>
    var appServicePlan: Option<Handle>
    var functionApp: Option<Handle>
    var publicIpAddress: Option<Handle>
    var dnsZone: Option<Handle>
    var dnsRecord: Option<Handle>
    var blobContainer: Option<Handle>
    var functionsPackage: Option<Handle>
    var containerRegistry: Option<Handle>
    var webappDeploymentSlot: Option<Handle>
    var appInsights: Option<Handle>
    var dockerPullRoleDefinition: Option<Handle>
    var dockerPullRoleAssignment: Option<Handle>
    var webApp: Option<Handle>

    /** The resources no code of this class declares stay `None`. */
    ghost predicate Valid()
      reads this
    {
      && functionApp == None && publicIpAddress == None && dnsZone == None && dnsRecord == None
      && blobContainer == None && functionsPackage == None && webappDeploymentSlot == None
    }

    /** The five base fields hold the handles `StackInfrastructureDeclarations(_, base)` gives them. */
    ghost predicate HoldsInfrastructureAt(base: Handle)
      reads this
    {
      && resourceGroup == Some(base) && functionStorageAccount == Some(base + 2)
      && appServicePlan == Some(base + 4) && appInsights == Some(base + 6)
      && containerRegistry == Some(base + 8)
    }

    /** The three Docker fields hold the handles `StackDockerDeclarations(_, _, base)` gives them. */
    ghost predicate HoldsDockerResourcesAt(base: Handle)
      reads this
    {
      webApp == Some(base + 10) && dockerPullRoleDefinition == Some(base + 12) && dockerPullRoleAssignment == Some(base + 14)
    }

    /** A new stack has every resource field `None`. */
    constructor (name: string, projectName: string, location: string)
      ensures Valid() && identity == Identity(name, projectName, location)
      ensures resourceGroup == None && functionStorageAccount == None && appServicePlan == None
      ensures containerRegistry == None && appInsights == None
      ensures dockerPullRoleDefinition == None && dockerPullRoleAssignment == None && webApp == None
    {
      identity := Identity(name, projectName, location);
      resourceGroup, functionStorageAccount, appServicePlan, functionApp := None, None, None, None;
      publicIpAddress, dnsZone, dnsRecord, blobContainer := None, None, None, None;
      functionsPackage, containerRegistry, webappDeploymentSlot, appInsights := None, None, None, None;
      dockerPullRoleDefinition, dockerPullRoleAssignment, webApp := None, None, None;
    }

    /** `declare_infrastructure`: builds the five base resources in order, calling `create()` on each straight away. */
    method DeclareInfrastructure(engine: Engine)
      requires Valid() && engine.Valid()
      modifies this, engine`log
      ensures Valid() && engine.Valid()
      ensures engine.log == old(engine.log) + StackInfrastructureDeclarations(identity, |old(engine.log)|)
      ensures HoldsInfrastructureAt(|old(engine.log)|)
      ensures webApp == old(webApp) && dockerPullRoleDefinition == old(dockerPullRoleDefinition)
      ensures dockerPullRoleAssignment == old(dockerPullRoleAssignment)
    {
      var group := engine.DeclareAndCreate(Declaration(ResourceGroup, identity, [], None));
      resourceGroup := Some(group);
      var storage := engine.DeclareAndCreate(Declaration(FunctionStorageAccount, identity, [group], None));
      functionStorageAccount := Some(storage);
      var plan := engine.DeclareAndCreate(Declaration(AppServicePlan, identity, [group], None));
      appServicePlan := Some(plan);
      var insights := engine.DeclareAndCreate(Declaration(AppInsights, identity, [group], None));
      appInsights := Some(insights);
      var registry := engine.DeclareAndCreate(Declaration(ContainerRegistry, identity, [group], None));
      containerRegistry := Some(registry);
      StackInfrastructureSteps(identity, |old(engine.log)|);
    }

    /**
     * `declare_docker_resources`: declares the base infrastructure, then the
     * web app running `imageName`:`imageVersion`, the pull-role definition
     * and the pull-role assignment, calling `create()` on each. The image url
     * is accepted and not used.
     */
    method DeclareDockerResources(engine: Engine, imageName: string, imageVersion: string, imageUrl: Option<string>)
      requires Valid() && engine.Valid()
      modifies this, engine`log
      ensures Valid() && engine.Valid()
      ensures engine.log == old(engine.log) +
                StackDockerDeclarations(identity, ImageReference(imageName, imageVersion), |old(engine.log)|)
      ensures HoldsInfrastructureAt(|old(engine.log)|) && HoldsDockerResourcesAt(|old(engine.log)|)
    {
      ghost var start := engine.log;
      ghost var base := |engine.log|;
      DeclareInfrastructure(engine);
      ghost var built := engine.log;
      BaseResourcesDeclared(start, identity);
      var group := resourceGroup.value;
      var registry := containerRegistry.value;
      var app := engine.DeclareAndCreate(Declaration(WebApp, identity,
        [appInsights.value, functionStorageAccount.value, appServicePlan.value, registry, group],
        Some(ImageReference(imageName, imageVersion))));
      webApp := Some(app);
      var definition := engine.DeclareAndCreate(Declaration(DockerPullRoleDefinition, identity, [registry, group], None));
      dockerPullRoleDefinition := Some(definition);
      var assignment := engine.DeclareAndCreate(Declaration(DockerPullRoleAssignment, identity, [app, definition, registry, group], None));
      dockerPullRoleAssignment := Some(assignment);
      StackDockerSteps(identity, ImageReference(imageName, imageVersion), base);
      assert engine.log == built + DockerDeclarationsAt(identity, ImageReference(imageName, imageVersion), base);
    }

    /**
     * The inherited `up`: selects the stack with the infrastructure program,
     * sets its location, refreshes it and brings it up. When the backend runs
     * the program (`programRan`, which every success implies), it declares
     * the infrastructure once; a `CommandError` raised before the program
     * runs declares nothing. Success yields an InfrastructureUpdated, a
     * `CommandError` no event.
     */
    method Up(engine: Engine, response: Outcome, programRan: bool, newId: EventId) returns (result: Result<Option<Event>, Raised>)
      requires Valid() && engine.Valid()
      requires response.Succeeded? ==> programRan
      modifies this, engine
      ensures Valid() && engine.Valid()
      ensures engine.calls == old(engine.calls) + UpCalls(identity, PulumiStack.StackProgram)
      ensures programRan ==> engine.log == old(engine.log) + StackInfrastructureDeclarations(identity, |old(engine.log)|)
      ensures programRan ==> HoldsInfrastructureAt(|old(engine.log)|)
      ensures !programRan ==> engine.log == old(engine.log) && unchanged(this)
      ensures webApp == old(webApp) && dockerPullRoleDefinition == old(dockerPullRoleDefinition)
      ensures dockerPullRoleAssignment == old(dockerPullRoleAssignment)
      ensures result == PulumiStack.UpResult(identity, response, newId)
    {
      var event: Option<Event> := None;
      engine.CreateOrSelectStack(identity.stackName, identity.projectName, PulumiStack.StackProgram);
      engine.SetConfig(LocationConfigKey, identity.location);
      engine.Refresh();
      engine.Up();
      if programRan {
        DeclareInfrastructure(engine);
      }
      match response {
        case Succeeded(_) =>
          event := Some(InfrastructureUpdated(newId, [], identity, map[]));
        case CommandError(_) =>
        case UnexpectedError(message) =>
          return Failure(Propagated(message));
      }
      result := Success(event);
    }
  }
}
