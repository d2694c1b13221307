/**
 * `UpdateAzureInfrastructureWithPulumi`: the Azure operation that answers an
 * InfrastructureUpdateRequested. It declares the base infrastructure into
 * its resource fields (without calling `create()`), runs the inherited
 * `perform`, and maps the stack outputs to registry credentials.
 */
module AzureInfrastructureUpdate {
  import opened Wrappers
  import opened Events
  import opened Backend
  import opened AzureResources
  import InfrastructureUpdate

  /**
   * What `declare_infrastructure` adds to the engine's log when the log
   * holds `base` steps: the base infrastructure is built, the resource group
   * at `base`, and nothing is created.
   */
  function InfrastructureDeclarations(identity: Identity, base: Handle): seq<Step> {
    DeclareEach(InfrastructureResources(identity, base))
  }

  /** The five base resources are built in order, each once, never created, for the request's stack, all sharing the first one's resource group. */
  lemma InfrastructureDeclarationOrder(identity: Identity, base: Handle)
    ensures DeclaredKinds(InfrastructureDeclarations(identity, base)) == InfrastructureKinds
    ensures |InfrastructureDeclarations(identity, base)| == 5
    ensures forall i | 0 <= i < 5 :: InfrastructureDeclarations(identity, base)[i].Declared?
    ensures forall i | 0 <= i < 5 :: InfrastructureDeclarations(identity, base)[i].declaration.identity == identity
    ensures forall i | 1 <= i < 5 :: InfrastructureDeclarations(identity, base)[i].declaration.dependencies == [base]
  {
    DeclareEachKinds(InfrastructureResources(identity, base));
    InfrastructureResourcesShape(identity, base);
  }

  /** Appended to a log that holds `|log|` steps, the declarations only name resources declared before them. */
  lemma InfrastructureDeclarationsWellFormed(log: seq<Step>, identity: Identity)
    requires WellFormed(log)
    ensures WellFormed(log + InfrastructureDeclarations(identity, |log|))
  {
    DeclareEachWellFormed(log, InfrastructureResources(identity, |log|));
  }

  /** `instantiate` always raises: the operation is only built from a request. */
  function Instantiate(): (r: Result<(), Raised>)
    ensures r.Failure? && r.error.InvalidOperationError?
  {
    Failure(InvalidOperationError("Cannot instantiate UpdateAzureInfrastructureWithPulumi directly"))
  }

  /**
   * `retrieve_container_registry_credentials`, read from the outputs of the
   * recorded outcome: exactly three keys, each the output's value, or `None`
   * when the stack has no such output.
   */
  function RetrieveContainerRegistryCredentials(result: StackResult): (credentials: map<string, Option<string>>)
    ensures credentials.Keys == {"credential_name", "credential_password", "docker_registry_url"}
    ensures credentials["credential_name"] == OutputOrNone(result.outputs, RegistryUsernameOutput)
    ensures credentials["credential_password"] == OutputOrNone(result.outputs, RegistryPasswordOutput)
    ensures credentials["docker_registry_url"] == OutputOrNone(result.outputs, RegistryUrlOutput)
  {
    map["credential_name" := OutputOrNone(result.outputs, RegistryUsernameOutput),
        "credential_password" := OutputOrNone(result.outputs, RegistryPasswordOutput),
        "docker_registry_url" := OutputOrNone(result.outputs, RegistryUrlOutput)]
  }

  class UpdateAzureInfrastructureWithPulumi {
    const event: Event
    var outcome: Option<StackResult>
    var resourceGroup: Option<Handle>
    var functionStorageAccount: Option<Handle>
    var appServicePlan: Option<Handle>
    var functionApp: Option<Handle>
    var publicIpAddress: Option<Handle>
    var dnsZone: Option<Handle>
    var dnsRecord: Option<Handle>
    var blobContainer: Option<Handle>
    var functionsPackage: Option<Handle>
    var containerRegistry: Option<Handle>
    var webappDeploymentSlot: Option<Handle>
    var appInsights: Option<Handle>

    /** The request is an infrastructure update, and the resources no code of this class declares stay `None`. */
    ghost predicate Valid()
      reads this
    {
      && event.InfrastructureUpdateRequested?
      && functionApp == None && publicIpAddress == None && dnsZone == None && dnsRecord == None
      && blobContainer == None && functionsPackage == None && webappDeploymentSlot == None
    }

    /** The five declared fields hold the handles `InfrastructureDeclarations(_, base)` gives them. */
    ghost predicate HoldsInfrastructureAt(base: Handle)
      reads this
    {
      && resourceGroup == Some(base) && functionStorageAccount == Some(base + 1)
      && appServicePlan == Some(base + 2) && appInsights == Some(base + 3)
      && containerRegistry == Some(base + 4)
    }

    constructor (event: Event)
      requires event.InfrastructureUpdateRequested?
      ensures Valid() && this.event == event && outcome == None
      ensures resourceGroup == None && functionStorageAccount == None && appServicePlan == None
      ensures appInsights == None && containerRegistry == None
    {
      this.event := event;
      outcome := None;
      resourceGroup, functionStorageAccount, appServicePlan, functionApp := None, None, None, None;
      publicIpAddress, dnsZone, dnsRecord, blobContainer := None, None, None, None;
      functionsPackage, containerRegistry, webappDeploymentSlot, appInsights := None, None, None, None;
    }

    /** `declare_infrastructure`: builds the five base resources in order and keeps each in its field. */
    method DeclareInfrastructure(engine: Engine)
      requires Valid() && engine.Valid()
      modifies this, engine`log
      ensures Valid() && engine.Valid() && outcome == old(outcome)
      ensures engine.log == old(engine.log) + InfrastructureDeclarations(event.identity, |old(engine.log)|)
      ensures HoldsInfrastructureAt(|old(engine.log)|)
    {
      var identity := event.identity;
      var group := engine.Declare(Declaration(ResourceGroup, identity, [], None));
      resourceGroup := Some(group);
      var storage := engine.Declare(Declaration(FunctionStorageAccount, identity, [group], None));
      functionStorageAccount := Some(storage);
      var plan := engine.Declare(Declaration(AppServicePlan, identity, [group], None));
      appServicePlan := Some(plan);
      var insights := engine.Declare(Declaration(AppInsights, identity, [group], None));
      appInsights := Some(insights);
      var registry := engine.Declare(Declaration(ContainerRegistry, identity, [group], None));
      containerRegistry := Some(registry);
    }

    /**
     * The inherited `perform`: selects the stack with the infrastructure
     * program, sets its location, refreshes it and brings it up. When the
     * backend runs the program (`programRan`, which every success implies),
     * it declares the infrastructure once; a `CommandError` raised before
     * the program runs declares nothing. `_outcome` is set only on success.
     */
    method Perform(engine: Engine, response: Outcome, programRan: bool, newId: EventId) returns (result: Result<seq<Event>, Raised>)
      requires Valid() && engine.Valid()
      requires response.Succeeded? ==> programRan
      modifies this, engine
      ensures Valid() && engine.Valid()
      ensures engine.calls == old(engine.calls) + UpCalls(event.identity, InfrastructureUpdate.InfrastructureProgram)
      ensures programRan ==> engine.log == old(engine.log) + InfrastructureDeclarations(event.identity, |old(engine.log)|)
      ensures programRan ==> HoldsInfrastructureAt(|old(engine.log)|)
      ensures !programRan ==> engine.log == old(engine.log) && unchanged(this)
      ensures outcome == RecordOutcome(old(outcome), response)
      ensures result == InfrastructureUpdate.PerformResult(event, response, newId)
    {
      var events: seq<Event> := [];
      engine.CreateOrSelectStack(event.identity.stackName, event.identity.projectName, InfrastructureUpdate.InfrastructureProgram);
      engine.SetConfig(LocationConfigKey, event.identity.location);
      engine.Refresh();
      engine.Up();
      if programRan {
        DeclareInfrastructure(engine);
      }
      match response {
        case Succeeded(r) =>
          outcome := Some(r);
          events := events + [InfrastructureUpdated(newId, CausalChain(event), event.identity, event.metadata)];
        case CommandError(_) =>
          events := events + [InfrastructureUpdateFailed(newId, CausalChain(event), event.identity, event.metadata)];
        case UnexpectedError(message) =>
          return Failure(Propagated(message));
      }
      assert events == [InfrastructureUpdate.TerminalEvent(event, response, newId)];
      result := Success(events);
    }
  }
}
