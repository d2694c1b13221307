# licdata-iac stack operations in Dafny

This project models the orchestration layer of the Licdata infrastructure
repository. That layer turns request events into calls on the Pulumi
automation backend, and the backend's answer into outcome events. The layer
has four parts:

- **Stack operations.** Update or remove the infrastructure or the Docker
  resources of a stack. Most operations take one request. They select the
  stack, set its location and refresh it, then call `up` or `destroy`.
  They map success, or a `CommandError`, to exactly one terminal event,
  which names the same stack and carries the causal chain
  `[request.id] + request.previous_event_ids`. There are two exceptions:
  - the older stack's `up` takes no request, builds its event without a
    chain, and answers a `CommandError` with no event;
  - the Docker-resource removal calls no backend and always reports the
    resources removed.
- **The Azure dispatch factory.** It picks the operation by request class.
- **The Azure declaration sequences.** They build the resource group, the
  storage account, the app service plan, app insights and the container
  registry, and then the web app and its image-pull role on top of them.
  They also map the stack outputs to registry credentials.
- **Docker image builders.** They build the `DockerImageRequested` and
  `DockerImagePushed` events.

## How it is modelled

The backend is the recording class `Backend.Engine`. It holds two things:

- `calls`: the stack calls made, in order (select with a program, set config,
  refresh, up, destroy).
- `log`: the resource steps that programs perform. A `Declared` step builds a
  resource and a `Created` step calls `create()` on one. A resource's
  `Handle` is its position in the log.

`Engine.Valid()` says that no step names a resource before it is declared.

What `up` or `destroy` answers is a parameter of type `Outcome`, one of:

- `Succeeded(outputs)`;
- `CommandError(msg)`;
- `UnexpectedError(msg)`, standing for any other exception, which escapes as
  `Failure(Propagated(msg))`.

The program that a stack is selected with is recorded as data (`Program`).
The classes whose declare methods exist also run it during `up`. Whether
the backend reached the program is a parameter (`programRan`), and every
success implies that it did. A `CommandError` can come before the program
runs (a locked stack, say), and then nothing is declared. It can also come
after, when the deployment fails, and then the declarations happened.

The event library is not part of this model:

- every event is a constructor of `Events.Event`;
- the id a new event receives is a parameter (`newId`).

Python inheritance is flattened. The Azure classes own the inherited
`perform`/`up` as methods. Those methods are proved equal to the
specification functions of the base-class modules (`InfrastructureUpdate`,
`DockerResourcesUpdate`, `PulumiStack`).

Modules and the source file each follows:

| module | file |
|---|---|
| `Events`, `Backend`, `Wrappers` | shared data model: events, backend, result wrappers |
| `InfrastructureUpdate` | update_infrastructure_with_pulumi.py |
| `DockerResourcesUpdate` | update_docker_resources_with_pulumi.py |
| `InfrastructureRemoval` | remove_pulumi_stack.py |
| `DockerResourcesRemoval` | remove_docker_resources_with_pulumi.py |
| `StackUpdate` | update_pulumi_stack.py |
| `PulumiStack` | pulumi_stack.py |
| `AzureResources` | the resource lists shared by the three Azure classes |
| `AzureInfrastructureUpdate` | azure/update_azure_infrastructure_with_pulumi.py |
| `AzureDockerResourcesUpdate` | azure/update_azure_docker_resources_with_pulumi.py |
| `AzureStack` | azure/pulumi_azure_stack.py |
| `AzureDockerImageDetails` | azure/request_azure_docker_image_details.py |
| `OperationFactory` | azure/pulumi_azure_stack_operation_factory.py |

## Model

| member | source | states |
|---|---|---|
| `Events.CausalChain` | org/acmsl/iac/licdata/infrastructure/update_infrastructure_with_pulumi.py:92-92 | the chain handed on is the request id followed by the request's whole chain, one longer |
| `Events.CausedByKeepsChain` | org/acmsl/iac/licdata/infrastructure/update_infrastructure_with_pulumi.py:87-105 | causality is prepend-only: the request id is in the chain and every older id keeps its order, shifted by one |
| `Events.SagaChain` | org/acmsl/iac/licdata/infrastructure/azure/update_azure_docker_resources_with_pulumi.py:74-83 | along a request, embedded request, outcome saga the chain lists the ids newest first, then the original chain |
| `Events.Get` | org/acmsl/iac/licdata/infrastructure/azure/request_azure_docker_image_details.py:73-76 | a missing metadata key reads as `None`, a present one as its value |
| `Backend.UpCalls` | org/acmsl/iac/licdata/infrastructure/update_infrastructure_with_pulumi.py:68-81 | bringing a stack up is four calls ending in `up`, and never `destroy` |
| `Backend.DestroyCalls` | org/acmsl/iac/licdata/infrastructure/remove_pulumi_stack.py:70-82 | tearing a stack down is four calls ending in `destroy`, and never `up` |
| `Backend.PreparationOrder` | org/acmsl/iac/licdata/infrastructure/update_infrastructure_with_pulumi.py:68-78 | both sequences select the stack by name and project, set `azure-native:location` to the location, then refresh |
| `Backend.RecordOutcome` | org/acmsl/iac/licdata/infrastructure/update_infrastructure_with_pulumi.py:80-81 | `_outcome` becomes the result on success and is untouched otherwise |
| `Backend.OutputOrNone` | org/acmsl/iac/licdata/infrastructure/azure/update_azure_infrastructure_with_pulumi.py:257-269 | an output reads as its value when present and `None` when absent, never an error |
| `Backend.Engine.Declare` | org/acmsl/iac/licdata/infrastructure/azure/update_azure_infrastructure_with_pulumi.py:194-196 | building a resource appends one declaration, whose handle is its position, and only resources already declared may be given to it |
| `Backend.Engine.DeclareAndCreate` | org/acmsl/iac/licdata/infrastructure/azure/pulumi_azure_stack.py:230-233 | a resource is built and `create()` is called on it straight away |
| `AzureResources.InfrastructureResourcesShape` | org/acmsl/iac/licdata/infrastructure/azure/update_azure_infrastructure_with_pulumi.py:194-249 | the base infrastructure is resource group, storage account, plan, insights, registry, all for one stack, each later one given the group |
| `AzureResources.DockerResourcesShape` | org/acmsl/iac/licdata/infrastructure/azure/update_azure_docker_resources_with_pulumi.py:166-199 | web app, role definition and role assignment, all given the registry and group; the web app runs the image; the assignment is given that web app and role definition |
| `AzureResources.DeclareAndCreateEachAt` | org/acmsl/iac/licdata/infrastructure/azure/pulumi_azure_stack.py:230-287 | in a build-and-create sequence the even steps build the resources in order and each odd step creates the one just built |
| `AzureResources.DeclareAndCreateEachWellFormed` | org/acmsl/iac/licdata/infrastructure/azure/pulumi_azure_stack.py:343-381 | a build-and-create sequence whose resources only name earlier ones keeps the log well-formed |
| `InfrastructureUpdate.TerminalEvent` | org/acmsl/iac/licdata/infrastructure/update_infrastructure_with_pulumi.py:80-106 | `InfrastructureUpdated` exactly on success, `InfrastructureUpdateFailed` exactly on `CommandError`, with the request's chain, stack and metadata |
| `InfrastructureUpdate.PerformResult` | org/acmsl/iac/licdata/infrastructure/update_infrastructure_with_pulumi.py:66-108 | a list of exactly one terminal event, or the other exception propagated |
| `InfrastructureUpdate.FailureCarriesNoErrorText` | org/acmsl/iac/licdata/infrastructure/update_infrastructure_with_pulumi.py:96-106 | the failure event is the same whatever the error text |
| `InfrastructureUpdate.SuccessIgnoresOutputs` | org/acmsl/iac/licdata/infrastructure/update_infrastructure_with_pulumi.py:81-94 | the success event is the same whatever the stack outputs |
| `DockerResourcesUpdate.BuildDockerResourcesUpdateFailed` | org/acmsl/iac/licdata/infrastructure/update_docker_resources_with_pulumi.py:128-140 | a failure event with the request's stack and metadata, chained to the request |
| `DockerResourcesUpdate.BuildDockerResourcesUpdated` | org/acmsl/iac/licdata/infrastructure/update_docker_resources_with_pulumi.py:115-126 | a success event with the request's stack and metadata, chained to the request |
| `DockerResourcesUpdate.PerformResult` | org/acmsl/iac/licdata/infrastructure/update_docker_resources_with_pulumi.py:101-113 | exactly one event (not a list): the success builder's on success, the failure builder's on `CommandError`, otherwise the exception |
| `DockerResourcesUpdate.OutcomesDifferOnlyInClass` | org/acmsl/iac/licdata/infrastructure/update_docker_resources_with_pulumi.py:108-111 | success and failure differ, yet carry the same chain and stack |
| `InfrastructureRemoval.RemovalResult` | org/acmsl/iac/licdata/infrastructure/remove_pulumi_stack.py:81-103 | `InfrastructureRemoved` exactly on success, `InfrastructureRemovalFailed` exactly on `CommandError`, chained to the request, same stack |
| `InfrastructureRemoval.RemoveAsWritten` | org/acmsl/iac/licdata/infrastructure/remove_pulumi_stack.py:70-78 | as written, `remove` raises a name error right after selecting the stack |
| `InfrastructureRemoval.UnboundEventBlocksRemoval` | org/acmsl/iac/licdata/infrastructure/remove_pulumi_stack.py:76-82 | as written, the stack is never destroyed and no event is returned, while the intended `remove` answers |
| `InfrastructureRemoval.RemovePulumiStack.constructor` | org/acmsl/iac/licdata/infrastructure/remove_pulumi_stack.py:51-57 | the operation keeps its removal request and has no outcome yet |
| `InfrastructureRemoval.RemovePulumiStack.Remove` | org/acmsl/iac/licdata/infrastructure/remove_pulumi_stack.py:59-103 | select with the do-nothing program, set location, refresh, destroy (never `up`); `_outcome` set on success only; the result is `RemovalResult` |
| `DockerResourcesRemoval.Perform` | org/acmsl/iac/licdata/infrastructure/remove_docker_resources_with_pulumi.py:56-83 | always a single `DockerResourcesRemoved`, never the failure, chained to the request, same stack |
| `StackUpdate.UpResult` | org/acmsl/iac/licdata/infrastructure/update_pulumi_stack.py:84-116 | one-element list: `InfrastructureUpdated` exactly on success, `InfrastructureUpdateFailed` exactly on `CommandError`, chained, same stack |
| `StackUpdate.DockerResourcesOnlyProgram` | org/acmsl/iac/licdata/infrastructure/update_pulumi_stack.py:134-140 | the program makes one `declare_docker_resources` call with the request's image name, version, url and the chain |
| `StackUpdate.UpDockerResourcesResult` | org/acmsl/iac/licdata/infrastructure/update_pulumi_stack.py:156-178 | exactly one event, `DockerResourcesUpdated` or `DockerResourcesUpdateFailed`, built from the argument |
| `StackUpdate.UpdatePulumiStack.constructor` | org/acmsl/iac/licdata/infrastructure/update_pulumi_stack.py:50-56 | the operation keeps its request and has no outcome yet |
| `StackUpdate.UpdatePulumiStack.Up` | org/acmsl/iac/licdata/infrastructure/update_pulumi_stack.py:58-116 | the four up calls for the operation's own stack; `_outcome` on success only; the list is `UpResult`, the extra event dropped |
| `StackUpdate.UpdatePulumiStack.UpDockerResources` | org/acmsl/iac/licdata/infrastructure/update_pulumi_stack.py:125-178 | the four up calls for the argument's stack with the Docker-only program; `_outcome` on success only; the event is `UpDockerResourcesResult` |
| `PulumiStack.UpResult` | org/acmsl/iac/licdata/infrastructure/pulumi_stack.py:62-87 | an `InfrastructureUpdated` for the stack on success, with an empty chain and empty metadata, so it is not linked to any request; no event at all on `CommandError` |
| `PulumiStack.Down` | org/acmsl/iac/licdata/infrastructure/pulumi_stack.py:96-100 | always raises the not-implemented error |
| `AzureInfrastructureUpdate.InfrastructureDeclarationOrder` | org/acmsl/iac/licdata/infrastructure/azure/update_azure_infrastructure_with_pulumi.py:194-249 | five declarations, in the order group, storage, plan, insights, registry, none created, all for the request's stack, each later one given the first |
| `AzureInfrastructureUpdate.InfrastructureDeclarationsWellFormed` | org/acmsl/iac/licdata/infrastructure/azure/update_azure_infrastructure_with_pulumi.py:198-249 | the declarations only name the resource group declared before them |
| `AzureInfrastructureUpdate.Instantiate` | org/acmsl/iac/licdata/infrastructure/azure/update_azure_infrastructure_with_pulumi.py:80-89 | always raises an invalid-operation error |
| `AzureInfrastructureUpdate.RetrieveContainerRegistryCredentials` | org/acmsl/iac/licdata/infrastructure/azure/update_azure_infrastructure_with_pulumi.py:251-275 | exactly the keys `credential_name`, `credential_password`, `docker_registry_url`, each the output's value or `None` |
| `AzureInfrastructureUpdate.UpdateAzureInfrastructureWithPulumi.constructor` | org/acmsl/iac/licdata/infrastructure/azure/update_azure_infrastructure_with_pulumi.py:60-78 | every resource field starts `None` |
| `AzureInfrastructureUpdate.UpdateAzureInfrastructureWithPulumi.DeclareInfrastructure` | org/acmsl/iac/licdata/infrastructure/azure/update_azure_infrastructure_with_pulumi.py:190-249 | the log grows by exactly the five declarations, the five fields hold them, the seven fields no code declares stay `None` |
| `AzureInfrastructureUpdate.UpdateAzureInfrastructureWithPulumi.Perform` | org/acmsl/iac/licdata/infrastructure/update_infrastructure_with_pulumi.py:56-108 | the four up calls with the one-call program; the infrastructure declared once if the program ran, and nothing changed if it did not; `_outcome` on success only; result `InfrastructureUpdate.PerformResult` |
| `AzureDockerResourcesUpdate.EmbeddedRequest` | org/acmsl/iac/licdata/infrastructure/azure/update_azure_docker_resources_with_pulumi.py:74-83 | the embedded request is an infrastructure update for the same stack, chained to the Docker request |
| `AzureDockerResourcesUpdate.DockerResourcesSteps` | org/acmsl/iac/licdata/infrastructure/azure/update_azure_docker_resources_with_pulumi.py:160-200 | after the infrastructure: web app built then created, role definition built then created, role assignment built then created |
| `AzureDockerResourcesUpdate.DockerResourcesDeclarationOrder` | org/acmsl/iac/licdata/infrastructure/azure/update_azure_docker_resources_with_pulumi.py:160-200 | infrastructure before Docker resources, each once; the web app runs the request's image; the assignment names that web app and definition |
| `AzureDockerResourcesUpdate.DockerResourcesDeclarationsWellFormed` | org/acmsl/iac/licdata/infrastructure/azure/update_azure_docker_resources_with_pulumi.py:166-199 | every Docker resource names only resources declared before it |
| `AzureDockerResourcesUpdate.RequestDockerImage` | org/acmsl/iac/licdata/infrastructure/azure/update_azure_docker_resources_with_pulumi.py:128-148 | licdata:latest with exactly five metadata keys, the secret name and registry url passed on, three fixed |
| `AzureDockerResourcesUpdate.PushDockerImage` | org/acmsl/iac/licdata/infrastructure/azure/update_azure_docker_resources_with_pulumi.py:202-230 | `DockerImagePushed` copying name, version, url, registry url and metadata, chained to the request |
| `AzureDockerResourcesUpdate.Instantiate` | org/acmsl/iac/licdata/infrastructure/azure/update_azure_docker_resources_with_pulumi.py:88-97 | always raises an invalid-operation error |
| `AzureDockerResourcesUpdate.UpdateAzureDockerResourcesWithPulumi.constructor` | org/acmsl/iac/licdata/infrastructure/azure/update_azure_docker_resources_with_pulumi.py:67-86 | a fresh embedded infrastructure operation for the embedded request, with no outcome and its five resource fields `None`; the Docker fields start `None` |
| `AzureDockerResourcesUpdate.UpdateAzureDockerResourcesWithPulumi.DeclareDockerResources` | org/acmsl/iac/licdata/infrastructure/azure/update_azure_docker_resources_with_pulumi.py:150-200 | the log grows by exactly the Docker declarations; the embedded operation's fields hold the infrastructure and this one's the Docker resources |
| `AzureDockerResourcesUpdate.UpdateAzureDockerResourcesWithPulumi.Perform` | org/acmsl/iac/licdata/infrastructure/update_docker_resources_with_pulumi.py:74-113 | the four up calls with the infrastructure-then-Docker program; if the program ran, the infrastructure then the Docker resources are declared, and if not, nothing changes; `_outcome` on success only; result `DockerResourcesUpdate.PerformResult` |
| `AzureStack.StackInfrastructureSteps` | org/acmsl/iac/licdata/infrastructure/azure/pulumi_azure_stack.py:226-287 | the stack builds and creates group, storage, plan, insights, registry, each created before the next is built |
| `AzureStack.StackDockerSteps` | org/acmsl/iac/licdata/infrastructure/azure/pulumi_azure_stack.py:343-381 | after the infrastructure: web app, role definition, role assignment, each built then created |
| `AzureStack.StackInfrastructureOrder` | org/acmsl/iac/licdata/infrastructure/azure/pulumi_azure_stack.py:230-287 | the five classes in order, each once, every build followed by its own `create()` |
| `AzureStack.StackDockerOrder` | org/acmsl/iac/licdata/infrastructure/azure/pulumi_azure_stack.py:326-381 | `declare_infrastructure` comes first, then web app with the given image, role definition, role assignment naming both |
| `AzureStack.StackDeclarationsWellFormed` | org/acmsl/iac/licdata/infrastructure/azure/pulumi_azure_stack.py:226-381 | both declaration sequences only name resources declared before them |
| `AzureStack.RetrieveContainerRegistryCredentials` | org/acmsl/iac/licdata/infrastructure/azure/pulumi_azure_stack.py:289-310 | exactly the keys `username`, `password`, `docker_registry_url`, each the output's value or `None` |
| `AzureStack.CredentialsAgree` | org/acmsl/iac/licdata/infrastructure/azure/pulumi_azure_stack.py:296-310 | the stack and the infrastructure operation read the same three outputs under different names |
| `AzureStack.RequestDockerImage` | org/acmsl/iac/licdata/infrastructure/azure/pulumi_azure_stack.py:312-324 | licdata:latest with exactly variant=azure, python_version=3.11, azure_base_image_version=4 |
| `AzureStack.RequestDockerImageWithoutRegistry` | org/acmsl/iac/licdata/infrastructure/azure/pulumi_azure_stack.py:316-324 | the stack's image request is the Docker operation's without its two registry keys |
| `AzureStack.PushDockerImage` | org/acmsl/iac/licdata/infrastructure/azure/pulumi_azure_stack.py:383-410 | `DockerImagePushed` copying the five fields, with no causal chain |
| `AzureStack.PushDockerImageDropsChain` | org/acmsl/iac/licdata/infrastructure/azure/pulumi_azure_stack.py:404-410 | the stack's push event is the Docker operation's with the chain dropped, so it is not linked to the request |
| `AzureStack.Instantiate` | org/acmsl/iac/licdata/infrastructure/azure/pulumi_azure_stack.py:91-98 | always raises an invalid-operation error |
| `AzureStack.PulumiAzureStack.constructor` | org/acmsl/iac/licdata/infrastructure/azure/pulumi_azure_stack.py:64-89 | the identity is the three arguments and every resource field starts `None` |
| `AzureStack.PulumiAzureStack.DeclareInfrastructure` | org/acmsl/iac/licdata/infrastructure/azure/pulumi_azure_stack.py:226-287 | the log grows by exactly the ten build-and-create steps, the five fields hold them, the Docker fields are untouched |
| `AzureStack.PulumiAzureStack.DeclareDockerResources` | org/acmsl/iac/licdata/infrastructure/azure/pulumi_azure_stack.py:326-381 | the log grows by exactly the infrastructure then the Docker steps, and all eight fields hold their handles |
| `AzureStack.PulumiAzureStack.Up` | org/acmsl/iac/licdata/infrastructure/pulumi_stack.py:54-87 | the four up calls with the one-call program; the infrastructure declared once if the program ran, and nothing changed if it did not; the three Docker fields unchanged; result `PulumiStack.UpResult` |
| `AzureDockerImageDetails.ImageRequestMetadata` | org/acmsl/iac/licdata/infrastructure/azure/request_azure_docker_image_details.py:69-78 | exactly five keys: three fixed, and `credential_name` and `docker_registry_url` copied from the request or `None` |
| `AzureDockerImageDetails.Perform` | org/acmsl/iac/licdata/infrastructure/azure/request_azure_docker_image_details.py:59-79 | a list of exactly one `DockerImageRequested` for licdata:latest carrying that metadata |
| `AzureDockerImageDetails.PerformAgreesWithDockerOperation` | org/acmsl/iac/licdata/infrastructure/azure/request_azure_docker_image_details.py:65-79 | with both registry keys present, the event equals the Docker operation's image request for them |
| `AzureDockerImageDetails.CredentialsFlowIntoImageRequest` | org/acmsl/iac/licdata/infrastructure/azure/request_azure_docker_image_details.py:73-76 | when the request carries the infrastructure credentials, the image request names the registry user and url of the stack outputs, and not the password |
| `AzureDockerImageDetails.Instantiate` | org/acmsl/iac/licdata/infrastructure/azure/request_azure_docker_image_details.py:48-57 | always raises an invalid-operation error |
| `OperationFactory.PulumiAzureStackOperationFactory.New` | org/acmsl/iac/licdata/infrastructure/azure/pulumi_azure_stack_operation_factory.py:73-104 | each of the three supported request classes gets its operation exactly when the event has that class, wrapping that very event; every other event gets `None` |
| `OperationFactory.Instantiate` | org/acmsl/iac/licdata/infrastructure/azure/pulumi_azure_stack_operation_factory.py:64-71 | the factory, unlike the operations it builds, can be instantiated: nothing is raised |
| `OperationFactory.RemovalRequestsUnanswered` | org/acmsl/iac/licdata/infrastructure/azure/pulumi_azure_stack_operation_factory.py:75-81 | both removal requests get no operation, although the parameter type lists them |

## Left out

- Pulumi automation internals: the calls are recorded, and their answer is a parameter. A failing `create_or_select_stack`, `set_config` or `refresh` is not modelled; `up` and `destroy` are the only calls that can fail.
- The Azure resource classes, their constructor arguments that are constants (`None` placeholders, literals) and what they provision. A resource is a `Declaration`: its class, its stack, the resources it is given, and the image for the web app.
- `Output.all`, `Output.apply`, the registry `login_server` and `list_registry_credentials`: these are deferred foreign values, and their results are never used in an event.
- Logging, the `json.dumps` summary and the dump of the stack outputs to standard output: they only produce output. `async` is left out because nothing runs concurrently.
- Event ids, and the event classes' constructors: the id is a parameter. The event library's constructor signatures are not part of this model, and the source calls the same classes with different arity:
  - with five arguments, metadata fourth and the chain fifth (update_infrastructure_with_pulumi.py:87-105, update_docker_resources_with_pulumi.py:134-140);
  - with four arguments, the chain fourth (update_pulumi_stack.py:91-113 and 163-176, remove_pulumi_stack.py:88-101, remove_docker_resources_with_pulumi.py:69-81, update_azure_docker_resources_with_pulumi.py:76-81).

  One signature cannot match both. The model reads a four-argument call as the stack, project, location and chain, with empty metadata. Events built without a chain (the stack's `InfrastructureUpdated`, the image requests, the stack's push event) get an empty chain.
- `DockerResourcesUpdate.BuildDockerResourcesUpdated`: the success builder is abstract and no class implements it, so it is modelled as the failure builder's success twin. Its contract says nothing about the outcome it receives.
- `AzureInfrastructureUpdate.RetrieveContainerRegistryCredentials`: takes the stack result as a parameter. The source reads `_outcome`, which fails when no `up` succeeded. The `Outputs` enum is not part of this model; its values are taken to be the output names `container_registry_username`, `container_registry_password` and `container_registry_url` that the stack reads.
- `AzureStack.RetrieveContainerRegistryCredentials`: takes the stack result as a parameter, because no code in this repository sets the stack's `outcome`.
- `AzureDockerResourcesUpdate.UpdateAzureDockerResourcesWithPulumi.DeclareDockerResources`: the source calls `up()` on `update_azure_resources_with_pulumi`. That property does not exist, and the embedded operation has no `up`. The model brings up the base infrastructure by running the embedded operation's `declare_infrastructure`, which is the evident intent. The inherited program's separate `declare_infrastructure()` call is absorbed into it, because this class does not implement that method. Infrastructure is therefore declared once. The method reads its own request, because the program calls it without the `event` argument its signature asks for.
- `AzureDockerResourcesUpdate.UpdateAzureDockerResourcesWithPulumi.constructor`: the embedded request's id is a parameter, and its metadata is empty.
- Missing imports. The model uses the intended classes in every case.
  - Names used in signatures fail with a name error when the module is loaded: `InfrastructureUpdateRequested` (update_pulumi_stack.py:50 and 58) and `InfrastructureRemovalRequested` (remove_pulumi_stack.py:51).
  - The other names fail only when they are reached. `DockerResourcesUpdated` (update_pulumi_stack.py:163) raises a name error when `up` succeeds. `InvalidOperationError` (for instance update_azure_infrastructure_with_pulumi.py:87 and pulumi_azure_stack.py:98) makes `instantiate` raise a name error instead of an invalid-operation error.
- `StackUpdate.UpdatePulumiStack.Up` and `StackUpdate.UpdatePulumiStack.UpDockerResources`: their declare methods are abstract and no class implements them, so the program is recorded but not run. The `request` argument of `Up` is not read, as in the source.
- `InfrastructureRemoval.RemovePulumiStack.Remove`: models the intended behaviour, which sets the location from the operation's own request (see Findings). Its program declares nothing, so it does not touch the log.
- `OperationFactory.Instantiate`: the factory holds no state, so the contract states only that instantiation succeeds. The factory tests the request classes in order, but the event constructors are disjoint, so the first match is the only match.
- `OperationFactory.PulumiAzureStackOperationFactory.New`: as written, its Docker branch raises `TypeError`. `UpdateDockerResourcesWithPulumi` is an abstract class. Its abstract `declare_infrastructure` and `_build_DockerResourcesUpdated_from_outcome` (update_docker_resources_with_pulumi.py:65-72 and 115-126) are not overridden by `UpdateAzureDockerResourcesWithPulumi`, so the constructor call at pulumi_azure_stack_operation_factory.py:100 cannot build an instance. The model returns the intended operation and supplies both methods. The infrastructure declaration comes from the embedded operation (see `DeclareDockerResources` below), and the success builder is `DockerResourcesUpdate.BuildDockerResourcesUpdated`.
- `AzureDockerResourcesUpdate.UpdateAzureDockerResourcesWithPulumi.Perform`: as written, the class cannot be instantiated, for the reason given under `New`. The method models the intended operation.
- `AzureDockerResourcesUpdate.PushDockerImage`: as written, `push_docker_image` raises `AttributeError` on every call, before the event is built. The arguments of `Output.all`, `self.resource_group.name` and `self.container_registry.name` (update_azure_docker_resources_with_pulumi.py:211-212), are evaluated at once, and the class defines neither property. The lambda, which is deferred, also names the unbound `containerRegistry`. The model leaves the credential lookup out and returns the intended `DockerImagePushed` event.
- `AzureStack.PushDockerImage`: as written, `push_docker_image` raises `AttributeError` when it runs before `declare_infrastructure`. `self.resource_group.name` and `self.container_registry.name` (pulumi_azure_stack.py:392-393) are evaluated at once, and both fields are still `None` (lines 75 and 84). The deferred lambda also names the unbound `containerRegistry`. The model leaves the credential lookup out and returns the intended event regardless of the stack's state.
- pulumi_azure_stack_factory.py, licdata_web_app.py, licdata_api.py, functions_deployment_slot.py, the CLI options, the D-Bus emitter and listener, and the package `__init__` files: these are one-line wiring or literal arguments to library classes.

## Findings

| source | as written | input that shows it | evidently intended | confidence | as-written member | corrected member |
|---|---|---|---|---|---|---|
| org/acmsl/iac/licdata/infrastructure/remove_pulumi_stack.py:76-78 | the location is read from `event`, a name not bound in `remove`, so it raises after selecting the stack | any `InfrastructureRemovalRequested` | `self.event.location`, then refresh and destroy | high, not executed | `InfrastructureRemoval.UnboundEventBlocksRemoval` | `InfrastructureRemoval.RemovePulumiStack.Remove` |
