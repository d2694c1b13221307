/**
 * The provisioning backend (the Pulumi automation API and its resource
 * engine) as the stack operations see it: the calls they make on a stack, the
 * program they pass it, the resources a program declares, and the response
 * of `up` or `destroy`.
 */
module Backend {
  import opened Wrappers
  import opened Events

  /** The configuration key that holds the Azure region of a stack. */
  const LocationConfigKey: string := "azure-native:location"

  /** Keys of the stack outputs that hold the container registry credentials. */
  const RegistryUsernameOutput: string := "container_registry_username"
  const RegistryPasswordOutput: string := "container_registry_password"
  const RegistryUrlOutput: string := "container_registry_url"

  /** The arguments a program passes to `declare_docker_resources`, when it passes any. */
  datatype DockerResourcesArguments =
    DockerResourcesArguments(imageName: string, imageVersion: string, imageUrl: Option<string>, previousEventIds: seq<EventId>)

  /** A call a program makes on the operation that owns it. */
  datatype ProgramStep =
    | DeclareInfrastructureStep
    | DeclareDockerResourcesStep(arguments: Option<DockerResourcesArguments>)

  /** The program a stack is selected with: the declare calls it makes, in order. */
  type Program = seq<ProgramStep>

  /** A call on the backend. */
  datatype BackendCall =
    | CreateOrSelectStack(stackName: string, projectName: string, program: Program)
    | SetConfig(key: string, value: string)
    | Refresh
    | Up
    | Destroy

  /** The calls that bring a stack up: select it with `program`, set its location, refresh it, then `up`. */
  function UpCalls(identity: Identity, program: Program): (calls: seq<BackendCall>)
    ensures |calls| == 4 && calls[3] == Up
    ensures Destroy !in calls
  {
    [CreateOrSelectStack(identity.stackName, identity.projectName, program),
     SetConfig(LocationConfigKey, identity.location), Refresh, Up]
  }

  /** The calls that tear a stack down: the same preparation, then `destroy`. */
  function DestroyCalls(identity: Identity, program: Program): (calls: seq<BackendCall>)
    ensures |calls| == 4 && calls[3] == Destroy
    ensures Up !in calls
  {
    UpCalls(identity, program)[..3] + [Destroy]
  }

  /** Both call sequences select the stack by name and project, then set the location, then refresh. */
  lemma PreparationOrder(identity: Identity, program: Program)
    ensures UpCalls(identity, program)[..3] == DestroyCalls(identity, program)[..3]
    ensures UpCalls(identity, program)[0] == CreateOrSelectStack(identity.stackName, identity.projectName, program)
    ensures UpCalls(identity, program)[1] == SetConfig(LocationConfigKey, identity.location)
    ensures UpCalls(identity, program)[2] == Refresh
  {
  }

  /** A stack output; the credentials read its `value`. */
  datatype OutputValue = OutputValue(value: string)

  /** What a successful `up` or `destroy` returns (the change summary is only logged). */
  datatype StackResult = StackResult(outputs: map<string, OutputValue>)

  /** The backend's response to `up` or `destroy`. */
  datatype Outcome =
    | Succeeded(result: StackResult)
    | CommandError(message: string)
    | UnexpectedError(message: string)

  /** The `_outcome` field after `up` or `destroy` answered `response`: set on success only. */
  function RecordOutcome(previous: Option<StackResult>, response: Outcome): (recorded: Option<StackResult>)
    ensures response.Succeeded? ==> recorded == Some(response.result)
    ensures !response.Succeeded? ==> recorded == previous
  {
    if response.Succeeded? then Some(response.result) else previous
  }

  /** `outputs.get(key, None)`, then `.value` of what is there. */
  function OutputOrNone(outputs: map<string, OutputValue>, key: string): (v: Option<string>)
    ensures v.Some? <==> key in outputs
    ensures key in outputs ==> v.value == outputs[key].value
  {
    if key in outputs then Some(outputs[key].value) else None
  }

  /** An exception an operation lets escape. */
  datatype Raised =
    | Propagated(message: string)
    | NotImplementedError
    | InvalidOperationError(message: string)
    | NameError(name: string)

  /** The resource classes the Azure stacks declare. */
  datatype ResourceKind =
    | ResourceGroup | FunctionStorageAccount | AppServicePlan | AppInsights | ContainerRegistry
    | WebApp | DockerPullRoleDefinition | DockerPullRoleAssignment

  /** The base infrastructure, in the order it is declared. */
  const InfrastructureKinds: seq<ResourceKind> :=
    [ResourceGroup, FunctionStorageAccount, AppServicePlan, AppInsights, ContainerRegistry]

  /** The resources that need a published Docker image, in the order they are declared. */
  const DockerKinds: seq<ResourceKind> := [WebApp, DockerPullRoleDefinition, DockerPullRoleAssignment]

  /** A declared resource: the position of its declaration in the engine's log. */
  type Handle = nat

  /** The image a web app runs. */
  datatype ImageReference = ImageReference(name: string, version: string)

  /** A resource constructor call: its class, the stack identity, the resources it is given (in argument order) and, for a web app, the image. */
  datatype Declaration = Declaration(kind: ResourceKind, identity: Identity, dependencies: seq<Handle>, image: Option<ImageReference>)

  /** An entry of the engine's log: a resource is built, or `create()` is called on one. */
  datatype Step = Declared(declaration: Declaration) | Created(resource: Handle)

  /** `h` names a resource declared before position `i` of `log`. */
  predicate RefersBack(log: seq<Step>, i: nat, h: Handle) {
    h < i && h < |log| && log[h].Declared?
  }

  /** The step at `i` only names resources declared before it. */
  predicate StepRefersBack(log: seq<Step>, i: nat)
    requires i < |log|
  {
    match log[i]
    case Declared(d) => forall h | h in d.dependencies :: RefersBack(log, i, h)
    case Created(h) => RefersBack(log, i, h)
  }

  /** No resource is given, or created, before it is declared. */
  predicate WellFormed(log: seq<Step>) {
    forall i | 0 <= i < |log| :: StepRefersBack(log, i)
  }

  /** The class a step declares, if it declares one. */
  function StepKinds(step: Step): seq<ResourceKind> {
    if step.Declared? then [step.declaration.kind] else []
  }

  /** The classes of the declared resources, in declaration order. */
  function DeclaredKinds(log: seq<Step>): seq<ResourceKind>
  {
    if log == [] then [] else StepKinds(log[0]) + DeclaredKinds(log[1..])
  }

  /** Putting one step in front adds that step's class, if any, in front. */
  lemma DeclaredKindsCons(step: Step, rest: seq<Step>)
    ensures DeclaredKinds([step] + rest) == StepKinds(step) + DeclaredKinds(rest)
  {
    assert ([step] + rest)[1..] == rest;
  }

  /** Putting two steps in front adds their classes, if any, in front. */
  lemma DeclaredKindsPair(first: Step, second: Step, rest: seq<Step>)
    ensures DeclaredKinds([first, second] + rest) == StepKinds(first) + StepKinds(second) + DeclaredKinds(rest)
  {
    assert ([first, second] + rest)[1..] == [second] + rest;
    DeclaredKindsCons(second, rest);
  }

  lemma {:induction false} DeclaredKindsAppend(a: seq<Step>, b: seq<Step>)
    ensures DeclaredKinds(a + b) == DeclaredKinds(a) + DeclaredKinds(b)
  {
    if a == [] {
      assert a + b == b;
    } else {
      var ab := a + b;
      assert ab[0] == a[0];
      assert ab[1..] == a[1..] + b;
      calc {
        DeclaredKinds(ab);
        StepKinds(a[0]) + DeclaredKinds(a[1..] + b);
        { DeclaredKindsAppend(a[1..], b); }
        StepKinds(a[0]) + (DeclaredKinds(a[1..]) + DeclaredKinds(b));
      }
    }
  }

  /** Extending a well-formed log keeps it well-formed when every new step refers back. */
  lemma ExtendWellFormed(log: seq<Step>, more: seq<Step>)
    requires WellFormed(log)
    requires forall i | |log| <= i < |log| + |more| :: StepRefersBack(log + more, i)
    ensures WellFormed(log + more)
  {
    var all := log + more;
    forall i | 0 <= i < |log|
      ensures StepRefersBack(all, i)
    {
      assert all[i] == log[i];
      assert StepRefersBack(log, i);
      match log[i]
      case Declared(d) =>
        forall h | h in d.dependencies ensures RefersBack(all, i, h) {
          assert RefersBack(log, i, h);
          assert all[h] == log[h];
        }
      case Created(h) =>
        assert all[h] == log[h];
    }
  }

  /**
   * The backend as a recording stub: the calls made on it, in order, and the
   * resources the programs it runs have declared.
   */
  class Engine {
    var calls: seq<BackendCall>
    var log: seq<Step>

    ghost predicate Valid()
      reads this
    {
      WellFormed(log)
    }

    constructor ()
      ensures Valid() && calls == [] && log == []
    {
      calls, log := [], [];
    }

    method CreateOrSelectStack(stackName: string, projectName: string, program: Program)
      modifies this`calls
      ensures calls == old(calls) + [BackendCall.CreateOrSelectStack(stackName, projectName, program)]
    {
      calls := calls + [BackendCall.CreateOrSelectStack(stackName, projectName, program)];
    }

    method SetConfig(key: string, value: string)
      modifies this`calls
      ensures calls == old(calls) + [BackendCall.SetConfig(key, value)]
    {
      calls := calls + [BackendCall.SetConfig(key, value)];
    }

    method Refresh()
      modifies this`calls
      ensures calls == old(calls) + [BackendCall.Refresh]
    {
      calls := calls + [BackendCall.Refresh];
    }

    method Up()
      modifies this`calls
      ensures calls == old(calls) + [BackendCall.Up]
    {
      calls := calls + [BackendCall.Up];
    }

    method Destroy()
      modifies this`calls
      ensures calls == old(calls) + [BackendCall.Destroy]
    {
      calls := calls + [BackendCall.Destroy];
    }

    /** Builds a resource; it may only be given resources already declared. */
    method Declare(d: Declaration) returns (h: Handle)
      requires Valid()
      requires forall x | x in d.dependencies :: RefersBack(log, |log|, x)
      modifies this`log
      ensures Valid()
      ensures h == |old(log)| && log == old(log) + [Declared(d)]
    {
      h := |log|;
      ExtendWellFormed(log, [Declared(d)]);
      log := log + [Declared(d)];
    }

    /** Builds a resource and calls `create()` on it straight away. */
    method DeclareAndCreate(d: Declaration) returns (h: Handle)
      requires Valid()
      requires forall x | x in d.dependencies :: RefersBack(log, |log|, x)
      modifies this`log
      ensures Valid()
      ensures h == |old(log)| && log == old(log) + [Declared(d), Created(h)]
    {
      h := Declare(d);
      Create(h);
    }

    /** Calls `create()` on a declared resource. */
    method Create(h: Handle)
      requires Valid() && RefersBack(log, |log|, h)
      modifies this`log
      ensures Valid()
      ensures log == old(log) + [Created(h)]
    {
      ExtendWellFormed(log, [Created(h)]);
      log := log + [Created(h)];
    }
  }
}
