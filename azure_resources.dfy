/**
 * The Azure resources the stacks declare, written once and shared by the
 * three Azure classes: the base infrastructure, the Docker-dependent
 * resources, and the two ways a class writes a list of them into the
 * engine's log (built only, or built and created one by one).
 */
module AzureResources {
  import opened Wrappers
  import opened Events
  import opened Backend

  /**
   * The base infrastructure for `identity`: the resource group, then the
   * function storage account, the app service plan, app insights and the
   * container registry, each given the resource group `group`.
   */
  function InfrastructureResources(identity: Identity, group: Handle): seq<Declaration> {
    [ Declaration(ResourceGroup, identity, [], None),
      Declaration(FunctionStorageAccount, identity, [group], None),
      Declaration(AppServicePlan, identity, [group], None),
      Declaration(AppInsights, identity, [group], None),
      Declaration(ContainerRegistry, identity, [group], None) ]
  }

  /**
   * The Docker-dependent resources: the web app running `image` (given app
   * insights, the storage account, the plan, the registry and the group, in
   * that argument order), the pull-role definition on the registry, and the
   * assignment of that role to the web app.
   */
  function DockerResources(identity: Identity, image: ImageReference, insights: Handle, storage: Handle, plan: Handle,
                           registry: Handle, group: Handle, webApp: Handle, definition: Handle): seq<Declaration> {
    [ Declaration(WebApp, identity, [insights, storage, plan, registry, group], Some(image)),
      Declaration(DockerPullRoleDefinition, identity, [registry, group], None),
      Declaration(DockerPullRoleAssignment, identity, [webApp, definition, registry, group], None) ]
  }

  /** The base infrastructure: five classes in order, all for `identity`, every one after the first given the group. */
  lemma InfrastructureResourcesShape(identity: Identity, group: Handle)
    ensures Kinds(InfrastructureResources(identity, group)) == InfrastructureKinds
    ensures forall k | 0 <= k < |InfrastructureResources(identity, group)| ::
              InfrastructureResources(identity, group)[k].identity == identity
    ensures InfrastructureResources(identity, group)[0].dependencies == []
    ensures forall k | 1 <= k < |InfrastructureResources(identity, group)| ::
              InfrastructureResources(identity, group)[k].dependencies == [group]
  {
  }

  /**
   * The Docker resources: three classes in order, all for `identity` and all
   * given the registry and the group; the web app runs `image`, and the role
   * assignment is given the web app and the role definition.
   */
  lemma DockerResourcesShape(identity: Identity, image: ImageReference, insights: Handle, storage: Handle, plan: Handle,
                             registry: Handle, group: Handle, webApp: Handle, definition: Handle)
    ensures var ds := DockerResources(identity, image, insights, storage, plan, registry, group, webApp, definition);
      && Kinds(ds) == DockerKinds
      && (forall k | 0 <= k < |ds| :: ds[k].identity == identity && registry in ds[k].dependencies && group in ds[k].dependencies)
      && ds[0].image == Some(image)
      && ds[2].dependencies[..2] == [webApp, definition]
  {
  }

  /** The classes of a list of declarations. */
  function Kinds(ds: seq<Declaration>): (kinds: seq<ResourceKind>)
    ensures |kinds| == |ds| && forall k | 0 <= k < |ds| :: kinds[k] == ds[k].kind
  {
    seq(|ds|, k requires 0 <= k < |ds| => ds[k].kind)
  }

  lemma KindsCons(ds: seq<Declaration>)
    requires ds != []
    ensures Kinds(ds) == [ds[0].kind] + Kinds(ds[1..])
  {
    assert ([ds[0].kind] + Kinds(ds[1..]))[0] == ds[0].kind;
  }

  /** Each resource is built, none is created. */
  function DeclareEach(ds: seq<Declaration>): (steps: seq<Step>)
    ensures |steps| == |ds| && forall k | 0 <= k < |ds| :: steps[k] == Declared(ds[k])
  {
    seq(|ds|, k requires 0 <= k < |ds| => Declared(ds[k]))
  }

  /**
   * Each resource is built and `create()` is called on it straight away;
   * the first declaration lands at position `first` of the log.
   */
  function DeclareAndCreateEach(ds: seq<Declaration>, first: Handle): (steps: seq<Step>)
    decreases |ds|
    ensures |steps| == |ds| + |ds|
  {
    if ds == [] then [] else [Declared(ds[0]), Created(first)] + DeclareAndCreateEach(ds[1..], first + 2)
  }

  /** Position `i` of `DeclareAndCreateEach(ds, first)`: even ones build `ds[i / 2]`, odd ones create the resource just built. */
  lemma {:induction false} DeclareAndCreateEachAt(ds: seq<Declaration>, first: Handle, i: nat)
    requires i < |ds| + |ds|
    decreases i
    ensures DeclareAndCreateEach(ds, first)[i] == if i % 2 == 0 then Declared(ds[i / 2]) else Created(first + i - 1)
  {
    if i >= 2 {
      DeclareAndCreateEachAt(ds[1..], first + 2, i - 2);
      assert DeclareAndCreateEach(ds, first)[i] == DeclareAndCreateEach(ds[1..], first + 2)[i - 2];
    }
  }

  lemma {:induction false} DeclareEachKinds(ds: seq<Declaration>)
    ensures DeclaredKinds(DeclareEach(ds)) == Kinds(ds)
  {
    if ds != [] {
      var steps := DeclareEach(ds);
      assert steps[1..] == DeclareEach(ds[1..]);
      assert DeclaredKinds(steps) == [ds[0].kind] + DeclaredKinds(DeclareEach(ds[1..]));
      DeclareEachKinds(ds[1..]);
      KindsCons(ds);
    }
  }

  lemma {:induction false} DeclareAndCreateEachKinds(ds: seq<Declaration>, first: Handle)
    decreases |ds|
    ensures DeclaredKinds(DeclareAndCreateEach(ds, first)) == Kinds(ds)
  {
    if ds != [] {
      DeclaredKindsPair(Declared(ds[0]), Created(first), DeclareAndCreateEach(ds[1..], first + 2));
      DeclareAndCreateEachKinds(ds[1..], first + 2);
      KindsCons(ds);
    }
  }

  /**
   * Declaring `ds` keeps a well-formed log well-formed when each resource is
   * only given resources declared before it: earlier ones in the log, or
   * earlier ones of `ds`.
   */
  lemma {:induction false} DeclareEachWellFormed(log: seq<Step>, ds: seq<Declaration>)
    requires WellFormed(log)
    requires forall k | 0 <= k < |ds| :: forall h | h in ds[k].dependencies ::
               h < |log| + k && (h < |log| ==> log[h].Declared?)
    ensures WellFormed(log + DeclareEach(ds))
  {
    var more := DeclareEach(ds);
    forall i | |log| <= i < |log| + |more|
      ensures StepRefersBack(log + more, i)
    {
      var k := i - |log|;
      assert (log + more)[i] == Declared(ds[k]);
      forall h | h in ds[k].dependencies
        ensures RefersBack(log + more, i, h)
      {
        if h < |log| {
          assert (log + more)[h] == log[h];
        } else {
          assert (log + more)[h] == more[h - |log|];
        }
      }
    }
    ExtendWellFormed(log, more);
  }

  /**
   * Declaring and creating `ds` keeps a well-formed log well-formed when each
   * resource is only given resources declared before it: earlier ones in the
   * log, or earlier ones of `ds` (which sit at even offsets).
   */
  lemma {:induction false} DeclareAndCreateEachWellFormed(log: seq<Step>, ds: seq<Declaration>)
    requires WellFormed(log)
    requires forall k | 0 <= k < |ds| :: forall h | h in ds[k].dependencies ::
               h < |log| + k + k && (h < |log| ==> log[h].Declared?) && (h >= |log| ==> (h - |log|) % 2 == 0)
    ensures WellFormed(log + DeclareAndCreateEach(ds, |log|))
  {
    var more := DeclareAndCreateEach(ds, |log|);
    var all := log + more;
    forall i | |log| <= i < |log| + |more|
      ensures StepRefersBack(all, i)
    {
      var j := i - |log|;
      DeclareAndCreateEachAt(ds, |log|, j);
      assert all[i] == more[j];
      if j % 2 == 0 {
        var k := j / 2;
        forall h | h in ds[k].dependencies
          ensures RefersBack(all, i, h)
        {
          if h < |log| {
            assert all[h] == log[h];
          } else {
            DeclareAndCreateEachAt(ds, |log|, h - |log|);
            assert all[h] == more[h - |log|];
          }
        }
      } else {
        DeclareAndCreateEachAt(ds, |log|, j - 1);
        assert all[i - 1] == more[j - 1];
      }
    }
    ExtendWellFormed(log, more);
  }
}
