/** The index of the applied configuration's selectors and what a manual selection is told
    (src-tauri/src/application/managed_observation_runtime.rs, AppliedRoutingIndex,
    reconcile_manual_selection, classify_selector_read_back). */
module SelectorIndex {
  import opened Common
  import opened Domain
  import opened Projection
  import Observations

  datatype RoutingIndex = RoutingIndex(generation: nat, members: map<Id, set<Id>>)

  function NodeTag(id: Id): string { "node-" + id }

  /** Tags determine nodes, so reading a tag back identifies one node. */
  lemma NodeTagInjective(a: Id, b: Id)
    requires NodeTag(a) == NodeTag(b)
    ensures a == b
  {
    assert NodeTag(a)[5..] == a && NodeTag(b)[5..] == b;
  }

  function MembersOf(pools: seq<RuntimePool>): map<Id, set<Id>> {
    if pools == [] then map[]
    else
      var last := pools[|pools| - 1];
      MembersOf(pools[..|pools| - 1])[last.id := set id | id in last.members]
  }

  function IndexOf(p: Projected): RoutingIndex {
    RoutingIndex(p.generation, MembersOf(p.pools))
  }

  /** The index of a projection has every compiled pool with exactly its members. */
  lemma {:induction false} IndexIsTheProjection(pools: seq<RuntimePool>, k: nat)
    requires Ascending(pools, RuntimePoolKey) && k < |pools|
    ensures pools[k].id in MembersOf(pools)
    ensures forall id :: id in MembersOf(pools)[pools[k].id] <==> id in pools[k].members
  {
    var last := |pools| - 1;
    if k < last {
      assert Before(RuntimePoolKey(pools[k]), RuntimePoolKey(pools[last]));
      KeyOrder(RuntimePoolKey(pools[k]), RuntimePoolKey(pools[k]));
      IndexIsTheProjection(pools[..last], k);
    }
  }

  datatype Saved = RuntimeStopped | RuntimeNotReady | NotInAppliedArtifact | DispatchUnavailable

  datatype Unknown = ReadBackUnavailable | UnknownRuntimeNode | InstanceChanged

  datatype Answer =
    | Applied
    | NotApplied(runtimeNodeId: Id)
    | SavedOnly(saved: Saved)
    | ApplyUnknown(reason: Unknown)

  /** The runtime when asked: its lifecycle, the observed lifecycle and applied generation, whether
      its API secret and client are available, what reading the selector back gave, and whether the
      core or the applied generation has been replaced meanwhile. */
  datatype SelectionEnv = SelectionEnv(
    hasRuntime: bool, lifecycle: Observations.Lifecycle, observed: Observations.Lifecycle, appliedGeneration: Option<nat>,
    secret: bool, client: bool, readBack: Option<string>, replaced: bool)

  class AppliedRouting {
    var index: Option<RoutingIndex>
    /** The node each selector was last seen to use. */
    var runtimeNodes: map<Id, Id>

    /** Only selectors and members of the applied configuration are ever reported. */
    ghost predicate Valid()
      reads this
    {
      && (index.None? ==> runtimeNodes == map[])
      && forall p :: p in runtimeNodes ==> p in index.value.members && runtimeNodes[p] in index.value.members[p]
    }

    constructor ()
      ensures Valid() && index.None?
    {
      index, runtimeNodes := None, map[];
    }

    method Install(projection: Projected)
      modifies this
      ensures Valid() && index == Some(IndexOf(projection)) && runtimeNodes == map[]
    {
      index, runtimeNodes := Some(IndexOf(projection)), map[];
    }

    method Clear()
      modifies this
      ensures Valid() && index.None?
    {
      index, runtimeNodes := None, map[];
    }

    /** Look the tag up among the pool's members. */
    method FindNode(members: set<Id>, tag: string) returns (found: Option<Id>)
      ensures found.Some? ==> found.value in members && NodeTag(found.value) == tag
      ensures found.None? ==> forall id :: id in members ==> NodeTag(id) != tag
    {
      var left := members;
      while left != {}
        invariant left <= members && forall id :: id in members - left ==> NodeTag(id) != tag
        decreases left
      {
        var id :| id in left;
        if NodeTag(id) == tag { return Some(id); }
        left := left - {id};
      }
      found := None;
    }

    /** Core and observation are Ready. */
    predicate Ready(env: SelectionEnv) {
      env.hasRuntime && env.lifecycle == Observations.Ready && env.observed == Observations.Ready
    }

    /** The applied configuration has this node in this pool. */
    predicate Offered(poolId: Id, nodeId: Id, env: SelectionEnv)
      reads this
    {
      && index.Some? && env.appliedGeneration == Some(index.value.generation)
      && poolId in index.value.members && nodeId in index.value.members[poolId]
    }

    predicate Dispatched(poolId: Id, nodeId: Id, env: SelectionEnv)
      reads this
    {
      Ready(env) && Offered(poolId, nodeId, env) && env.secret && env.client
    }

    /** The choice is sent, the core is still the same, and the selector is read back on this node. */
    predicate ReadsBack(poolId: Id, nodeId: Id, env: SelectionEnv, seen: Id)
      reads this
    {
      && Dispatched(poolId, nodeId, env) && !env.replaced
      && seen in index.value.members[poolId] && env.readBack == Some(NodeTag(seen))
    }

    /** Which answer is given when. It follows what the core said last, never what was asked for, and
        nothing is dispatched or remembered for a choice outside the applied configuration. */
    method Reconcile(poolId: Id, nodeId: Id, env: SelectionEnv) returns (r: Answer)
      requires Valid()
      modifies this`runtimeNodes
      ensures Valid()
      ensures r == Applied <==> ReadsBack(poolId, nodeId, env, nodeId)
      ensures forall n :: r == NotApplied(n) <==> ReadsBack(poolId, nodeId, env, n) && n != nodeId
      ensures r == ApplyUnknown(InstanceChanged) <==> Dispatched(poolId, nodeId, env) && env.replaced
      ensures r == ApplyUnknown(ReadBackUnavailable) <==>
        Dispatched(poolId, nodeId, env) && !env.replaced && env.readBack.None?
      ensures r == ApplyUnknown(UnknownRuntimeNode) <==>
        && Dispatched(poolId, nodeId, env) && !env.replaced && env.readBack.Some?
        && forall n :: !ReadsBack(poolId, nodeId, env, n)
      ensures r == SavedOnly(RuntimeStopped) <==> !env.hasRuntime || env.lifecycle == Observations.Stopped
      ensures r == SavedOnly(RuntimeNotReady) <==>
        && env.hasRuntime && env.lifecycle != Observations.Stopped
        && (!Ready(env) || (Offered(poolId, nodeId, env) && !env.secret))
      ensures r == SavedOnly(NotInAppliedArtifact) <==> Ready(env) && !Offered(poolId, nodeId, env)
      ensures r == SavedOnly(DispatchUnavailable) <==>
        Ready(env) && Offered(poolId, nodeId, env) && env.secret && !env.client
      ensures runtimeNodes ==
        match r
        case Applied => old(runtimeNodes)[poolId := nodeId]
        case NotApplied(n) => old(runtimeNodes)[poolId := n]
        case SavedOnly(_) => old(runtimeNodes)
        case ApplyUnknown(_) => old(runtimeNodes) - {poolId}
    {
      if !env.hasRuntime || env.lifecycle == Observations.Stopped { return SavedOnly(RuntimeStopped); }
      if env.lifecycle != Observations.Ready { return SavedOnly(RuntimeNotReady); }
      if env.observed != Observations.Ready { return SavedOnly(RuntimeNotReady); }
      if index.None? || env.appliedGeneration != Some(index.value.generation) { return SavedOnly(NotInAppliedArtifact); }
      if poolId !in index.value.members || nodeId !in index.value.members[poolId] { return SavedOnly(NotInAppliedArtifact); }
      if !env.secret { return SavedOnly(RuntimeNotReady); }
      if !env.client { return SavedOnly(DispatchUnavailable); }
      if env.replaced {
        runtimeNodes := runtimeNodes - {poolId};
        return ApplyUnknown(InstanceChanged);
      }
      if env.readBack.None? {
        runtimeNodes := runtimeNodes - {poolId};
        return ApplyUnknown(ReadBackUnavailable);
      }
      var found := FindNode(index.value.members[poolId], env.readBack.value);
      forall n | found.Some? && NodeTag(n) == env.readBack.value ensures n == found.value { NodeTagInjective(n, found.value); }
      if found.None? {
        runtimeNodes := runtimeNodes - {poolId};
        return ApplyUnknown(UnknownRuntimeNode);
      }
      runtimeNodes := runtimeNodes[poolId := found.value];
      if found.value == nodeId { r := Applied; } else { r := NotApplied(found.value); }
    }
  }

  /** After a projection is installed, a choice is dispatched only for a node the projection
      compiled into that pool. */
  lemma IndexedChoiceIsCompiled(s: AppState, poolId: Id, nodeId: Id)
    requires Project(s).Ok?
    ensures IndexOf(Project(s).value).generation == s.generation
    ensures var out := Project(s).value;
      (poolId in IndexOf(out).members && nodeId in IndexOf(out).members[poolId]) <==>
        exists p :: p in out.pools && p.id == poolId && nodeId in p.members
  {
    hide Project;
    ProjectionIsClosed(s);
    var pools := Project(s).value.pools;
    if p :| p in pools && p.id == poolId && nodeId in p.members {
      var k :| 0 <= k < |pools| && pools[k] == p;
      IndexIsTheProjection(pools, k);
    }
    if poolId in MembersOf(pools) && nodeId in MembersOf(pools)[poolId] {
      var k := IndexedPool(pools, poolId);
      IndexIsTheProjection(pools, k);
      assert pools[k] in pools;
    }
  }

  lemma {:induction false} IndexedPool(pools: seq<RuntimePool>, id: Id) returns (k: nat)
    requires id in MembersOf(pools)
    ensures k < |pools| && pools[k].id == id
  {
    var last := |pools| - 1;
    if pools[last].id == id {
      k := last;
    } else {
      k := IndexedPool(pools[..last], id);
    }
  }
}
