/** What a projection is, said about the stored rows alone, and that the compiler of module Projection
    yields exactly that (src-tauri/src/application/selected_subscription.rs). */
module ProjectionMeaning {
  import opened Common
  import opened Domain
  import opened Projection

  /** The provider belongs to the subscription. */
  ghost predicate Belongs(s: AppState, sub: Id, providerId: Id) {
    exists q :: q in s.providers && q.id == providerId && q.subscriptionId == sub
  }

  ghost predicate OwnNode(s: AppState, sub: Id, n: Node) {
    n in s.nodes && Belongs(s, sub, n.providerId)
  }

  /** The source counts for the pool: in an implicit pool only if its provider is the subscription's. */
  ghost predicate Counts(s: AppState, sub: Id, p: Pool, src: PoolSource) {
    src in p.sources && (p.kind == Custom || Belongs(s, sub, src.providerId))
  }

  ghost predicate Member(s: AppState, sub: Id, p: Pool, id: Id) {
    exists n, src :: n in s.nodes && Counts(s, sub, p, src) && SourceTakes(src, n) && n.id == id
  }

  /** Enabled and with a source that counts. */
  ghost predicate Runs(s: AppState, sub: Id, p: Pool) {
    p in s.pools && p.enabled && exists src :: Counts(s, sub, p, src)
  }

  ghost predicate CompiledPool(s: AppState, sub: Id, p: Pool, e: RuntimePool) {
    && Runs(s, sub, p) && e.id == p.id && e.selection == p.selection
    && Ascending(e.members, IdKey) && forall id :: id in e.members <==> Member(s, sub, p, id)
  }

  /** The pool made for the subscription itself: all its nodes, none chosen. */
  ghost predicate OwnPool(s: AppState, sub: Id, e: RuntimePool) {
    && e.id == "runtime-active-" + sub && e.selection == ManualChoice(None)
    && Ascending(e.members, IdKey) && forall id :: id in e.members <==> exists n :: OwnNode(s, sub, n) && n.id == id
  }

  /** The node is needed: the subscription's own, or taken by an enabled custom pool. */
  ghost predicate Needed(s: AppState, sub: Id, n: Node) {
    || OwnNode(s, sub, n)
    || (n in s.nodes && exists p, src :: p in s.pools && p.enabled && p.kind == Custom && src in p.sources && SourceTakes(src, n))
  }

  ghost predicate IsProjection(s: AppState, out: Projected) {
    var sub := out.subscriptionId;
    && s.activeId == Some(sub) && out.generation == s.generation
    && Ascending(out.pools, RuntimePoolKey)
    && (forall e :: e in out.pools <==> OwnPool(s, sub, e) || exists p :: CompiledPool(s, sub, p, e))
    && Ascending(out.nodes, NodeKey) && (forall n :: n in out.nodes <==> Needed(s, sub, n))
    && Ascending(out.routes, RouteKey) && (forall r :: r in out.routes <==> r in s.routes && r.enabled)
    && out.defaultTarget == if s.defaultTarget == Unconfigured then ToPool("runtime-active-" + sub) else s.defaultTarget
  }

  // ---- the compiler's notions are these ------------------------------------------------------------------

  lemma OwnProvidersBelong(s: AppState, sub: Id)
    ensures forall id :: id in OwnProviders(s, sub) <==> Belongs(s, sub, id)
    ensures forall n :: n in OwnNodes(s, sub) <==> OwnNode(s, sub, n)
  {
  }

  lemma NarrowedCount(s: AppState, sub: Id, p: Pool)
    ensures forall src :: src in NarrowSources(s, sub, p) <==> Counts(s, sub, p, src)
  {
    OwnProvidersBelong(s, sub);
  }

  lemma InPlayRuns(s: AppState, sub: Id, p: Pool)
    requires p in s.pools
    ensures InPlay(s, sub, p) <==> Runs(s, sub, p)
  {
    NarrowedCount(s, sub, p);
    hide Counts, NarrowSources;
    if InPlay(s, sub, p) { assert NarrowSources(s, sub, p)[0] in NarrowSources(s, sub, p); }
  }

  lemma EntryIsCompiled(s: AppState, sub: Id, p: Pool)
    requires p in s.pools && InPlay(s, sub, p)
    ensures CompiledPool(s, sub, p, Entry(s, sub, p))
  {
    InPlayRuns(s, sub, p);
    NarrowedCount(s, sub, p);
    SortedIdsAscending(MemberList(s.nodes, NarrowSources(s, sub, p)));
    hide Counts, NarrowSources, InPlay, Runs, SourceTakes;
  }

  lemma EntryMembers(s: AppState, sub: Id, p: Pool)
    ensures forall id :: id in Entry(s, sub, p).members <==> Member(s, sub, p, id)
  {
    NarrowedCount(s, sub, p);
    hide Counts, NarrowSources, SourceTakes;
  }

  lemma ImplicitIsOwn(s: AppState, sub: Id)
    ensures OwnPool(s, sub, ImplicitEntry(s, sub))
  {
    OwnProvidersBelong(s, sub);
    var own := OwnNodes(s, sub);
    var ids := Map(own, NodeId);
    SortedIdsAscending(ids);
    hide OwnNodes, OwnNode;
    forall id ensures id in ids <==> exists n :: OwnNode(s, sub, n) && n.id == id {
      if id in ids {
        var i :| 0 <= i < |ids| && ids[i] == id;
        assert own[i] in own;
      }
      if n :| OwnNode(s, sub, n) && n.id == id {
        var i :| 0 <= i < |own| && own[i] == n;
        assert ids[i] == id;
      }
    }
  }

  /** A pool is compiled in only one way. */
  lemma OneCompiledPool(s: AppState, sub: Id, p: Pool, a: RuntimePool, b: RuntimePool)
    requires CompiledPool(s, sub, p, a) && CompiledPool(s, sub, p, b)
    ensures a == b
  {
    hide Member;
    AscendingUnique(a.members, b.members, IdKey);
  }

  lemma OneOwnPool(s: AppState, sub: Id, a: RuntimePool, b: RuntimePool)
    requires OwnPool(s, sub, a) && OwnPool(s, sub, b)
    ensures a == b
  {
    hide OwnNode;
    AscendingUnique(a.members, b.members, IdKey);
  }

  lemma EntriesAreCompiled(s: AppState, sub: Id)
    ensures forall e :: e in Entries(s, sub) <==> OwnPool(s, sub, e) || exists p :: CompiledPool(s, sub, p, e)
  {
    hide OwnPool, CompiledPool, Entry, InPlay, Entries, ImplicitEntry;
    ImplicitIsOwn(s, sub);
    forall e ensures e in Entries(s, sub) <==> OwnPool(s, sub, e) || exists p :: CompiledPool(s, sub, p, e) {
      EntryOrigin(s, sub, e);
      if OwnPool(s, sub, e) { OneOwnPool(s, sub, e, ImplicitEntry(s, sub)); }
      if p :| CompiledPool(s, sub, p, e) { CompiledIsEntry(s, sub, p, e); }
      if p :| p in s.pools && InPlay(s, sub, p) && e == Entry(s, sub, p) { EntryIsCompiled(s, sub, p); }
    }
  }

  lemma CompiledIsEntry(s: AppState, sub: Id, p: Pool, e: RuntimePool)
    requires CompiledPool(s, sub, p, e)
    ensures p in s.pools && InPlay(s, sub, p) && e == Entry(s, sub, p)
  {
    InPlayRuns(s, sub, p);
    EntryIsCompiled(s, sub, p);
    OneCompiledPool(s, sub, p, e, Entry(s, sub, p));
  }

  lemma SelectedIsNeeded(s: AppState, sub: Id, n: Node)
    requires Valid(s) && n in s.nodes
    ensures Selected(s, sub, n) <==> Needed(s, sub, n)
  {
    OwnProvidersBelong(s, sub);
    UniqueIsDistinct(s.nodes, NodeId);
    hide Valid, SourceTakes, OwnProviders, Entry, Member, InPlay, Runs, Counts;
    if p :| p in s.pools && p.kind == Custom && InPlay(s, sub, p) && n.id in Entry(s, sub, p).members {
      InPlayRuns(s, sub, p);
      EntryMembers(s, sub, p);
      MemberOfCustom(s, sub, p, n);
    }
    if p, src :| p in s.pools && p.enabled && p.kind == Custom && src in p.sources && SourceTakes(src, n) {
      EntryMembers(s, sub, p);
      TakenIsMember(s, sub, p, src, n);
      InPlayRuns(s, sub, p);
    }
  }

  lemma MemberOfCustom(s: AppState, sub: Id, p: Pool, n: Node)
    requires Distinct(s.nodes, NodeId) && n in s.nodes && Runs(s, sub, p) && p.kind == Custom && Member(s, sub, p, n.id)
    ensures p.enabled && exists src :: src in p.sources && SourceTakes(src, n)
  {
    hide SourceTakes;
    var m, src :| m in s.nodes && Counts(s, sub, p, src) && SourceTakes(src, m) && m.id == n.id;
    DistinctElement(s.nodes, NodeId, m, n);
  }

  lemma TakenIsMember(s: AppState, sub: Id, p: Pool, src: PoolSource, n: Node)
    requires p in s.pools && p.enabled && p.kind == Custom && n in s.nodes && src in p.sources && SourceTakes(src, n)
    ensures Runs(s, sub, p) && Member(s, sub, p, n.id)
  {
    hide SourceTakes;
    assert Counts(s, sub, p, src);
  }

  // ---- what comes out -------------------------------------------------------------------------------------

  /** A successful projection is the projection of the state. */
  lemma ProjectionIsRight(s: AppState)
    requires Project(s).Ok?
    ensures IsProjection(s, Project(s).value)
  {
    hide Valid, Entries, SelectedNodes, Needed, OwnPool, CompiledPool, Unusable, PoolEntries, OwnProviders, OwnNodes, Sort;
    var sub := s.activeId.value;
    EntriesDistinct(s, sub);
    SortAscending(Entries(s, sub), RuntimePoolKey);
    EntriesAreCompiled(s, sub);
    NodesSorted(s, sub);
    forall n ensures n in SelectedNodes(s, sub) <==> Needed(s, sub, n) { NodeIsNeeded(s, sub, n); }
    EnabledRoutesDistinct(s);
    SortAscending(EnabledRoutes(s), RouteKey);
  }

  lemma NodeIsNeeded(s: AppState, sub: Id, n: Node)
    requires Valid(s)
    ensures n in SelectedNodes(s, sub) <==> Needed(s, sub, n)
  {
    if n in s.nodes { SelectedIsNeeded(s, sub, n); }
  }

  /** There is only one. */
  lemma ProjectionIsDetermined(s: AppState, a: Projected, b: Projected)
    requires IsProjection(s, a) && IsProjection(s, b)
    ensures a == b
  {
    hide OwnPool, CompiledPool, Needed;
    AscendingUnique(a.pools, b.pools, RuntimePoolKey);
    AscendingUnique(a.nodes, b.nodes, NodeKey);
    AscendingUnique(a.routes, b.routes, RouteKey);
  }

  // ---- when it comes out -------------------------------------------------------------------------------------

  /** The pool has members, and a chosen node is one of them. */
  ghost predicate Usable(s: AppState, sub: Id, p: Pool) {
    && (exists id :: Member(s, sub, p, id))
    && (p.selection.ManualChoice? && p.selection.selectedNodeId.Some? ==> Member(s, sub, p, p.selection.selectedNodeId.value))
  }

  /** The target is no pool, or a pool that runs. */
  ghost predicate Reachable(s: AppState, sub: Id, target: Target) {
    target.ToPool? ==> target.poolId == "runtime-active-" + sub || exists p :: Runs(s, sub, p) && p.id == target.poolId
  }

  ghost predicate Configured(s: AppState, sub: Id) {
    Valid(s) && exists n :: OwnNode(s, sub, n)
  }

  ghost predicate Consistent(s: AppState, sub: Id) {
    && (forall p :: p in s.pools ==> p.id != "runtime-active-" + sub)
    && (forall p :: Runs(s, sub, p) ==> Usable(s, sub, p))
    && Reachable(s, sub, s.defaultTarget)
    && (forall r :: r in s.routes && r.enabled ==> Reachable(s, sub, r.target))
  }

  /** When a state has a projection, and which error it gets otherwise. */
  lemma ProjectsExactly(s: AppState)
    ensures Project(s).Ok? <==>
      s.activeId.Some? && HasSubscription(s, s.activeId.value) && Configured(s, s.activeId.value) && Consistent(s, s.activeId.value)
    ensures Project(s) == Err(SelectionRequired) <==> s.activeId.None?
    ensures Project(s) == Err(NotFound) <==> s.activeId.Some? && !HasSubscription(s, s.activeId.value)
    ensures Project(s) == Err(ConfigurationFailed) <==>
      s.activeId.Some? && HasSubscription(s, s.activeId.value) && !Configured(s, s.activeId.value)
    ensures Project(s) == Err(SelectionConflict) <==>
      && s.activeId.Some? && HasSubscription(s, s.activeId.value) && Configured(s, s.activeId.value)
      && !Consistent(s, s.activeId.value)
  {
    hide Valid, Entries, OwnNode, Usable, Runs, Reachable, Unusable, PoolEntries, OwnProviders, OwnNodes, Sort, Entry, InPlay;
    hide Assemble, EnabledRoutes, SelectedNodes;
    if s.activeId.Some? && HasSubscription(s, s.activeId.value) {
      var sub := s.activeId.value;
      OwnNodesExist(s, sub);
      UnusableExactly(s, sub);
      AssemblesExactly(s, sub, Sort(SelectedNodes(s, sub), NodeKey));
    }
  }

  lemma AssemblesExactly(s: AppState, sub: Id, nodes: seq<Node>)
    ensures var r := Assemble(s.defaultTarget, s.generation, sub, nodes,
                              Sort(Entries(s, sub), RuntimePoolKey), Sort(EnabledRoutes(s), RouteKey));
      && (r.Ok? <==> Reachable(s, sub, s.defaultTarget) && forall r :: r in s.routes && r.enabled ==> Reachable(s, sub, r.target))
      && (r.Err? ==> r.error == SelectionConflict)
  {
    hide Entries, Runs;
    ReachableExactly(s, sub);
    var pools, routes := Sort(Entries(s, sub), RuntimePoolKey), Sort(EnabledRoutes(s), RouteKey);
    assert forall r :: r in routes <==> r in s.routes && r.enabled;
    hide Sort, EnabledRoutes;
    forall target: Target ensures
      Reachable(s, sub, target) <==> target.ToPool? ==> target.poolId in set p | p in pools :: p.id
    {
    }
  }

  lemma OwnNodesExist(s: AppState, sub: Id)
    ensures (OwnProviders(s, sub) == {} || OwnNodes(s, sub) == []) <==> !exists n :: OwnNode(s, sub, n)
  {
    OwnProvidersBelong(s, sub);
    if OwnNodes(s, sub) != [] { assert OwnNodes(s, sub)[0] in OwnNodes(s, sub); }
  }

  lemma {:induction false} UnusableExactly(s: AppState, sub: Id)
    ensures (exists e | e in PoolEntries(s, sub, s.pools) :: Unusable(e)) <==> exists p :: Runs(s, sub, p) && !Usable(s, sub, p)
  {
    hide Runs, Usable, InPlay, Entry, Unusable;
    if e :| e in PoolEntries(s, sub, s.pools) && Unusable(e) {
      var p :| p in s.pools && InPlay(s, sub, p) && e == Entry(s, sub, p);
      InPlayRuns(s, sub, p);
      EntryUsable(s, sub, p);
    }
    if p :| Runs(s, sub, p) && !Usable(s, sub, p) {
      RunsIsStored(s, sub, p);
      InPlayRuns(s, sub, p);
      EntryUsable(s, sub, p);
      assert Entry(s, sub, p) in PoolEntries(s, sub, s.pools);
    }
  }

  lemma RunsIsStored(s: AppState, sub: Id, p: Pool)
    requires Runs(s, sub, p)
    ensures p in s.pools
  {
  }

  lemma EntryUsable(s: AppState, sub: Id, p: Pool)
    ensures Unusable(Entry(s, sub, p)) <==> !Usable(s, sub, p)
  {
    EntryMembers(s, sub, p);
    hide Member, ResolveMembers;
    var members := Entry(s, sub, p).members;
    if members != [] { assert members[0] in members; }
  }

  lemma ReachableExactly(s: AppState, sub: Id)
    ensures forall target: Target :: target.ToPool? ==>
      (Reachable(s, sub, target) <==> exists e :: e in Sort(Entries(s, sub), RuntimePoolKey) && e.id == target.poolId)
  {
    hide Runs, Sort, Entries, InPlay;
    forall target: Target | target.ToPool?
      ensures Reachable(s, sub, target) <==> exists e :: e in Sort(Entries(s, sub), RuntimePoolKey) && e.id == target.poolId
    {
      EntryOrigin(s, sub, ImplicitEntry(s, sub));
      if p :| Runs(s, sub, p) && p.id == target.poolId {
        RunsIsStored(s, sub, p);
        InPlayRuns(s, sub, p);
        EntryOrigin(s, sub, Entry(s, sub, p));
      }
      if e :| e in Sort(Entries(s, sub), RuntimePoolKey) && e.id == target.poolId {
        EntryOrigin(s, sub, e);
        if p :| p in s.pools && InPlay(s, sub, p) && e == Entry(s, sub, p) { InPlayRuns(s, sub, p); }
      }
    }
  }

  /** A projection looks at subscriptions only for their ids, and at nodes only for which there are. */
  lemma SameRowsSameProjection(s: AppState, t: AppState)
    requires Valid(s) && Valid(t) && t == s.(subscriptions := t.subscriptions, nodes := t.nodes)
    requires |s.subscriptions| == |t.subscriptions|
    requires forall i :: 0 <= i < |s.subscriptions| ==> s.subscriptions[i].id == t.subscriptions[i].id
    requires forall n :: n in s.nodes <==> n in t.nodes
    ensures Project(s) == Project(t)
  {
    hide Project, Valid, SourceTakes;
    ProjectsExactly(s);
    ProjectsExactly(t);
    SameSubscriptions(s, t);
    if s.activeId.Some? {
      SameNotions(s, t, s.activeId.value);
      SameReach(s, t, s.activeId.value);
    }
    if Project(s).Ok? {
      ProjectionIsRight(s);
      ProjectionIsRight(t);
      SameProjections(s, t, Project(t).value);
      ProjectionIsDetermined(s, Project(s).value, Project(t).value);
    }
  }

  lemma SameSubscriptions(s: AppState, t: AppState)
    requires |s.subscriptions| == |t.subscriptions|
    requires forall i :: 0 <= i < |s.subscriptions| ==> s.subscriptions[i].id == t.subscriptions[i].id
    ensures forall id :: HasSubscription(s, id) <==> HasSubscription(t, id)
  {
    forall id ensures HasSubscription(s, id) <==> HasSubscription(t, id) {
      if row :| row in s.subscriptions && row.id == id {
        var i :| 0 <= i < |s.subscriptions| && s.subscriptions[i] == row;
        assert t.subscriptions[i] in t.subscriptions;
      }
      if row :| row in t.subscriptions && row.id == id {
        var i :| 0 <= i < |t.subscriptions| && t.subscriptions[i] == row;
        assert s.subscriptions[i] in s.subscriptions;
      }
    }
  }

  lemma SameNotions(s: AppState, t: AppState, sub: Id)
    requires t == s.(subscriptions := t.subscriptions, nodes := t.nodes) && forall n :: n in s.nodes <==> n in t.nodes
    ensures forall n :: (OwnNode(s, sub, n) <==> OwnNode(t, sub, n)) && (Needed(s, sub, n) <==> Needed(t, sub, n))
    ensures forall p, id :: Member(s, sub, p, id) <==> Member(t, sub, p, id)
    ensures forall p :: Runs(s, sub, p) <==> Runs(t, sub, p)
  {
    hide SourceTakes;
    assert forall id :: Belongs(s, sub, id) <==> Belongs(t, sub, id);
    assert forall p, src :: Counts(s, sub, p, src) <==> Counts(t, sub, p, src);
  }

  lemma SameReach(s: AppState, t: AppState, sub: Id)
    requires t == s.(subscriptions := t.subscriptions, nodes := t.nodes)
    requires forall n :: OwnNode(s, sub, n) <==> OwnNode(t, sub, n)
    requires forall p, id :: Member(s, sub, p, id) <==> Member(t, sub, p, id)
    requires forall p :: Runs(s, sub, p) <==> Runs(t, sub, p)
    ensures (exists n :: OwnNode(s, sub, n)) <==> exists n :: OwnNode(t, sub, n)
    ensures Consistent(s, sub) <==> Consistent(t, sub)
  {
    hide OwnNode, Member, Runs;
    assert forall p :: Usable(s, sub, p) <==> Usable(t, sub, p);
    assert forall target :: Reachable(s, sub, target) <==> Reachable(t, sub, target);
  }

  lemma SameProjections(s: AppState, t: AppState, out: Projected)
    requires t == s.(subscriptions := t.subscriptions, nodes := t.nodes) && forall n :: n in s.nodes <==> n in t.nodes
    requires IsProjection(t, out)
    ensures IsProjection(s, out)
  {
    var sub := out.subscriptionId;
    SameNotions(s, t, sub);
    hide OwnNode, Member, Needed, Runs;
    assert forall e :: OwnPool(s, sub, e) <==> OwnPool(t, sub, e);
    assert forall p, e :: CompiledPool(s, sub, p, e) <==> CompiledPool(t, sub, p, e);
  }
}
