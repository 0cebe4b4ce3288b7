/** The compiler from the persisted state to the runtime intent
    (src-tauri/src/application/selected_subscription.rs). */
module Projection {
  import opened Common
  import opened Domain

  const RUNTIME_POOL_PREFIX: string := "runtime-active-"

  datatype RuntimePool = RuntimePool(id: Id, members: seq<Id>, selection: Selection)

  datatype Projected = Projected(
    nodes: seq<Node>, pools: seq<RuntimePool>, routes: seq<Route>,
    defaultTarget: Target, subscriptionId: Id, generation: nat)

  datatype ProjectionError = SelectionRequired | NotFound | SelectionConflict | ConfigurationFailed

  function RuntimePoolKey(p: RuntimePool): Key { Key(0, p.id) }
  function NodeKey(n: Node): Key { Key(0, n.id) }
  function RouteKey(r: Route): Key { Key(r.priority, r.id) }

  function ImplicitPoolId(subscriptionId: Id): Id { RUNTIME_POOL_PREFIX + subscriptionId }

  // ---- what each pool contributes, looked at on its own ---------------------------------------

  function OwnProviders(s: AppState, sub: Id): set<Id> {
    set p | p in s.providers && p.subscriptionId == sub :: p.id
  }

  function OwnNodes(s: AppState, sub: Id): seq<Node> {
    Filter(s.nodes, (n: Node) => n.providerId in OwnProviders(s, sub))
  }

  function OwnNodeIds(s: AppState, sub: Id): set<Id> {
    set n | n in OwnNodes(s, sub) :: n.id
  }

  /** The sources that count: an implicit pool only keeps those of the active subscription. */
  function NarrowSources(s: AppState, sub: Id, pool: Pool): seq<PoolSource> {
    if pool.kind == ImplicitProvider
    then Filter(pool.sources, (source: PoolSource) => source.providerId in OwnProviders(s, sub))
    else pool.sources
  }

  predicate InPlay(s: AppState, sub: Id, pool: Pool) {
    pool.enabled && NarrowSources(s, sub, pool) != []
  }

  function Entry(s: AppState, sub: Id, pool: Pool): RuntimePool {
    RuntimePool(pool.id, ResolveMembers(s.nodes, NarrowSources(s, sub, pool)), pool.selection)
  }

  predicate Unusable(entry: RuntimePool) {
    || entry.members == []
    || (entry.selection.ManualChoice? && entry.selection.selectedNodeId.Some?
        && entry.selection.selectedNodeId.value !in entry.members)
  }

  /** A node is compiled when it belongs to the active subscription or when an enabled custom
      pool resolves to it. */
  predicate Selected(s: AppState, sub: Id, n: Node) {
    || n.providerId in OwnProviders(s, sub)
    || exists p | p in s.pools :: p.kind == Custom && InPlay(s, sub, p) && n.id in Entry(s, sub, p).members
  }

  function ImplicitEntry(s: AppState, sub: Id): RuntimePool {
    RuntimePool(ImplicitPoolId(sub), SortedIds(Map(OwnNodes(s, sub), NodeId)), ManualChoice(None))
  }

  /** The entries of these pools, in their order, skipping the pools out of play. */
  function PoolEntries(s: AppState, sub: Id, pools: seq<Pool>): (r: seq<RuntimePool>)
    ensures forall e :: e in r <==> exists p :: p in pools && InPlay(s, sub, p) && e == Entry(s, sub, p)
  {
    if pools == [] then []
    else
      var k := |pools| - 1;
      PoolEntries(s, sub, pools[..k]) + (if InPlay(s, sub, pools[k]) then [Entry(s, sub, pools[k])] else [])
  }

  function Entries(s: AppState, sub: Id): seq<RuntimePool> {
    [ImplicitEntry(s, sub)] + PoolEntries(s, sub, s.pools)
  }

  function EnabledRoutes(s: AppState): seq<Route> {
    Filter(s.routes, (r: Route) => r.enabled)
  }

  /** The projection with every pool judged on its own: no pool's entry depends on another's. */
  function Project(s: AppState): Result<Projected, ProjectionError> {
    if s.activeId.None? then Err(SelectionRequired)
    else
      var sub := s.activeId.value;
      if !HasSubscription(s, sub) then Err(NotFound)
      else if !Valid(s) || OwnProviders(s, sub) == {} || OwnNodes(s, sub) == [] then Err(ConfigurationFailed)
      else if HasPool(s, ImplicitPoolId(sub)) then Err(SelectionConflict)
      else if exists e | e in PoolEntries(s, sub, s.pools) :: Unusable(e) then Err(SelectionConflict)
      else
        Assemble(s.defaultTarget, s.generation, sub,
                 Sort(SelectedNodes(s, sub), NodeKey),
                 Sort(Entries(s, sub), RuntimePoolKey),
                 Sort(EnabledRoutes(s), RouteKey))
  }

  function SelectedNodes(s: AppState, sub: Id): seq<Node> {
    Filter(s.nodes, (n: Node) => Selected(s, sub, n))
  }

  /** The closing checks: every enabled route and the default must name a compiled pool. */
  function Assemble(defaultTarget: Target, generation: nat, sub: Id, nodes: seq<Node>,
                    pools: seq<RuntimePool>, routes: seq<Route>): Result<Projected, ProjectionError> {
    var poolIds := set p | p in pools :: p.id;
    if exists r | r in routes :: r.target.ToPool? && r.target.poolId !in poolIds then Err(SelectionConflict)
    else if defaultTarget.ToPool? && defaultTarget.poolId !in poolIds then Err(SelectionConflict)
    else
      Ok(Projected(nodes, pools, routes,
                   if defaultTarget.Unconfigured? then ToPool(ImplicitPoolId(sub)) else defaultTarget,
                   sub, generation))
  }

  // ---- the loop as the program runs it ---------------------------------------------------------

  /** What the custom pools among the first k add to the selected ids. */
  ghost predicate SelectedUpTo(s: AppState, sub: Id, k: nat, id: Id)
    requires k <= |s.pools|
  {
    || id in OwnNodeIds(s, sub)
    || exists j :: 0 <= j < k && s.pools[j].kind == Custom && InPlay(s, sub, s.pools[j])
                   && id in Entry(s, sub, s.pools[j]).members
  }

  /** An implicit pool's narrowed members all come from the active subscription, so filtering
      them by the growing set of selected ids removes nothing. */
  lemma ImplicitMembersAreOwn(s: AppState, sub: Id, pool: Pool)
    requires pool.kind == ImplicitProvider
    ensures forall id :: id in Entry(s, sub, pool).members ==> id in OwnNodeIds(s, sub)
  {
    var sources := NarrowSources(s, sub, pool);
    forall id | id in ResolveMembers(s.nodes, sources) ensures id in OwnNodeIds(s, sub) {
      var n, src :| n in s.nodes && src in sources && SourceTakes(src, n) && n.id == id;
      assert n in OwnNodes(s, sub);
    }
  }

  /** One pool's members as the loop computes them: those of an implicit pool are filtered by
      the ids selected so far. */
  method FilteredMembers(s: AppState, sub: Id, pool: Pool, sources: seq<PoolSource>, selectedNodeIds: set<Id>)
    returns (members: seq<Id>)
    requires sources == NarrowSources(s, sub, pool)
    requires OwnNodeIds(s, sub) <= selectedNodeIds
    ensures members == Entry(s, sub, pool).members
  {
    var resolved := ResolveMembers(s.nodes, sources);
    var keep := (id: Id) => pool.kind == Custom || id in selectedNodeIds;
    if pool.kind == ImplicitProvider { ImplicitMembersAreOwn(s, sub, pool); }
    FilterAll(resolved, keep);
    members := Filter(resolved, keep);
  }

  /** The pool loop: it extends the selected ids with the members of custom pools while it
      filters the members of implicit pools by the ids selected so far. */
  method CollectPools(s: AppState, sub: Id, own: set<Id>)
    returns (conflict: bool, pools: seq<RuntimePool>, selectedNodeIds: set<Id>)
    requires own == OwnNodeIds(s, sub)
    ensures conflict <==> exists e :: e in PoolEntries(s, sub, s.pools) && Unusable(e)
    ensures !conflict ==> pools == PoolEntries(s, sub, s.pools)
    ensures !conflict ==> SelectedIds(s, sub, |s.pools|, selectedNodeIds)
  {
    pools, selectedNodeIds := [], own;
    var k := 0;
    while k < |s.pools|
      invariant 0 <= k <= |s.pools|
      invariant pools == PoolEntries(s, sub, s.pools[..k])
      invariant own <= selectedNodeIds && SelectedIds(s, sub, k, selectedNodeIds)
      invariant forall e :: e in pools ==> !Unusable(e)
    {
      var pool := s.pools[k];
      EntriesStep(s, sub, k);
      var sources := NarrowSources(s, sub, pool);
      var taken := {};
      if pool.enabled && sources != [] {
        var members := FilteredMembers(s, sub, pool, sources, selectedNodeIds);
        if members == [] || (pool.selection.ManualChoice? && pool.selection.selectedNodeId.Some?
                             && pool.selection.selectedNodeId.value !in members) {
          assert Unusable(Entry(s, sub, pool)) && Entry(s, sub, pool) in PoolEntries(s, sub, s.pools);
          return true, pools, selectedNodeIds;
        }
        if pool.kind == Custom {
          taken := set id | id in members;
        }
        pools := pools + [RuntimePool(pool.id, members, pool.selection)];
      }
      SelectedStep(s, sub, k, selectedNodeIds, taken);
      selectedNodeIds := selectedNodeIds + taken;
      k := k + 1;
    }
    assert s.pools[..k] == s.pools;
    conflict := false;
  }

  ghost predicate SelectedIds(s: AppState, sub: Id, k: nat, ids: set<Id>)
    requires k <= |s.pools|
  {
    forall id :: id in ids <==> SelectedUpTo(s, sub, k, id)
  }

  lemma {:induction false} EntriesStep(s: AppState, sub: Id, k: nat)
    requires k < |s.pools|
    ensures PoolEntries(s, sub, s.pools[..k + 1]) == PoolEntries(s, sub, s.pools[..k])
              + (if InPlay(s, sub, s.pools[k]) then [Entry(s, sub, s.pools[k])] else [])
    ensures InPlay(s, sub, s.pools[k]) ==> Entry(s, sub, s.pools[k]) in PoolEntries(s, sub, s.pools)
  {
    assert s.pools[..k + 1][..k] == s.pools[..k];
    assert s.pools[k] in s.pools;
  }

  lemma SelectedStep(s: AppState, sub: Id, k: nat, ids: set<Id>, taken: set<Id>)
    requires k < |s.pools| && SelectedIds(s, sub, k, ids)
    requires taken == if s.pools[k].kind == Custom && InPlay(s, sub, s.pools[k])
                      then set id | id in Entry(s, sub, s.pools[k]).members else {}
    ensures SelectedIds(s, sub, k + 1, ids + taken)
  {
    forall id ensures id in ids + taken <==> SelectedUpTo(s, sub, k + 1, id) {
      assert id in ids <==> SelectedUpTo(s, sub, k, id);
    }
  }

  /** The whole function; it computes Project. */
  method ProjectSelectedRuntime(s: AppState) returns (r: Result<Projected, ProjectionError>)
    ensures r == Project(s)
  {
    if s.activeId.None? { return Err(SelectionRequired); }
    var sub := s.activeId.value;
    if !HasSubscription(s, sub) { return Err(NotFound); }
    if !Valid(s) { return Err(ConfigurationFailed); }
    if OwnProviders(s, sub) == {} { return Err(ConfigurationFailed); }
    var nodes := OwnNodes(s, sub);
    if nodes == [] { return Err(ConfigurationFailed); }
    var implicitId := ImplicitPoolId(sub);
    if HasPool(s, implicitId) { return Err(SelectionConflict); }
    var own := set n | n in nodes :: n.id;
    var conflict, pools, selectedNodeIds := CollectPools(s, sub, own);
    if conflict { return Err(SelectionConflict); }
    pools := [RuntimePool(implicitId, SortedIds(Map(nodes, NodeId)), ManualChoice(None))] + pools;
    SelectedIdsPickTheNodes(s, sub, selectedNodeIds);
    nodes := Sort(Filter(s.nodes, (n: Node) => n.id in selectedNodeIds), NodeKey);
    pools := Sort(pools, RuntimePoolKey);
    EntriesUsable(s, sub);
    r := Close(s, sub, nodes, pools);
  }

  /** The closing checks in the order the program makes them; the last one never fires, because
      every compiled pool has members. */
  method Close(s: AppState, sub: Id, nodes: seq<Node>, pools: seq<RuntimePool>)
    returns (r: Result<Projected, ProjectionError>)
    requires forall e :: e in pools ==> !Unusable(e)
    requires exists e :: e in pools && e.id == ImplicitPoolId(sub)
    ensures r == Assemble(s.defaultTarget, s.generation, sub, nodes, pools, Sort(EnabledRoutes(s), RouteKey))
  {
    var poolIds := set p | p in pools :: p.id;
    var routes := EnabledRoutes(s);
    if exists route | route in routes :: route.target.ToPool? && route.target.poolId !in poolIds {
      return Err(SelectionConflict);
    }
    routes := Sort(routes, RouteKey);
    var target := s.defaultTarget;
    match target {
      case Unconfigured => target := ToPool(ImplicitPoolId(sub));
      case ToPool(poolId) => if poolId !in poolIds { return Err(SelectionConflict); }
      case Direct =>
      case Block =>
    }
    if target.ToPool? && !(exists p | p in pools :: p.id == target.poolId && p.members != []) {
      return Err(ConfigurationFailed);
    }
    return Ok(Projected(nodes, pools, routes, target, sub, s.generation));
  }

  lemma SelectedIdsPickTheNodes(s: AppState, sub: Id, ids: set<Id>)
    requires Valid(s)
    requires SelectedIds(s, sub, |s.pools|, ids)
    ensures Filter(s.nodes, (n: Node) => n.id in ids) == SelectedNodes(s, sub)
  {
    forall n | n in s.nodes ensures n.id in ids <==> Selected(s, sub, n) {
      if n.id in OwnNodeIds(s, sub) {
        var m :| m in OwnNodes(s, sub) && m.id == n.id;
        UniqueIsDistinct(s.nodes, NodeId);
        DistinctElement(s.nodes, NodeId, m, n);
      }
      if n.providerId in OwnProviders(s, sub) {
        assert n in OwnNodes(s, sub);
      }
    }
    FilterSame(s.nodes, (n: Node) => n.id in ids, (n: Node) => Selected(s, sub, n));
  }

  lemma {:induction false} EntriesUsable(s: AppState, sub: Id)
    requires OwnNodes(s, sub) != []
    requires !(exists e | e in PoolEntries(s, sub, s.pools) :: Unusable(e))
    ensures forall e :: e in Sort(Entries(s, sub), RuntimePoolKey) ==> !Unusable(e)
    ensures ImplicitEntry(s, sub) in Sort(Entries(s, sub), RuntimePoolKey)
  {
    assert Map(OwnNodes(s, sub), NodeId)[0] in ImplicitEntry(s, sub).members;
  }

  lemma EntryOrigin(s: AppState, sub: Id, e: RuntimePool)
    ensures e in Entries(s, sub) <==>
      e == ImplicitEntry(s, sub) || exists p :: p in s.pools && InPlay(s, sub, p) && e == Entry(s, sub, p)
  {
  }

  lemma {:induction false} PoolEntriesDistinct(s: AppState, sub: Id, pools: seq<Pool>)
    requires Distinct(pools, PoolId)
    ensures Distinct(PoolEntries(s, sub, pools), RuntimePoolKey)
  {
    if pools != [] {
      var k := |pools| - 1;
      var before := PoolEntries(s, sub, pools[..k]);
      PoolEntriesDistinct(s, sub, pools[..k]);
      forall i | 0 <= i < |before| ensures before[i].id != pools[k].id {
        assert before[i] in before;
        var p :| p in pools[..k] && before[i] == Entry(s, sub, p);
        var j :| 0 <= j < k && pools[j] == p;
        assert PoolId(pools[j]) != PoolId(pools[k]);
      }
    }
  }

  lemma EntriesDistinct(s: AppState, sub: Id)
    requires Valid(s) && !HasPool(s, ImplicitPoolId(sub))
    ensures Distinct(Entries(s, sub), RuntimePoolKey)
  {
    UniqueIsDistinct(s.pools, PoolId);
    PoolEntriesDistinct(s, sub, s.pools);
    var rest := PoolEntries(s, sub, s.pools);
    forall i | 0 <= i < |rest| ensures rest[i].id != ImplicitPoolId(sub) {
      assert rest[i] in rest;
    }
  }

  // ---- closure ----------------------------------------------------------------------------------

  /** Everything the later configuration compiler relies on. */
  ghost predicate Closed(s: AppState, out: Projected) {
    && (forall p :: p in out.pools ==> p.members != [])
    && (forall p, id :: p in out.pools && id in p.members ==> exists n :: n in out.nodes && n.id == id)
    && (forall p :: p in out.pools && p.selection.ManualChoice? && p.selection.selectedNodeId.Some? ==>
          p.selection.selectedNodeId.value in p.members)
    && Ascending(out.pools, RuntimePoolKey)
    && Ascending(out.nodes, NodeKey)
    && (forall p :: p in out.pools ==> Ascending(p.members, IdKey))
    && (forall r :: r in out.routes <==> r in s.routes && r.enabled)
    && (forall r :: r in out.routes && r.target.ToPool? ==> exists p :: p in out.pools && p.id == r.target.poolId)
    && !out.defaultTarget.Unconfigured?
    && (out.defaultTarget.ToPool? ==> exists p :: p in out.pools && p.id == out.defaultTarget.poolId)
    && s.activeId == Some(out.subscriptionId) && out.generation == s.generation
  }

  /** A projected node outside the active subscription is there because an enabled custom pool
      of the output contains it; every node of the active subscription is there. */
  ghost predicate NodesAccountedFor(s: AppState, out: Projected) {
    && (forall n :: n in s.nodes && n.providerId in OwnProviders(s, out.subscriptionId) ==> n in out.nodes)
    && (forall n :: n in out.nodes && n.providerId !in OwnProviders(s, out.subscriptionId) ==>
          n in s.nodes && HeldByCustomPool(s, out.pools, n))
  }

  ghost predicate HeldByCustomPool(s: AppState, entries: seq<RuntimePool>, n: Node) {
    exists p, e ::
      p in s.pools && p.enabled && p.kind == Custom && e in entries && e.id == p.id && n.id in e.members
  }

  /** Every enabled custom pool is compiled under its own id and choice, with exactly the nodes
      its sources take. */
  ghost predicate CustomPoolsAccountedFor(s: AppState, out: Projected) {
    forall p :: p in s.pools && p.enabled && p.kind == Custom ==>
      exists e :: e in out.pools && CompiledFrom(s, p, e)
  }

  ghost predicate CompiledFrom(s: AppState, p: Pool, e: RuntimePool) {
    && e.id == p.id && e.selection == p.selection
    && forall id :: id in e.members <==> Takes(s, p, id)
  }

  ghost predicate Takes(s: AppState, p: Pool, id: Id) {
    exists n, src :: n in s.nodes && src in p.sources && SourceTakes(src, n) && n.id == id
  }

  lemma ProjectionIsClosed(s: AppState)
    requires Project(s).Ok?
    ensures Closed(s, Project(s).value)
    ensures NodesAccountedFor(s, Project(s).value)
  {
    hide Valid, ResolveMembers, PoolEntries, Matches, Sort, Selected, Entry;
    var sub := s.activeId.value;
    var out := Project(s).value;
    EntriesUsable(s, sub);
    EntriesDistinct(s, sub);
    SortAscending(Entries(s, sub), RuntimePoolKey);
    NodesSorted(s, sub);
    forall p, id | p in out.pools && id in p.members ensures exists n :: n in out.nodes && n.id == id {
      MembersAreNodes(s, sub, p, id);
    }
    forall p | p in out.pools ensures Ascending(p.members, IdKey) {
      MembersSorted(s, sub, p);
    }
    forall n | n in s.nodes && n.providerId in OwnProviders(s, sub) ensures n in out.nodes {
      OwnNodeSelected(s, sub, n);
    }
    forall n | n in out.nodes && n.providerId !in OwnProviders(s, sub) ensures HeldByCustomPool(s, out.pools, n) {
      ForeignNodeHeld(s, sub, n);
    }
  }

  lemma OwnNodeSelected(s: AppState, sub: Id, n: Node)
    requires n in s.nodes && n.providerId in OwnProviders(s, sub)
    ensures n in SelectedNodes(s, sub)
  {
    assert Selected(s, sub, n);
  }

  lemma MembersSorted(s: AppState, sub: Id, p: RuntimePool)
    requires p in Entries(s, sub)
    ensures Ascending(p.members, IdKey)
  {
    hide Entries, OwnNodes, MemberList, SortedIds;
    EntryOrigin(s, sub, p);
    if p == ImplicitEntry(s, sub) {
      SortedIdsAscending(Map(OwnNodes(s, sub), NodeId));
    } else {
      var q :| q in s.pools && InPlay(s, sub, q) && p == Entry(s, sub, q);
      SortedIdsAscending(MemberList(s.nodes, NarrowSources(s, sub, q)));
    }
  }

  lemma ForeignNodeHeld(s: AppState, sub: Id, n: Node)
    requires n in SelectedNodes(s, sub) && n.providerId !in OwnProviders(s, sub)
    ensures HeldByCustomPool(s, Entries(s, sub), n)
  {
    hide Entries, ResolveMembers;
    var p :| p in s.pools && p.kind == Custom && InPlay(s, sub, p) && n.id in Entry(s, sub, p).members;
    EntryOrigin(s, sub, Entry(s, sub, p));
  }

  lemma CustomPoolsAreCompiled(s: AppState)
    requires Project(s).Ok?
    ensures CustomPoolsAccountedFor(s, Project(s).value)
  {
    hide Valid, ResolveMembers, PoolEntries, Matches, Sort, CompiledFrom;
    var sub := s.activeId.value;
    var out := Project(s).value;
    forall p | p in s.pools && p.enabled && p.kind == Custom
      ensures exists e :: e in out.pools && CompiledFrom(s, p, e)
    {
      CustomPoolCompiles(s, sub, p);
      assert Entry(s, sub, p) in out.pools;
    }
  }

  lemma CustomPoolCompiles(s: AppState, sub: Id, p: Pool)
    requires Valid(s) && p in s.pools && p.enabled && p.kind == Custom
    ensures Entry(s, sub, p) in Entries(s, sub) && CompiledFrom(s, p, Entry(s, sub, p))
  {
    assert PoolValid(s, p) && InPlay(s, sub, p);
    EntryOrigin(s, sub, Entry(s, sub, p));
  }

  lemma NodesSorted(s: AppState, sub: Id)
    requires Valid(s)
    ensures Ascending(Sort(SelectedNodes(s, sub), NodeKey), NodeKey)
  {
    NodesDistinct(s, sub);
    SortAscending(SelectedNodes(s, sub), NodeKey);
  }

  lemma NodesDistinct(s: AppState, sub: Id)
    requires Valid(s)
    ensures Distinct(SelectedNodes(s, sub), NodeKey)
  {
    UniqueIsDistinct(s.nodes, NodeId);
    FilterDistinct(s.nodes, (n: Node) => Selected(s, sub, n), NodeId);
    var r := SelectedNodes(s, sub);
    forall i, j | 0 <= i < j < |r| ensures NodeKey(r[i]) != NodeKey(r[j]) {
      assert NodeId(r[i]) != NodeId(r[j]);
    }
  }

  lemma MembersAreNodes(s: AppState, sub: Id, p: RuntimePool, id: Id)
    requires p in Entries(s, sub) && id in p.members
    ensures exists n :: n in s.nodes && Selected(s, sub, n) && n.id == id
  {
    hide Valid, Entries, ResolveMembers, PoolEntries, Matches, Unusable;
    EntryOrigin(s, sub, p);
    if p == ImplicitEntry(s, sub) {
      var own := OwnNodes(s, sub);
      var i :| 0 <= i < |own| && Map(own, NodeId)[i] == id;
      assert own[i] in own;
    } else {
      var q :| q in s.pools && InPlay(s, sub, q) && p == Entry(s, sub, q);
      var n, src :| n in s.nodes && src in NarrowSources(s, sub, q) && SourceTakes(src, n) && n.id == id;
      if q.kind == ImplicitProvider {
        assert n.providerId in OwnProviders(s, sub);
      }
      assert Selected(s, sub, n);
    }
  }

  // ---- the order of pools and routes does not matter ----------------------------------------------

  /** The same state up to the order in which its pools and its routes are listed. */
  ghost predicate SameUpToOrder(s: AppState, t: AppState) {
    && t == s.(pools := t.pools, routes := t.routes)
    && multiset(t.pools) == multiset(s.pools)
    && multiset(t.routes) == multiset(s.routes)
  }

  lemma SameElements<T(!new)>(a: seq<T>, b: seq<T>)
    requires multiset(a) == multiset(b)
    ensures forall x :: x in a <==> x in b
  {
    forall x ensures x in a <==> x in b {
      assert x in a <==> x in multiset(a);
      assert x in b <==> x in multiset(b);
    }
  }

  lemma {:induction false} SameKeys<T(!new)>(a: seq<T>, b: seq<T>, key: T -> Id)
    requires multiset(a) == multiset(b) && Distinct(a, key)
    ensures Distinct(b, key)
  {
    forall i, j | 0 <= i < j < |b| ensures key(b[i]) != key(b[j]) {
      SameElements(a, b);
      assert b[i] in a && b[j] in a;
      if key(b[i]) == key(b[j]) {
        DistinctElement(a, key, b[i], b[j]);
        TwiceInSequence(b, i, j);
        OnceInDistinct(a, key, b[i]);
        assert false;
      }
    }
  }

  lemma TwiceInSequence<T>(b: seq<T>, i: nat, j: nat)
    requires i < j < |b| && b[i] == b[j]
    ensures multiset(b)[b[i]] >= 2
  {
    assert b == b[..i] + [b[i]] + b[i + 1..j] + [b[j]] + b[j + 1..];
    assert multiset(b) == multiset(b[..i]) + multiset{b[i]} + multiset(b[i + 1..j]) + multiset{b[j]} + multiset(b[j + 1..]);
  }

  lemma {:induction false} OnceInDistinct<T(!new)>(a: seq<T>, key: T -> Id, x: T)
    requires Distinct(a, key)
    ensures multiset(a)[x] <= 1
  {
    if a != [] {
      assert a == [a[0]] + a[1..];
      OnceInDistinct(a[1..], key, x);
      forall k | 1 <= k < |a| ensures a[k] != a[0] {
        assert key(a[0]) != key(a[k]);
      }
    }
  }

  lemma ValidUpToOrder(s: AppState, t: AppState)
    requires Valid(s) && SameUpToOrder(s, t)
    ensures Valid(t)
  {
    SameElements(s.pools, t.pools);
    SameElements(s.routes, t.routes);
    UniqueIsDistinct(s.pools, PoolId);
    SameKeys(s.pools, t.pools, PoolId);
    DistinctIsUnique(t.pools, PoolId);
    UniqueIsDistinct(s.routes, RouteId);
    SameKeys(s.routes, t.routes, RouteId);
    DistinctIsUnique(t.routes, RouteId);
    forall id ensures HasPool(s, id) <==> HasPool(t, id) {}
    forall p | p in t.pools ensures PoolValid(t, p) {
      assert PoolValid(s, p);
    }
  }

  /** The result, Ok or Err, of projecting a valid state depends only on which pools and routes
      it has. */
  lemma OrderOfPoolsAndRoutesIsIrrelevant(s: AppState, t: AppState)
    requires Valid(s) && SameUpToOrder(s, t)
    ensures Project(s) == Project(t)
  {
    hide Valid, Entries, Entry, InPlay, ResolveMembers, SelectedNodes, EnabledRoutes, PoolEntries, Sort, Unusable, Assemble, UniqueIds;
    ValidUpToOrder(s, t);
    SameElements(s.pools, t.pools);
    SameElements(s.routes, t.routes);
    if s.activeId.Some? {
      var sub := s.activeId.value;
      SameOwnNodes(s, t, sub);
      SameEntries(s, t, sub);
      if !HasPool(s, ImplicitPoolId(sub)) {
        EntriesDistinct(s, sub);
        EntriesDistinct(t, sub);
        SortUnique(Entries(s, sub), Entries(t, sub), RuntimePoolKey);
        SameSelectedNodes(s, t, sub);
        SameRoutes(s, t);
      }
    }
  }

  lemma SameOwnNodes(s: AppState, t: AppState, sub: Id)
    requires s.providers == t.providers && s.nodes == t.nodes
    ensures OwnProviders(s, sub) == OwnProviders(t, sub)
    ensures OwnNodes(s, sub) == OwnNodes(t, sub)
    ensures ImplicitEntry(s, sub) == ImplicitEntry(t, sub)
  {
    FilterSame(s.nodes, (n: Node) => n.providerId in OwnProviders(s, sub), (n: Node) => n.providerId in OwnProviders(t, sub));
  }

  lemma SameNarrow(s: AppState, t: AppState, sub: Id, p: Pool)
    requires s.providers == t.providers
    ensures NarrowSources(s, sub, p) == NarrowSources(t, sub, p)
  {
    FilterSame(p.sources, (source: PoolSource) => source.providerId in OwnProviders(s, sub),
               (source: PoolSource) => source.providerId in OwnProviders(t, sub));
  }

  lemma {:induction false} SameEntries(s: AppState, t: AppState, sub: Id)
    requires s.providers == t.providers && s.nodes == t.nodes
    requires forall p :: p in s.pools <==> p in t.pools
    ensures forall p :: Entry(s, sub, p) == Entry(t, sub, p) && InPlay(s, sub, p) == InPlay(t, sub, p)
    ensures forall e :: e in Entries(s, sub) <==> e in Entries(t, sub)
    ensures forall e :: e in PoolEntries(s, sub, s.pools) <==> e in PoolEntries(t, sub, t.pools)
  {
    forall p ensures Entry(s, sub, p) == Entry(t, sub, p) && InPlay(s, sub, p) == InPlay(t, sub, p) {
      SameNarrow(s, t, sub, p);
    }
    SameOwnNodes(s, t, sub);
    forall e ensures e in Entries(s, sub) <==> e in Entries(t, sub) {
      EntryOrigin(s, sub, e);
      EntryOrigin(t, sub, e);
    }
  }

  lemma SameSelectedNodes(s: AppState, t: AppState, sub: Id)
    requires s.providers == t.providers && s.nodes == t.nodes
    requires forall p :: p in s.pools <==> p in t.pools
    ensures SelectedNodes(s, sub) == SelectedNodes(t, sub)
  {
    SameEntries(s, t, sub);
    SameOwnNodes(s, t, sub);
    FilterSame(s.nodes, (n: Node) => Selected(s, sub, n), (n: Node) => Selected(t, sub, n));
  }

  lemma SameRoutes(s: AppState, t: AppState)
    requires Valid(s) && Valid(t)
    requires forall r :: r in s.routes <==> r in t.routes
    ensures Sort(EnabledRoutes(s), RouteKey) == Sort(EnabledRoutes(t), RouteKey)
  {
    EnabledRoutesDistinct(s);
    EnabledRoutesDistinct(t);
    SortUnique(EnabledRoutes(s), EnabledRoutes(t), RouteKey);
  }

  lemma ProjectedRoutes(s: AppState)
    requires Project(s).Ok?
    ensures Project(s).value.routes == Sort(EnabledRoutes(s), RouteKey)
  {
    hide Valid, Entries, Sort, EnabledRoutes;
  }

  lemma EnabledRoutesDistinct(s: AppState)
    requires Valid(s)
    ensures Distinct(EnabledRoutes(s), RouteKey)
  {
    UniqueIsDistinct(s.routes, RouteId);
    FilterDistinct(s.routes, (r: Route) => r.enabled, RouteId);
    var rs := EnabledRoutes(s);
    forall i, j | 0 <= i < j < |rs| ensures RouteKey(rs[i]) != RouteKey(rs[j]) {
      assert RouteId(rs[i]) != RouteId(rs[j]);
    }
  }

  // ---- a state that projects ----------------------------------------------------------------------------

  const SAMPLE_NODE: Node := Node("n", "p", "node", Trojan, "", true)

  const SAMPLE: AppState := AppState(
    Unconfigured, Some("s"), 1,
    [Subscription("s", "name", "", Manual, None, None, None, None, UpdatePolicy(false, None), 0, None, true)],
    [Provider("p", "s", "name")], [SAMPLE_NODE], [], [])

  /** The smallest configuration there is: one subscription, one provider, one node. */
  lemma SampleProjects()
    ensures Valid(SAMPLE) && Project(SAMPLE).Ok?
  {
    SampleIsValid();
    assert SAMPLE.subscriptions[0] in SAMPLE.subscriptions && SAMPLE.providers[0] in SAMPLE.providers;
    hide Valid;
    assert "p" in OwnProviders(SAMPLE, "s");
    assert SAMPLE_NODE in SAMPLE.nodes && SAMPLE_NODE in OwnNodes(SAMPLE, "s");
  }

  lemma SampleIsValid()
    ensures Valid(SAMPLE)
  {
    assert SAMPLE.subscriptions[0] in SAMPLE.subscriptions && SAMPLE.providers[0] in SAMPLE.providers;
    assert !Blank("s") by { assert "s"[0] == 's'; }
    assert !Blank("p") by { assert "p"[0] == 'p'; }
    assert !Blank("n") by { assert "n"[0] == 'n'; }
  }
}
