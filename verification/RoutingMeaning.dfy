/** What each mutation of module Routing leaves, field by field and place by place, and when it is
    refused (src-tauri/src/application/proxy_routing.rs, apply_mutation). */
module RoutingMeaning {
  import opened Common
  import opened Domain
  import opened Routing

  // ---- what a mutation leaves -------------------------------------------------------------------------

  ghost predicate PoolAppended(s: AppState, t: AppState, m: Mutation)
    requires m.CreateCustomPool?
  {
    && |t.pools| == |s.pools| + 1 && (forall i :: 0 <= i < |s.pools| ==> t.pools[i] == s.pools[i])
    && var made := t.pools[|s.pools|];
       made.id == m.freshId && made.name == m.name && made.kind == Custom && made.enabled == m.enabled
       && made.sources == m.sources && made.selection == m.selection
  }

  ghost predicate PoolUpdated(s: AppState, t: AppState, m: Mutation)
    requires m.UpdateCustomPool?
  {
    && |t.pools| == |s.pools|
    && forall i :: 0 <= i < |s.pools| ==>
         if s.pools[i].id != m.id then t.pools[i] == s.pools[i]
         else t.pools[i].id == m.id && t.pools[i].kind == Custom && t.pools[i].name == m.name
              && t.pools[i].enabled == m.enabled && t.pools[i].sources == m.sources && t.pools[i].selection == m.selection
  }

  ghost predicate PoolRemoved(s: AppState, t: AppState, id: Id) {
    exists k :: 0 <= k < |s.pools| && s.pools[k].id == id && GoneAt(s.pools, t.pools, k)
  }

  /** All but element k, in their order. */
  ghost predicate GoneAt<T(!new)>(before: seq<T>, after: seq<T>, k: nat)
    requires k < |before|
  {
    && |after| == |before| - 1
    && (forall i :: 0 <= i < k ==> after[i] == before[i])
    && (forall i :: k <= i < |after| ==> after[i] == before[i + 1])
  }

  ghost predicate NodeChosen(s: AppState, t: AppState, poolId: Id, nodeId: Id) {
    && |t.pools| == |s.pools|
    && forall i :: 0 <= i < |s.pools| ==>
         t.pools[i] == if s.pools[i].id == poolId then s.pools[i].(selection := ManualChoice(Some(nodeId))) else s.pools[i]
  }

  /** The new route stands where it was asked for; those behind it have moved by one. */
  ghost predicate RouteInserted(s: AppState, t: AppState, m: Mutation)
    requires m.CreateRoute?
  {
    && m.insertAt <= |s.routes| && |t.routes| == |s.routes| + 1
    && (forall i :: 0 <= i < m.insertAt ==> t.routes[i] == s.routes[i].(priority := i))
    && (forall i :: m.insertAt < i <= |s.routes| ==> t.routes[i] == s.routes[i - 1].(priority := i))
    && var made := t.routes[m.insertAt];
       made.id == m.freshId && made.name == m.name && made.enabled == m.enabled && made.priority == m.insertAt
       && made.matcher == m.matcher && made.matcherValid == m.matcherValid && made.target == m.target
  }

  ghost predicate RouteUpdated(s: AppState, t: AppState, m: Mutation)
    requires m.UpdateRoute?
  {
    && |t.routes| == |s.routes|
    && forall i :: 0 <= i < |s.routes| ==>
         if s.routes[i].id != m.id then t.routes[i] == s.routes[i]
         else t.routes[i].id == m.id && t.routes[i].priority == s.routes[i].priority && t.routes[i].name == m.name
              && t.routes[i].enabled == m.enabled && t.routes[i].matcher == m.matcher
              && t.routes[i].matcherValid == m.matcherValid && t.routes[i].target == m.target
  }

  ghost predicate RouteRemoved(s: AppState, t: AppState, id: Id) {
    exists k :: 0 <= k < |s.routes| && s.routes[k].id == id && RouteGoneAt(s, t, k)
  }

  /** All but route k, in their order, renumbered. */
  ghost predicate RouteGoneAt(s: AppState, t: AppState, k: nat) {
    && |t.routes| == |s.routes| - 1
    && (forall i :: 0 <= i < k && i < |t.routes| ==> t.routes[i] == s.routes[i].(priority := i))
    && (forall i :: k <= i < |t.routes| ==> t.routes[i] == s.routes[i + 1].(priority := i))
  }

  ghost predicate RoutesReordered(s: AppState, t: AppState, ids: seq<Id>) {
    && |t.routes| == |ids| == |s.routes|
    && forall i :: 0 <= i < |ids| ==> t.routes[i].id == ids[i] && exists r :: r in s.routes && t.routes[i] == r.(priority := i)
  }

  /** The mutation's effect; what it does not name stays. */
  ghost predicate Leaves(s: AppState, t: AppState, m: Mutation) {
    match m
    case CreateCustomPool(_, _, _, _, _, _) => t == s.(pools := t.pools) && PoolAppended(s, t, m)
    case UpdateCustomPool(_, _, _, _, _, _) => t == s.(pools := t.pools) && PoolUpdated(s, t, m)
    case DeleteCustomPool(id, _) => t == s.(pools := t.pools) && PoolRemoved(s, t, id)
    case SetManualSelection(poolId, nodeId, _) => t == s.(pools := t.pools) && NodeChosen(s, t, poolId, nodeId)
    case SetDefaultTarget(target, _) => t == s.(defaultTarget := t.defaultTarget) && t.defaultTarget == target
    case CreateRoute(_, _, _, _, _, _, _, _) => t == s.(routes := t.routes) && RouteInserted(s, t, m)
    case UpdateRoute(_, _, _, _, _, _, _) => t == s.(routes := t.routes) && RouteUpdated(s, t, m)
    case DeleteRoute(id, _) => t == s.(routes := t.routes) && RouteRemoved(s, t, id)
    case ReorderRoutes(ids) => t == s.(routes := t.routes) && RoutesReordered(s, t, ids)
  }

  // ---- when it is refused ---------------------------------------------------------------------------------

  predicate HasCustomPool(s: AppState, id: Id) {
    exists p | p in s.pools :: p.id == id && p.kind == Custom
  }

  predicate HasManualPool(s: AppState, id: Id) {
    exists p | p in s.pools :: p.id == id && p.selection.ManualChoice?
  }

  /** A route or the default target sends traffic to the pool. */
  predicate InUse(s: AppState, id: Id) {
    s.defaultTarget == ToPool(id) || exists r | r in s.routes :: r.target == ToPool(id)
  }

  /** The refusal of a mutation, None if it is carried out. */
  ghost function Refusal(s: AppState, m: Mutation): Option<MutationError> {
    match m
    case CreateCustomPool(freshId, _, _, _, _, acceptable) =>
      if |s.pools| >= 100 then Some(ValidationFailed) else if !acceptable then Some(InvalidInput)
      else if HasPool(s, freshId) then Some(StateUnavailable) else None
    case UpdateCustomPool(id, _, _, _, _, acceptable) =>
      if !acceptable then Some(InvalidInput) else if !HasPool(s, id) then Some(MutationError.NotFound)
      else if !HasCustomPool(s, id) then Some(ReferenceConflict) else None
    case DeleteCustomPool(id, acceptable) =>
      if !acceptable then Some(InvalidInput) else if !HasPool(s, id) then Some(MutationError.NotFound)
      else if !HasCustomPool(s, id) || InUse(s, id) then Some(ReferenceConflict) else None
    case SetManualSelection(poolId, _, acceptable) =>
      if !acceptable then Some(InvalidInput) else if !HasPool(s, poolId) then Some(MutationError.NotFound)
      else if !HasManualPool(s, poolId) then Some(ReferenceConflict) else None
    case SetDefaultTarget(_, acceptable) => if !acceptable then Some(InvalidInput) else None
    case CreateRoute(freshId, _, _, _, _, _, insertAt, acceptable) =>
      if |s.routes| >= 500 || insertAt > |s.routes| then Some(ValidationFailed)
      else if !acceptable then Some(InvalidInput)
      else if HasRoute(s.routes, freshId) then Some(StateUnavailable) else None
    case UpdateRoute(id, _, _, _, _, _, acceptable) =>
      if !acceptable then Some(InvalidInput) else if !HasRoute(s.routes, id) then Some(MutationError.NotFound) else None
    case DeleteRoute(id, acceptable) =>
      if !acceptable then Some(InvalidInput) else if !HasRoute(s.routes, id) then Some(MutationError.NotFound)
      else if |s.routes| > 0x8000_0001 then Some(ValidationFailed) else None
    case ReorderRoutes(ids) =>
      if multiset(ids) != multiset(Map(s.routes, RouteId)) || |s.routes| > 0x8000_0000 then Some(ValidationFailed) else None
  }

  ghost predicate OneEach(s: AppState) {
    Distinct(s.pools, PoolId) && Distinct(s.routes, RouteId)
  }

  // ---- proofs --------------------------------------------------------------------------------------------------

  lemma {:induction false} PositionFinds<T(!new)>(all: seq<T>, key: T -> Id, id: Id)
    requires Distinct(all, key)
    ensures Position(all, key, id).Some? <==> exists x :: x in all && key(x) == id
    ensures Position(all, key, id).Some? ==>
      forall i :: 0 <= i < |all| && key(all[i]) == id ==> i == Position(all, key, id).value
  {
    if Position(all, key, id).Some? { assert all[Position(all, key, id).value] in all; }
  }

  lemma CreatePoolMutation(s: AppState, m: Mutation)
    requires m.CreateCustomPool?
    ensures Mutated(s, m).Ok? <==> Refusal(s, m).None?
    ensures Mutated(s, m).Err? ==> Refusal(s, m) == Some(Mutated(s, m).error)
    ensures Mutated(s, m).Ok? ==> Leaves(s, Mutated(s, m).value, m)
  {
  }

  lemma UpdatePoolMutation(s: AppState, m: Mutation)
    requires OneEach(s) && m.UpdateCustomPool?
    ensures Mutated(s, m).Ok? <==> Refusal(s, m).None?
    ensures Mutated(s, m).Err? ==> Refusal(s, m) == Some(Mutated(s, m).error)
    ensures Mutated(s, m).Ok? ==> Leaves(s, Mutated(s, m).value, m)
  {
    PositionFinds(s.pools, PoolId, m.id);
    PoolAt(s, m.id);
    hide HasPool, HasCustomPool, HasManualPool, Position;
  }

  lemma DeletePoolMutation(s: AppState, m: Mutation)
    requires OneEach(s) && m.DeleteCustomPool?
    ensures Mutated(s, m).Ok? <==> Refusal(s, m).None?
    ensures Mutated(s, m).Err? ==> Refusal(s, m) == Some(Mutated(s, m).error)
    ensures Mutated(s, m).Ok? ==> Leaves(s, Mutated(s, m).value, m)
  {
    PoolAt(s, m.id);
    hide HasPool, HasCustomPool, HasManualPool, Position;
    if Mutated(s, m).Ok? {
      var k := Position(s.pools, PoolId, m.id).value;
      assert GoneAt(s.pools, Mutated(s, m).value.pools, k);
    }
  }

  lemma SelectionMutation(s: AppState, m: Mutation)
    requires OneEach(s) && m.SetManualSelection?
    ensures Mutated(s, m).Ok? <==> Refusal(s, m).None?
    ensures Mutated(s, m).Err? ==> Refusal(s, m) == Some(Mutated(s, m).error)
    ensures Mutated(s, m).Ok? ==> Leaves(s, Mutated(s, m).value, m)
  {
    PositionFinds(s.pools, PoolId, m.poolId);
    PoolAt(s, m.poolId);
    hide HasPool, HasCustomPool, HasManualPool, Position;
  }

  /** The pool found is the one with this id. */
  lemma {:induction false} PoolAt(s: AppState, id: Id)
    requires Distinct(s.pools, PoolId)
    ensures HasPool(s, id) <==> Position(s.pools, PoolId, id).Some?
    ensures HasPool(s, id) ==>
      var p := s.pools[Position(s.pools, PoolId, id).value];
      && (HasCustomPool(s, id) <==> p.kind == Custom) && (HasManualPool(s, id) <==> p.selection.ManualChoice?)
  {
    var at := Position(s.pools, PoolId, id);
    if at.Some? {
      assert s.pools[at.value] in s.pools;
      forall p | p in s.pools && p.id == id ensures p == s.pools[at.value] {
        DistinctElement(s.pools, PoolId, p, s.pools[at.value]);
      }
    } else {
      forall p | p in s.pools ensures p.id != id { assert PoolId(p) != id; }
    }
  }

  lemma {:induction false} RouteAt(s: AppState, id: Id)
    requires Distinct(s.routes, RouteId)
    ensures HasRoute(s.routes, id) <==> Position(s.routes, RouteId, id).Some?
  {
    var at := Position(s.routes, RouteId, id);
    if at.Some? { assert s.routes[at.value] in s.routes; }
    else {
      forall r | r in s.routes ensures r.id != id { assert RouteId(r) != id; }
    }
  }

  lemma CreateMutation(s: AppState, m: Mutation)
    requires OneEach(s) && m.CreateRoute?
    ensures Mutated(s, m).Ok? <==> Refusal(s, m).None?
    ensures Mutated(s, m).Err? ==> Refusal(s, m) == Some(Mutated(s, m).error)
    ensures Mutated(s, m).Ok? ==> Leaves(s, Mutated(s, m).value, m)
  {
    RouteAt(s, m.freshId);
    hide Position, HasRoute, RouteInserted, Renumbered;
    if Mutated(s, m).Ok? {
      var made := Route(m.freshId, m.name, m.enabled, 0, m.matcher, m.matcherValid, m.target);
      InsertedAt(s.routes, made, m.insertAt, Mutated(s, m).value.routes);
      RouteStands(s, Mutated(s, m).value, m);
    }
  }

  lemma InsertedAt(routes: seq<Route>, made: Route, at: nat, out: seq<Route>)
    requires at <= |routes| && out == Renumbered(routes[..at] + [made] + routes[at..])
    ensures |out| == |routes| + 1 && out[at] == made.(priority := at)
    ensures forall i :: 0 <= i < at ==> out[i] == routes[i].(priority := i)
    ensures forall i :: at < i <= |routes| ==> out[i] == routes[i - 1].(priority := i)
  {
  }

  lemma RouteStands(s: AppState, t: AppState, m: Mutation)
    requires m.CreateRoute? && m.insertAt <= |s.routes| && |t.routes| == |s.routes| + 1
    requires t.routes[m.insertAt] == Route(m.freshId, m.name, m.enabled, m.insertAt, m.matcher, m.matcherValid, m.target)
    requires forall i :: 0 <= i < m.insertAt ==> t.routes[i] == s.routes[i].(priority := i)
    requires forall i :: m.insertAt < i <= |s.routes| ==> t.routes[i] == s.routes[i - 1].(priority := i)
    ensures RouteInserted(s, t, m)
  {
  }

  lemma UpdateMutation(s: AppState, m: Mutation)
    requires OneEach(s) && m.UpdateRoute?
    ensures Mutated(s, m).Ok? <==> Refusal(s, m).None?
    ensures Mutated(s, m).Err? ==> Refusal(s, m) == Some(Mutated(s, m).error)
    ensures Mutated(s, m).Ok? ==> Leaves(s, Mutated(s, m).value, m)
  {
    PositionFinds(s.routes, RouteId, m.id);
    RouteAt(s, m.id);
  }

  lemma DeleteMutation(s: AppState, m: Mutation)
    requires OneEach(s) && m.DeleteRoute?
    ensures Mutated(s, m).Ok? <==> Refusal(s, m).None?
    ensures Mutated(s, m).Err? ==> Refusal(s, m) == Some(Mutated(s, m).error)
    ensures Mutated(s, m).Ok? ==> Leaves(s, Mutated(s, m).value, m)
  {
    RouteAt(s, m.id);
    if Mutated(s, m).Ok? {
      var k := Position(s.routes, RouteId, m.id).value;
      assert RouteGoneAt(s, Mutated(s, m).value, k);
    }
  }

  lemma ReorderedExactly(routes: seq<Route>, ids: seq<Id>)
    ensures Reordered(routes, ids).Ok? <==> ReorderAccepted(routes, ids) && |routes| <= 0x8000_0000
    ensures Reordered(routes, ids).Err? ==> Reordered(routes, ids).error == ValidationFailed
  {
    hide ReorderAccepted;
    if ReorderAccepted(routes, ids) { AcceptedLength(routes, ids); }
  }

  lemma AcceptedLength(routes: seq<Route>, ids: seq<Id>)
    requires ReorderAccepted(routes, ids)
    ensures |ids| == |routes| && forall id :: id in ids ==> HasRoute(routes, id)
  {
  }

  lemma ReorderMutation(s: AppState, m: Mutation)
    requires OneEach(s) && m.ReorderRoutes?
    ensures Mutated(s, m).Ok? <==> Refusal(s, m).None?
    ensures Mutated(s, m).Err? ==> Refusal(s, m) == Some(Mutated(s, m).error)
    ensures Mutated(s, m).Ok? ==> Leaves(s, Mutated(s, m).value, m)
  {
    hide Reordered, ReorderAccepted, Picked;
    ReorderAcceptsPermutations(s.routes, m.routeIds);
    ReorderedExactly(s.routes, m.routeIds);
    if Mutated(s, m).Ok? {
      ReorderYieldsTheRequestedOrder(s, m.routeIds);
      hide Mutated;
      ReorderedIsListed(s, Mutated(s, m).value, m.routeIds);
      ReorderedElsewhere(s, m);
    }
  }

  lemma ReorderedElsewhere(s: AppState, m: Mutation)
    requires m.ReorderRoutes? && Mutated(s, m).Ok?
    ensures Mutated(s, m).value == s.(routes := Mutated(s, m).value.routes)
  {
    EditsOnlyRouting(s, m);
    hide Reordered;
  }

  lemma ReorderedIsListed(s: AppState, t: AppState, ids: seq<Id>)
    requires multiset(ids) == multiset(Map(s.routes, RouteId)) && Map(t.routes, RouteId) == ids
    requires forall i :: 0 <= i < |t.routes| ==> exists r :: r in s.routes && t.routes[i] == r.(priority := i)
    ensures RoutesReordered(s, t, ids)
  {
    assert |ids| == |multiset(ids)| == |multiset(Map(s.routes, RouteId))| == |Map(s.routes, RouteId)|;
    forall i | 0 <= i < |ids| ensures t.routes[i].id == ids[i] { assert Map(t.routes, RouteId)[i] == ids[i]; }
  }

  /** Every mutation of a state with distinct ids is refused for exactly the listed reasons and
      otherwise leaves exactly what it says. */
  lemma MutationsDoWhatTheySay(s: AppState, m: Mutation)
    requires Domain.Valid(s)
    ensures Mutated(s, m).Ok? <==> Refusal(s, m).None?
    ensures Mutated(s, m).Err? ==> Refusal(s, m) == Some(Mutated(s, m).error)
    ensures Mutated(s, m).Ok? ==> Leaves(s, Mutated(s, m).value, m)
  {
    UniqueIsDistinct(s.pools, PoolId);
    UniqueIsDistinct(s.routes, RouteId);
    hide Domain.Valid, Mutated, Refusal, Leaves;
    if m.CreateCustomPool? { CreatePoolMutation(s, m); }
    else if m.UpdateCustomPool? { UpdatePoolMutation(s, m); }
    else if m.DeleteCustomPool? { DeletePoolMutation(s, m); }
    else if m.SetManualSelection? { SelectionMutation(s, m); }
    else if m.CreateRoute? { CreateMutation(s, m); }
    else if m.UpdateRoute? { UpdateMutation(s, m); }
    else if m.DeleteRoute? { DeleteMutation(s, m); }
    else if m.ReorderRoutes? { ReorderMutation(s, m); }
    else { DefaultMutation(s, m); }
  }

  lemma DefaultMutation(s: AppState, m: Mutation)
    requires m.SetDefaultTarget?
    ensures Mutated(s, m).Ok? <==> Refusal(s, m).None?
    ensures Mutated(s, m).Err? ==> Refusal(s, m) == Some(Mutated(s, m).error)
    ensures Mutated(s, m).Ok? ==> Leaves(s, Mutated(s, m).value, m)
  {
  }
}
