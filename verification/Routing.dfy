/** Route and pool edits (src-tauri/src/application/proxy_routing.rs, apply_mutation). */
module Routing {
  import opened Common
  import opened Domain
  import opened Projection

  const MAX_POOLS := 100
  const MAX_ROUTES := 500
  const I32_MAX := 0x7FFF_FFFF

  /** `acceptable` is the outcome of the validators that look at the mutation's own text alone;
      `freshId` is the random identity drawn for a new object. */
  datatype Mutation =
    | CreateCustomPool(freshId: Id, name: string, enabled: bool, sources: seq<PoolSource>, selection: Selection, acceptable: bool)
    | UpdateCustomPool(id: Id, name: string, enabled: bool, sources: seq<PoolSource>, selection: Selection, acceptable: bool)
    | DeleteCustomPool(id: Id, acceptable: bool)
    | SetManualSelection(poolId: Id, nodeId: Id, acceptable: bool)
    | SetDefaultTarget(target: Target, acceptable: bool)
    | CreateRoute(freshId: Id, name: string, enabled: bool, matcher: string, matcherValid: bool, target: Target, insertAt: nat, acceptable: bool)
    | UpdateRoute(id: Id, name: string, enabled: bool, matcher: string, matcherValid: bool, target: Target, acceptable: bool)
    | DeleteRoute(id: Id, acceptable: bool)
    | ReorderRoutes(routeIds: seq<Id>)

  datatype MutationError =
    | InvalidInput | Busy | Conflict | NotFound | ReferenceConflict | ValidationFailed | SaveFailed | StateUnavailable
    | RuntimeUnavailable | ConfigurationFailed | StateChanged | StopFailed | StartFailed | RecoveryRequired

  // ---- looking up by id -------------------------------------------------------------------------

  /** Index of the first element with this id. */
  function Position<T(!new)>(s: seq<T>, key: T -> Id, id: Id): (r: Option<nat>)
    ensures r.Some? ==> r.value < |s| && key(s[r.value]) == id
    ensures r.None? ==> forall x :: x in s ==> key(x) != id
  {
    if s == [] then None
    else if key(s[0]) == id then Some(0)
    else
      var rest := Position(s[1..], key, id);
      if rest.Some? then Some(rest.value + 1) else None
  }

  function Without<T>(s: seq<T>, index: nat): seq<T>
    requires index < |s|
  {
    s[..index] + s[index + 1..]
  }

  // ---- priorities ---------------------------------------------------------------------------------

  function Renumbered(routes: seq<Route>): (r: seq<Route>)
  {
    seq(|routes|, i requires 0 <= i < |routes| => routes[i].(priority := i))
  }

  /** Priorities are list positions; a position beyond the 32-bit range is refused. */
  function Normalized(routes: seq<Route>): Result<seq<Route>, MutationError> {
    if |routes| > I32_MAX + 1 then Err(ValidationFailed) else Ok(Renumbered(routes))
  }

  method NormalizePriorities(routes: array<Route>) returns (ok: bool)
    modifies routes
    ensures ok <==> Normalized(old(routes[..])).Ok?
    ensures ok ==> Normalized(old(routes[..])) == Ok(routes[..])
  {
    var index := 0;
    while index < routes.Length
      invariant 0 <= index <= routes.Length
      invariant index <= I32_MAX + 1
      invariant forall i :: 0 <= i < index ==> routes[i] == old(routes[i]).(priority := i)
      invariant forall i :: index <= i < routes.Length ==> routes[i] == old(routes[i])
    {
      if index > I32_MAX { return false; }
      routes[index] := routes[index].(priority := index);
      index := index + 1;
    }
    assert routes[..] == Renumbered(old(routes[..]));
    ok := true;
  }

  /** Route i has priority i. */
  ghost predicate ListPriorities(routes: seq<Route>) {
    forall i :: 0 <= i < |routes| ==> routes[i].priority == i
  }

  // ---- reordering -----------------------------------------------------------------------------------

  predicate ReorderAccepted(routes: seq<Route>, ids: seq<Id>) {
    && |ids| == |routes|
    && |set id | id in ids| == |ids|
    && forall id | id in ids :: HasRoute(routes, id)
  }

  predicate HasRoute(routes: seq<Route>, id: Id) {
    exists r | r in routes :: r.id == id
  }

  /** The routes named by ids, in that order. */
  function Picked(routes: seq<Route>, ids: seq<Id>): (r: seq<Route>)
    requires forall id :: id in ids ==> HasRoute(routes, id)
    ensures |r| == |ids|
    ensures forall i :: 0 <= i < |ids| ==> r[i] in routes && r[i].id == ids[i]
  {
    if ids == [] then []
    else
      var last := |ids| - 1;
      assert HasRoute(routes, ids[last]);
      var p := Position(routes, RouteId, ids[last]);
      Picked(routes, ids[..last]) + [routes[p.value]]
  }

  function Reordered(routes: seq<Route>, ids: seq<Id>): Result<seq<Route>, MutationError> {
    if !ReorderAccepted(routes, ids) then Err(ValidationFailed) else Normalized(Picked(routes, ids))
  }

  lemma {:induction false} CardinalityOfElements(ids: seq<Id>)
    ensures |set id | id in ids| <= |ids|
    ensures |set id | id in ids| == |ids| <==> Distinct(ids, (id: Id) => id)
  {
    var all := set id | id in ids;
    if ids != [] {
      var rest := set id | id in ids[1..];
      CardinalityOfElements(ids[1..]);
      assert all == rest + {ids[0]};
      if ids[0] in rest {
        assert all == rest;
        var k :| 1 <= k < |ids| && ids[k] == ids[0];
      } else {
        forall i, j | 0 <= i < j < |ids| && |rest| == |ids[1..]| ensures ids[i] != ids[j] {
          if i > 0 { assert ids[1..][i - 1] != ids[1..][j - 1]; } else { assert ids[j] in rest; }
        }
        if Distinct(ids, (id: Id) => id) {
          assert Distinct(ids[1..], (id: Id) => id);
        }
      }
    }
  }

  /** Distinct lists of equal length, one inside the other, have the same elements. */
  lemma SameElementsBySize(a: seq<Id>, b: seq<Id>)
    requires |set x | x in a| == |a| == |b| == |set x | x in b|
    requires forall x :: x in a ==> x in b
    ensures forall x :: x in a <==> x in b
  {
    var sa, sb := set x | x in a, set x | x in b;
    assert sa <= sb;
    if sa != sb {
      assert |sb - sa| == |sb| - |sa|;
    }
    forall x ensures x in a <==> x in b {
      assert x in sa <==> x in sb;
    }
  }

  /** ReorderRoutes accepts exactly the permutations of the current route ids. */
  lemma ReorderAcceptsPermutations(routes: seq<Route>, ids: seq<Id>)
    requires Distinct(routes, RouteId)
    ensures ReorderAccepted(routes, ids) <==> multiset(ids) == multiset(Map(routes, RouteId))
  {
    var own := Map(routes, RouteId);
    CardinalityOfElements(ids);
    CardinalityOfElements(own);
    assert Distinct(own, (id: Id) => id) by {
      forall i, j | 0 <= i < j < |own| ensures own[i] != own[j] {
        assert RouteId(routes[i]) != RouteId(routes[j]);
      }
    }
    forall id ensures id in own <==> HasRoute(routes, id) {
      if id in own {
        var i :| 0 <= i < |own| && own[i] == id;
        assert routes[i] in routes;
      }
      if r :| r in routes && r.id == id {
        var i :| 0 <= i < |routes| && routes[i] == r;
        assert own[i] == id;
      }
    }
    if ReorderAccepted(routes, ids) {
      SameElementsBySize(ids, own);
      forall id ensures multiset(ids)[id] == multiset(own)[id] {
        OnceInDistinct(ids, (x: Id) => x, id);
        OnceInDistinct(own, (x: Id) => x, id);
        assert id in multiset(ids) <==> id in ids;
        assert id in multiset(own) <==> id in own;
      }
    }
    if multiset(ids) == multiset(own) {
      assert |ids| == |multiset(ids)| == |multiset(own)| == |own|;
      SameElements(own, ids);
      SameKeys(own, ids, (x: Id) => x);
    }
  }

  /** The remove-and-push loop: each id is found among the routes not yet taken, so the lookup
      the program expects to succeed always does. */
  method ReorderLoop(routes: seq<Route>, ids: seq<Id>) returns (ordered: seq<Route>)
    requires ReorderAccepted(routes, ids) && Distinct(routes, RouteId)
    ensures ordered == Picked(routes, ids)
  {
    CardinalityOfElements(ids);
    var left := routes;
    ordered := [];
    var k := 0;
    while k < |ids|
      invariant 0 <= k <= |ids|
      invariant ordered == Picked(routes, ids[..k])
      invariant Distinct(left, RouteId)
      invariant forall r :: r in left <==> r in routes && r.id !in ids[..k]
    {
      var id := ids[k];
      assert ids[..k + 1][..k] == ids[..k];
      assert forall j :: 0 <= j < k ==> ids[j] != id;
      assert HasRoute(routes, id);
      var wanted :| wanted in routes && wanted.id == id;
      var index := Find(left, RouteId, id);
      assert wanted in left;
      assert index.Some?;
      var route := left[index.value];
      var whole := Position(routes, RouteId, id);
      DistinctElement(routes, RouteId, route, routes[whole.value]);
      ordered := ordered + [route];
      RemoveOne(left, index.value);
      left := Without(left, index.value);
      k := k + 1;
      assert forall x :: x in ids[..k] <==> x in ids[..k - 1] || x == id;
      forall r ensures r in left <==> r in routes && r.id !in ids[..k] {
        if r in routes && r.id == id {
          DistinctElement(routes, RouteId, r, route);
        }
      }
    }
    assert ids[..k] == ids;
  }

  lemma RemoveOne(s: seq<Route>, index: nat)
    requires index < |s| && Distinct(s, RouteId)
    ensures Distinct(Without(s, index), RouteId)
    ensures forall r :: r in Without(s, index) <==> r in s && r != s[index]
  {
    var w := Without(s, index);
    forall i, j | 0 <= i < j < |w| ensures RouteId(w[i]) != RouteId(w[j]) {
      var a, b := if i < index then i else i + 1, if j < index then j else j + 1;
      assert w[i] == s[a] && w[j] == s[b] && a < b;
    }
    forall r ensures r in w <==> r in s && r != s[index] {
      if r in w {
        var i :| 0 <= i < |w| && w[i] == r;
        var a := if i < index then i else i + 1;
        assert s[a] == r && a != index;
        if a < index { assert RouteId(s[a]) != RouteId(s[index]); } else { assert RouteId(s[index]) != RouteId(s[a]); }
      }
      if r in s && r != s[index] {
        var a :| 0 <= a < |s| && s[a] == r;
        assert r == w[if a < index then a else a - 1];
      }
    }
  }

  // ---- all mutations ------------------------------------------------------------------------------

  predicate PoolReferenced(s: AppState, id: Id) {
    || s.defaultTarget == ToPool(id)
    || exists r | r in s.routes :: r.target == ToPool(id)
  }

  /** apply_mutation: the edited state, before the generation is moved and before validation. */
  function Mutated(s: AppState, m: Mutation): Result<AppState, MutationError> {
    match m
    case CreateCustomPool(freshId, name, enabled, sources, selection, acceptable) =>
      if |s.pools| >= MAX_POOLS then Err(ValidationFailed)
      else if !acceptable then Err(InvalidInput)
      else if HasPool(s, freshId) then Err(StateUnavailable)
      else Ok(s.(pools := s.pools + [Pool(freshId, name, Custom, sources, selection, enabled)]))
    case UpdateCustomPool(id, name, enabled, sources, selection, acceptable) =>
      if !acceptable then Err(InvalidInput)
      else
        var at := Position(s.pools, PoolId, id);
        if at.None? then Err(MutationError.NotFound)
        else if s.pools[at.value].kind != Custom then Err(ReferenceConflict)
        else Ok(s.(pools := s.pools[at.value := s.pools[at.value].(
                 name := name, enabled := enabled, sources := sources, selection := selection)]))
    case DeleteCustomPool(id, acceptable) =>
      if !acceptable then Err(InvalidInput)
      else
        var at := Position(s.pools, PoolId, id);
        if at.None? then Err(MutationError.NotFound)
        else if s.pools[at.value].kind != Custom || PoolReferenced(s, id) then Err(ReferenceConflict)
        else Ok(s.(pools := Without(s.pools, at.value)))
    case SetManualSelection(poolId, nodeId, acceptable) =>
      if !acceptable then Err(InvalidInput)
      else
        var at := Position(s.pools, PoolId, poolId);
        if at.None? then Err(MutationError.NotFound)
        else if !s.pools[at.value].selection.ManualChoice? then Err(ReferenceConflict)
        else Ok(s.(pools := s.pools[at.value := s.pools[at.value].(selection := ManualChoice(Some(nodeId)))]))
    case SetDefaultTarget(target, acceptable) =>
      if !acceptable then Err(InvalidInput) else Ok(s.(defaultTarget := target))
    case CreateRoute(freshId, name, enabled, matcher, matcherValid, target, insertAt, acceptable) =>
      if |s.routes| >= MAX_ROUTES || insertAt > |s.routes| then Err(ValidationFailed)
      else if !acceptable then Err(InvalidInput)
      else if Position(s.routes, RouteId, freshId).Some? then Err(StateUnavailable)
      else
        var route := Route(freshId, name, enabled, 0, matcher, matcherValid, target);
        WithRoutes(s, Normalized(s.routes[..insertAt] + [route] + s.routes[insertAt..]))
    case UpdateRoute(id, name, enabled, matcher, matcherValid, target, acceptable) =>
      if !acceptable then Err(InvalidInput)
      else
        var at := Position(s.routes, RouteId, id);
        if at.None? then Err(MutationError.NotFound)
        else Ok(s.(routes := s.routes[at.value := s.routes[at.value].(
                 name := name, enabled := enabled, matcher := matcher, matcherValid := matcherValid, target := target)]))
    case DeleteRoute(id, acceptable) =>
      if !acceptable then Err(InvalidInput)
      else
        var at := Position(s.routes, RouteId, id);
        if at.None? then Err(MutationError.NotFound) else WithRoutes(s, Normalized(Without(s.routes, at.value)))
    case ReorderRoutes(routeIds) => WithRoutes(s, Reordered(s.routes, routeIds))
  }

  function WithRoutes(s: AppState, routes: Result<seq<Route>, MutationError>): Result<AppState, MutationError> {
    if routes.Err? then Err(routes.error) else Ok(s.(routes := routes.value))
  }

  /** Every mutation leaves route i with priority i if it found it so. */
  lemma MutationKeepsListPriorities(s: AppState, m: Mutation)
    requires ListPriorities(s.routes) && Mutated(s, m).Ok?
    ensures ListPriorities(Mutated(s, m).value.routes)
  {
  }

  /** A mutation edits pools, routes and the default target, nothing else. */
  lemma EditsOnlyRouting(s: AppState, m: Mutation)
    requires Mutated(s, m).Ok?
    ensures var t := Mutated(s, m).value;
      t == s.(pools := t.pools, routes := t.routes, defaultTarget := t.defaultTarget)
  {
  }

  /** The routes the projection compiles are the enabled routes in list order. */
  lemma ProjectedRoutesAreInListOrder(s: AppState)
    requires ListPriorities(s.routes)
    ensures Sort(EnabledRoutes(s), RouteKey) == EnabledRoutes(s)
    ensures Project(s).Ok? ==> Project(s).value.routes == EnabledRoutes(s)
  {
    hide Project, Sort;
    if Project(s).Ok? { ProjectedRoutes(s); }
    FilterAscending(s.routes, (r: Route) => r.enabled, RouteKey);
    SortOfAscending(EnabledRoutes(s), RouteKey);
  }

  lemma {:induction false} FilterAscending<T(!new)>(s: seq<T>, keep: T -> bool, key: T -> Key)
    requires Ascending(s, key)
    ensures Ascending(Filter(s, keep), key)
  {
    if s != [] {
      var rest := Filter(s[1..], keep);
      FilterAscending(s[1..], keep, key);
      forall j | 0 <= j < |rest| ensures Before(key(s[0]), key(rest[j])) {
        assert rest[j] in s[1..];
      }
    }
  }

  /** An accepted reorder lists the routes in the requested order, each unchanged except for its
      priority, which becomes its position. */
  lemma ReorderYieldsTheRequestedOrder(s: AppState, ids: seq<Id>)
    requires Distinct(s.routes, RouteId) && |s.routes| <= I32_MAX + 1
    requires multiset(ids) == multiset(Map(s.routes, RouteId))
    ensures Mutated(s, ReorderRoutes(ids)).Ok?
    ensures var out := Mutated(s, ReorderRoutes(ids)).value.routes;
      && Map(out, RouteId) == ids
      && (forall i :: 0 <= i < |out| ==> out[i].priority == i)
      && (forall i :: 0 <= i < |out| ==> exists r :: r in s.routes && out[i] == r.(priority := i))
  {
    ReorderAcceptsPermutations(s.routes, ids);
    var picked := Picked(s.routes, ids);
    var out := Mutated(s, ReorderRoutes(ids)).value.routes;
    assert Map(out, RouteId) == ids;
    forall i | 0 <= i < |out| ensures exists r :: r in s.routes && out[i] == r.(priority := i) {
      assert picked[i] in s.routes;
    }
  }

  // ---- the mutation as the program runs it --------------------------------------------------------

  method ApplyMutation(s: AppState, m: Mutation) returns (r: Result<AppState, MutationError>)
    requires Distinct(s.routes, RouteId)
    ensures r == Mutated(s, m)
  {
    match m {
      case ReorderRoutes(ids) =>
        if !ReorderAccepted(s.routes, ids) { return Err(ValidationFailed); }
        var ordered := ReorderLoop(s.routes, ids);
        r := Normalize(s, ordered);
      case CreateRoute(freshId, name, enabled, matcher, matcherValid, target, insertAt, acceptable) =>
        if |s.routes| >= MAX_ROUTES || insertAt > |s.routes| { return Err(ValidationFailed); }
        if !acceptable { return Err(InvalidInput); }
        var taken := Find(s.routes, RouteId, freshId);
        if taken.Some? { return Err(StateUnavailable); }
        var route := Route(freshId, name, enabled, 0, matcher, matcherValid, target);
        r := Normalize(s, s.routes[..insertAt] + [route] + s.routes[insertAt..]);
      case UpdateRoute(id, name, enabled, matcher, matcherValid, target, acceptable) =>
        if !acceptable { return Err(InvalidInput); }
        var at := Find(s.routes, RouteId, id);
        if at.None? { return Err(MutationError.NotFound); }
        var route := s.routes[at.value];
        route := route.(name := name);
        route := route.(enabled := enabled);
        route := route.(matcher := matcher, matcherValid := matcherValid);
        route := route.(target := target);
        r := Ok(s.(routes := s.routes[at.value := route]));
      case DeleteRoute(id, acceptable) =>
        if !acceptable { return Err(InvalidInput); }
        var at := Find(s.routes, RouteId, id);
        if at.None? { return Err(MutationError.NotFound); }
        r := Normalize(s, Without(s.routes, at.value));
      case CreateCustomPool(_, _, _, _, _, _) => r := CreatePool(s, m);
      case UpdateCustomPool(_, _, _, _, _, _) => r := UpdatePool(s, m);
      case DeleteCustomPool(id, acceptable) => r := DeletePool(s, id, acceptable);
      case SetManualSelection(poolId, nodeId, acceptable) =>
        if !acceptable { return Err(InvalidInput); }
        var at := Find(s.pools, PoolId, poolId);
        if at.None? { return Err(MutationError.NotFound); }
        var pool := s.pools[at.value];
        if !pool.selection.ManualChoice? { return Err(ReferenceConflict); }
        pool := pool.(selection := ManualChoice(Some(nodeId)));
        r := Ok(s.(pools := s.pools[at.value := pool]));
      case SetDefaultTarget(target, acceptable) =>
        if !acceptable { return Err(InvalidInput); }
        r := Ok(s.(defaultTarget := target));
    }
  }

  method CreatePool(s: AppState, m: Mutation) returns (r: Result<AppState, MutationError>)
    requires m.CreateCustomPool?
    ensures r == Mutated(s, m)
  {
    if |s.pools| >= MAX_POOLS { return Err(ValidationFailed); }
    if !m.acceptable { return Err(InvalidInput); }
    var taken := Find(s.pools, PoolId, m.freshId);
    if taken.Some? {
      assert s.pools[taken.value] in s.pools;
      return Err(StateUnavailable);
    }
    r := Ok(s.(pools := s.pools + [Pool(m.freshId, m.name, Custom, m.sources, m.selection, m.enabled)]));
  }

  method UpdatePool(s: AppState, m: Mutation) returns (r: Result<AppState, MutationError>)
    requires m.UpdateCustomPool?
    ensures r == Mutated(s, m)
  {
    if !m.acceptable { return Err(InvalidInput); }
    var at := Find(s.pools, PoolId, m.id);
    if at.None? { return Err(MutationError.NotFound); }
    var pool := s.pools[at.value];
    if pool.kind != Custom { return Err(ReferenceConflict); }
    pool := pool.(name := m.name);
    pool := pool.(enabled := m.enabled);
    pool := pool.(sources := m.sources);
    pool := pool.(selection := m.selection);
    r := Ok(s.(pools := s.pools[at.value := pool]));
  }

  /** A pool that a route or the default target names is kept. */
  method DeletePool(s: AppState, id: Id, acceptable: bool) returns (r: Result<AppState, MutationError>)
    ensures r == Mutated(s, DeleteCustomPool(id, acceptable))
  {
    if !acceptable { return Err(InvalidInput); }
    var at := Find(s.pools, PoolId, id);
    if at.None? { return Err(MutationError.NotFound); }
    if s.pools[at.value].kind != Custom { return Err(ReferenceConflict); }
    if s.defaultTarget == ToPool(id) { return Err(ReferenceConflict); }
    var k := 0;
    while k < |s.routes|
      invariant 0 <= k <= |s.routes| && forall j :: 0 <= j < k ==> s.routes[j].target != ToPool(id)
    {
      if s.routes[k].target == ToPool(id) {
        assert s.routes[k] in s.routes;
        return Err(ReferenceConflict);
      }
      k := k + 1;
    }
    r := Ok(s.(pools := Without(s.pools, at.value)));
  }

  /** The first element with this id, looked for from the front. */
  method Find<T(!new)>(s: seq<T>, key: T -> Id, id: Id) returns (at: Option<nat>)
    ensures at == Position(s, key, id)
  {
    var k := 0;
    while k < |s|
      invariant 0 <= k <= |s| && forall j :: 0 <= j < k ==> key(s[j]) != id
    {
      if key(s[k]) == id {
        FirstPosition(s, key, id, k);
        return Some(k);
      }
      k := k + 1;
    }
    at := None;
  }

  lemma {:induction false} FirstPosition<T(!new)>(s: seq<T>, key: T -> Id, id: Id, k: nat)
    requires k < |s| && key(s[k]) == id && forall j :: 0 <= j < k ==> key(s[j]) != id
    ensures Position(s, key, id) == Some(k)
  {
    if k > 0 { FirstPosition(s[1..], key, id, k - 1); }
  }

  method Normalize(s: AppState, routes: seq<Route>) returns (r: Result<AppState, MutationError>)
    ensures r == WithRoutes(s, Normalized(routes))
  {
    var cells := new Route[|routes|](i requires 0 <= i < |routes| => routes[i]);
    assert cells[..] == routes;
    var ok := NormalizePriorities(cells);
    if !ok { return Err(ValidationFailed); }
    r := Ok(s.(routes := cells[..]));
  }
}
