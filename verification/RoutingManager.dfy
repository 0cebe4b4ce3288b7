/** The routing revision and the compare-and-set transaction
    (src-tauri/src/application/proxy_routing.rs, RevisionState and ProxyRoutingManager::mutate). */
module RoutingManager {
  import opened Common
  import opened Domain
  import opened Edits
  import opened Routing
  import SelectorIndex

  datatype RevisionState = RevisionState(revision: nat, material: Option<CasMaterial>)

  const UNOBSERVED: RevisionState := RevisionState(0, None)

  /** A material that differs from the last one seen gets the next revision; None when the safe
      range is exhausted. */
  function Observe(rs: RevisionState, material: CasMaterial): Option<RevisionState> {
    if rs.material == Some(material) then Some(rs)
    else if rs.revision + 1 > MAX_SAFE_INTEGER then None
    else Some(RevisionState(rs.revision + 1, Some(material)))
  }

  /** The state after observing these materials in order; a refused observation changes nothing. */
  function ObserveAll(rs: RevisionState, materials: seq<CasMaterial>): RevisionState {
    if materials == [] then rs
    else
      var last := |materials| - 1;
      var before := ObserveAll(rs, materials[..last]);
      var seen := Observe(before, materials[last]);
      if seen.Some? then seen.value else before
  }

  /** Over any sequence of observations a revision names one material: if the revision after i and
      after j observations is the same, so is the material. */
  lemma {:induction false} RevisionNamesOneMaterial(materials: seq<CasMaterial>, i: nat, j: nat)
    requires i <= j <= |materials|
    ensures ObserveAll(UNOBSERVED, materials[..i]).revision <= ObserveAll(UNOBSERVED, materials[..j]).revision
    ensures ObserveAll(UNOBSERVED, materials[..i]).revision == ObserveAll(UNOBSERVED, materials[..j]).revision ==>
              ObserveAll(UNOBSERVED, materials[..i]) == ObserveAll(UNOBSERVED, materials[..j])
  {
    if i < j {
      RevisionNamesOneMaterial(materials, i, j - 1);
      assert materials[..j][..j - 1] == materials[..j - 1];
    }
  }

  /** Two states have the same material exactly when they agree on everything the proxy page edits or
      shows; connection details of nodes are not compared. */
  lemma MaterialNamesItsParts(s: AppState, t: AppState)
    ensures Material(s) == Material(t) <==>
      && s.activeId == t.activeId && s.generation == t.generation && s.providers == t.providers
      && s.pools == t.pools && s.defaultTarget == t.defaultTarget && s.routes == t.routes
      && |s.nodes| == |t.nodes|
      && forall k :: 0 <= k < |s.nodes| ==>
           s.nodes[k].id == t.nodes[k].id && s.nodes[k].providerId == t.nodes[k].providerId
           && s.nodes[k].name == t.nodes[k].name && s.nodes[k].protocol == t.nodes[k].protocol
  {
    if Material(s) == Material(t) {
      forall k | 0 <= k < |s.nodes| ensures Material(s).nodes[k] == Material(t).nodes[k] {}
    }
  }

  /** A mutation that leaves the material alone leaves the whole state alone. */
  lemma MaterialShowsEveryEdit(s: AppState, m: Mutation)
    requires Mutated(s, m).Ok?
    ensures Material(Mutated(s, m).value) == Material(s) <==> Mutated(s, m).value == s
  {
    EditsOnlyRouting(s, m);
  }

  datatype Request = Mutate(mutation: Mutation) | ApplyConfiguration

  /** What a manual selection is told: what the runtime answered, or that somebody has chosen
      otherwise since. */
  datatype Told = FromRuntime(answer: SelectorIndex.Answer) | Superseded

  datatype Reply =
    | Selected(told: Told, revision: nat)
    | Committed(revision: nat)
    | Unchanged(revision: nat)
    | Apply(activeId: Id, generation: nat, revision: nat)
    | Refused(error: MutationError, known: Option<nat>)

  predicate StillDesired(s: AppState, poolId: Id, nodeId: Id) {
    exists p | p in s.pools :: p.id == poolId && p.selection == ManualChoice(Some(nodeId))
  }

  /** What a manual selection saves, or finds already saved, is what it desires. */
  lemma SavedChoiceIsDesired(s: AppState, poolId: Id, nodeId: Id, acceptable: bool)
    requires RouteDelta(s, SetManualSelection(poolId, nodeId, acceptable)).Ok?
    ensures StillDesired(RouteDelta(s, SetManualSelection(poolId, nodeId, acceptable)).value, poolId, nodeId)
  {
    hide Domain.Valid;
    var at := Position(s.pools, PoolId, poolId).value;
    var t := Mutated(s, SetManualSelection(poolId, nodeId, acceptable)).value;
    assert t.pools[at] in t.pools && t.pools[at].id == poolId;
  }

  /** What the register holds after others have saved these states one after the other. */
  function After(s: AppState, later: seq<Save>): AppState {
    if later == [] then s else later[|later| - 1].state
  }

  /** Somebody's save; `observed` if this manager looked at it. */
  datatype Save = Save(state: AppState, observed: bool)

  class ProxyRoutingManager {
    /** The register; other writers change it between calls, through OtherWriterSaves. */
    var store: AppState
    var revision: RevisionState
    /** Every revision this manager has ever named, with the material it named. */
    ghost var names: map<nat, CasMaterial>

    ghost predicate Valid()
      reads this
    {
      && Domain.Valid(store)
      && revision.revision <= MAX_SAFE_INTEGER
      && (forall r :: r in names <==> 1 <= r <= revision.revision)
      && (if revision.revision == 0 then revision.material == None
          else revision.material == Some(names[revision.revision]))
    }

    constructor (initial: AppState)
      requires Domain.Valid(initial)
      ensures Valid() && store == initial && revision == UNOBSERVED && names == map[]
    {
      store := initial;
      revision := UNOBSERVED;
      names := map[];
    }

    /** Any other writer commits a valid state of its own. */
    method OtherWriterSaves(next: AppState)
      requires Valid() && Domain.Valid(next)
      modifies this`store
      ensures Valid() && store == next
    {
      store := next;
    }

    function KnownRevision(): Option<nat>
      reads this
    {
      if revision.revision > 0 then Some(revision.revision) else None
    }

    /** RevisionState::observe on the material of the state just loaded. */
    method ObserveStore() returns (current: Option<nat>)
      requires Valid()
      modifies this`revision, this`names
      ensures Valid()
      ensures var seen := Observe(old(revision), Material(store));
        if seen.None? then current == None && revision == old(revision) && names == old(names)
        else revision == seen.value && current == Some(revision.revision) && names == old(names)[revision.revision := Material(store)]
      ensures forall r :: r in old(names) ==> r in names && names[r] == old(names)[r]
    {
      var seen := Observe(revision, Material(store));
      if seen.None? { return None; }
      revision := seen.value;
      names := names[revision.revision := Material(store)];
      current := Some(revision.revision);
    }

    /** The stored material is the one the expected revision names. */
    ghost predicate Matches(expected: nat, gateFree: bool, loadWorks: bool)
      reads this
    {
      && 1 <= expected <= MAX_SAFE_INTEGER && gateFree && loadWorks
      && Observe(revision, Material(store)).Some? && Observe(revision, Material(store)).value.revision == expected
    }

    /** The transaction. A commit only follows when the stored material is the one the caller's
        expected revision names; it moves the revision by one. Everything else, revision overflow
        included, is refused with the store untouched. */
    method MutateRouting(expected: nat, request: Request, gateFree: bool, loadWorks: bool, saveWorks: bool)
      returns (reply: Reply)
      requires Valid()
      modifies this
      ensures Valid()
      ensures forall r :: r in old(names) ==> r in names && names[r] == old(names)[r]
      ensures !reply.Committed? ==> store == old(store)
      ensures !reply.Selected?
      ensures reply.Committed? <==>
        && old(Matches(expected, gateFree, loadWorks)) && request.Mutate? && saveWorks && expected < MAX_SAFE_INTEGER
        && RouteDelta(old(store), request.mutation).Ok? && RouteDelta(old(store), request.mutation).value != old(store)
      ensures reply.Unchanged? <==>
        old(Matches(expected, gateFree, loadWorks)) && request.Mutate? && Mutated(old(store), request.mutation) == Ok(old(store))
      ensures reply.Apply? <==>
        old(Matches(expected, gateFree, loadWorks)) && request.ApplyConfiguration? && old(store).activeId.Some?
      ensures reply.Committed? || reply.Unchanged? || reply.Apply? ==>
        && revision.material == Some(Material(store)) && revision.revision == (if reply.Committed? then expected + 1 else expected)
        && expected in names && names[expected] == Material(old(store))
      ensures reply.Committed? ==>
        && request.Mutate? && RouteDelta(old(store), request.mutation) == Ok(store) && store != old(store)
        && reply.revision == revision.revision == expected + 1 && names[expected + 1] == Material(store)
      ensures reply.Unchanged? ==>
        && request.Mutate? && Mutated(old(store), request.mutation) == Ok(old(store))
        && reply.revision == revision.revision == expected
      ensures reply.Apply? ==>
        request.ApplyConfiguration? && old(store).activeId == Some(reply.activeId) && reply.generation == old(store).generation
      ensures
        && gateFree && loadWorks && 1 <= expected <= MAX_SAFE_INTEGER
        && Observe(old(revision), Material(old(store))).Some?
        && Observe(old(revision), Material(old(store))).value.revision != expected
        ==> reply.Refused? && reply.error == MutationError.Conflict && reply.known == Some(revision.revision)
    {
      hide Domain.Valid, RouteDelta, Mutated, Material;
      if !(1 <= expected <= MAX_SAFE_INTEGER) { return Refused(MutationError.InvalidInput, KnownRevision()); }
      if !gateFree { return Refused(MutationError.Busy, KnownRevision()); }
      if !loadWorks { return Refused(MutationError.StateUnavailable, KnownRevision()); }
      var observed := ObserveStore();
      if observed.None? { return Refused(MutationError.StateUnavailable, KnownRevision()); }
      var current := observed.value;
      if current != expected { return Refused(MutationError.Conflict, Some(current)); }
      match request {
        case ApplyConfiguration =>
          if store.activeId.None? { return Refused(MutationError.ValidationFailed, Some(current)); }
          reply := Apply(store.activeId.value, store.generation, current);
        case Mutate(mutation) =>
          reply := CommitMutation(current, mutation, saveWorks);
      }
    }

    /** mutate: the transaction, and for a manual selection or a runtime request what follows it with
        the gate released, while others save the states `later`. A saved selection is never answered
        with a refusal; the revision in the answer names the state reloaded last (`latest`) or,
        without a reload, the state this call saved; and "superseded" is said exactly when the
        reloaded state no longer holds the choice. `failure` is the error of a runtime request. */
    method Mutate(expected: nat, request: Request, gateFree: bool, loadWorks: bool, saveWorks: bool,
                  answer: SelectorIndex.Answer, failure: Option<MutationError>, later: seq<Save>, reloads: bool)
      returns (reply: Reply, latest: bool)
      requires Valid() && forall k :: 0 <= k < |later| ==> Domain.Valid(later[k].state)
      modifies this
      ensures Valid()
      ensures forall r :: r in old(names) ==> r in names && names[r] == old(names)[r]
      ensures request.Mutate? && (reply.Refused? || reply.Unchanged?) ==> store == old(store)
      ensures reply.Selected? || reply.Committed? || reply.Unchanged? <==>
        && old(Matches(expected, gateFree, loadWorks)) && request.Mutate? && RouteDelta(old(store), request.mutation).Ok?
        && (RouteDelta(old(store), request.mutation).value == old(store)
            || (saveWorks && expected < MAX_SAFE_INTEGER))
      ensures reply.Selected? ==> request.mutation.SetManualSelection?
      ensures request.Mutate? && request.mutation.SetManualSelection? ==> reply.Selected? || reply.Refused?
      ensures reply.Committed? ==>
        && request.Mutate? && !request.mutation.SetManualSelection?
        && expected in names && names[expected] == Material(old(store))
        && RouteDelta(old(store), request.mutation) == Ok(store) && store != old(store)
        && reply.revision == expected + 1 && expected + 1 in names && names[expected + 1] == Material(store)
      ensures reply.Selected? ==>
        && request.Mutate? && request.mutation.SetManualSelection? && RouteDelta(old(store), request.mutation).Ok?
        && expected in names && names[expected] == Material(old(store))
        && var saved := RouteDelta(old(store), request.mutation).value;
           var poolId, nodeId := request.mutation.poolId, request.mutation.nodeId;
        && store == After(saved, later)
        && reply.revision >= expected && reply.revision in names
        && names[reply.revision] == Material(if latest then store else saved)
        && (later == [] ==> reply == Selected(FromRuntime(answer), if saved == old(store) then expected else expected + 1))
        && (if latest && !StillDesired(store, poolId, nodeId) then reply.told == Superseded else reply.told == FromRuntime(answer))
        && (reloads && revision.revision < MAX_SAFE_INTEGER ==> latest)
      ensures reply.Apply? ==>
        && request.ApplyConfiguration? && failure.None? && store == After(old(store), later)
        && old(store).activeId == Some(reply.activeId) && reply.generation == old(store).generation
        && reply.revision >= expected && reply.revision in names && names[reply.revision] == Material(store)
      ensures
        && old(Matches(expected, gateFree, loadWorks)) && request.ApplyConfiguration? && old(store).activeId.Some?
        && failure.None? && reloads && revision.revision < MAX_SAFE_INTEGER
        ==> reply.Apply?
    {
      hide Domain.Valid, RouteDelta, Mutated, Material, StillDesired;
      latest := false;
      if request.Mutate? { UnchangedIsItsDelta(store, request.mutation); }
      reply := MutateRouting(expected, request, gateFree, loadWorks, saveWorks);
      match request {
        case Mutate(SetManualSelection(poolId, nodeId, acceptable)) =>
          if reply.Committed? || reply.Unchanged? {
            SavedChoiceIsDesired(old(store), poolId, nodeId, acceptable);
            reply, latest := FinishManualSelection(poolId, nodeId, reply.revision, answer, later, reloads);
          }
        case Mutate(_) =>
        case ApplyConfiguration =>
          if !reply.Apply? { return; }
          OthersSave(later);
          if failure.Some? { return Refused(failure.value, Some(reply.revision)), latest; }
          if !reloads { return Refused(MutationError.StateUnavailable, KnownRevision()), latest; }
          var seen := ObserveStore();
          if seen.None? { return Refused(MutationError.StateUnavailable, KnownRevision()), latest; }
          reply, latest := Apply(reply.activeId, reply.generation, seen.value), true;
      }
    }

    /** Other writers save, and this manager looks at some of it. */
    method OthersSave(later: seq<Save>)
      requires Valid() && forall k :: 0 <= k < |later| ==> Domain.Valid(later[k].state)
      modifies this
      ensures Valid() && store == After(old(store), later) && revision.revision >= old(revision).revision
      ensures forall r :: r in old(names) ==> r in names && names[r] == old(names)[r]
      ensures later == [] ==> revision == old(revision) && names == old(names)
    {
      hide Domain.Valid, Material;
      var k := 0;
      while k < |later|
        invariant 0 <= k <= |later| && Valid() && store == After(old(store), later[..k])
        invariant revision.revision >= old(revision).revision
        invariant forall r :: r in old(names) ==> r in names && names[r] == old(names)[r]
        invariant k == 0 ==> revision == old(revision) && names == old(names)
      {
        OtherWriterSaves(later[k].state);
        if later[k].observed { var seen := ObserveStore(); }
        k := k + 1;
      }
      assert later[..k] == later;
    }

    /** finish_manual_selection. */
    method FinishManualSelection(poolId: Id, nodeId: Id, committed: nat, answer: SelectorIndex.Answer,
                                 later: seq<Save>, reloads: bool)
      returns (reply: Reply, latest: bool)
      requires Valid() && forall k :: 0 <= k < |later| ==> Domain.Valid(later[k].state)
      requires revision == RevisionState(committed, Some(Material(store))) && committed >= 1
      requires StillDesired(store, poolId, nodeId)
      modifies this
      ensures Valid() && store == After(old(store), later) && reply.Selected?
      ensures forall r :: r in old(names) ==> r in names && names[r] == old(names)[r]
      ensures reply.revision >= committed && reply.revision in names
      ensures names[reply.revision] == Material(if latest then store else old(store))
      ensures later == [] ==> reply == Selected(FromRuntime(answer), committed)
      ensures reply.told == if latest && !StillDesired(store, poolId, nodeId) then Superseded else FromRuntime(answer)
      ensures reloads && revision.revision < MAX_SAFE_INTEGER ==> latest
    {
      hide Domain.Valid, Material, StillDesired;
      OthersSave(later);
      latest := false;
      var current := committed;
      if reloads {
        var seen := ObserveStore();
        if seen.Some? { current, latest := seen.value, true; }
      }
      var told := if StillDesired(store, poolId, nodeId) || !latest then FromRuntime(answer) else Superseded;
      reply := Selected(told, current);
    }

    /** The part of the transaction after the revisions have been found equal. */
    method CommitMutation(current: nat, mutation: Mutation, saveWorks: bool) returns (reply: Reply)
      requires Valid() && revision == RevisionState(current, Some(Material(store))) && current >= 1
      modifies this
      ensures Valid()
      ensures forall r :: r in old(names) ==> r in names && names[r] == old(names)[r]
      ensures !reply.Committed? ==> store == old(store) && revision == old(revision)
      ensures reply.Committed? || reply.Unchanged? || reply.Refused?
      ensures reply.Committed? <==>
        saveWorks && current < MAX_SAFE_INTEGER
        && RouteDelta(old(store), mutation).Ok? && RouteDelta(old(store), mutation).value != old(store)
      ensures reply.Committed? ==>
        && RouteDelta(old(store), mutation) == Ok(store)
        && reply.revision == revision.revision == current + 1 && names[current + 1] == Material(store)
      ensures reply.Unchanged? <==> Mutated(old(store), mutation) == Ok(old(store))
      ensures reply.Unchanged? ==> reply.revision == current
    {
      hide Domain.Valid, RouteDelta, Mutated, Material;
      var next := NextState(store, mutation, current);
      if next.Err? { return Refused(next.error, Some(current)); }
      if next.value.None? { return Unchanged(current); }
      if !saveWorks { return Refused(MutationError.SaveFailed, Some(current)); }
      store := next.value.value;
      var committed := ObserveStore();
      // Observing cannot fail here: the revision was below the limit before the save.
      reply := Committed(committed.value);
    }
  }

  /** The state to save, None when the mutation edits nothing, or the refusal. */
  method NextState(s: AppState, mutation: Mutation, current: nat) returns (r: Result<Option<AppState>, MutationError>)
    requires Domain.Valid(s)
    ensures r.Ok? && r.value.Some? <==>
      current != MAX_SAFE_INTEGER && RouteDelta(s, mutation).Ok? && RouteDelta(s, mutation).value != s
    ensures r.Ok? && r.value.Some? ==>
      RouteDelta(s, mutation) == Ok(r.value.value) && Domain.Valid(r.value.value) && Material(r.value.value) != Material(s)
    ensures r == Ok(None) <==> Mutated(s, mutation) == Ok(s)
  {
    hide Domain.Valid, RouteDelta, Mutated, Material;
    RoutesDistinct(s);
    var edited := ApplyMutation(s, mutation);
    if edited.Err? {
      RouteDeltaRefuses(s, mutation);
      return Err(edited.error);
    }
    RouteDeltaShape(s, mutation);
    var state := edited.value;
    if Material(state) == Material(s) { return Ok(None); }
    if !mutation.SetManualSelection? {
      if state.generation + 1 > MAX_SAFE_INTEGER { return Err(MutationError.StateUnavailable); }
      state := state.(generation := state.generation + 1);
    }
    if current == MAX_SAFE_INTEGER { return Err(MutationError.StateUnavailable); }
    if !Domain.Valid(state) { return Err(MutationError.ValidationFailed); }
    return Ok(Some(state));
  }

  /** A structural edit moves the generation by one; a manual selection and a no-op do not. */
  lemma RouteDeltaShape(s: AppState, m: Mutation)
    requires Mutated(s, m).Ok?
    ensures var edited := Mutated(s, m).value;
      var moved := edited.(generation := s.generation + if m.SetManualSelection? then 0 else 1);
      && edited.generation == s.generation
      && (RouteDelta(s, m).Ok? <==>
            edited == s || ((m.SetManualSelection? || s.generation < MAX_SAFE_INTEGER) && Domain.Valid(moved)))
      && (RouteDelta(s, m).Ok? && edited != s ==> RouteDelta(s, m).value == moved && moved != s)
      && (edited == s ==> RouteDelta(s, m) == Ok(s))
      && (Material(edited) == Material(s) <==> edited == s)
      && (edited != s ==> Material(moved) != Material(s))
  {
    hide Mutated, Domain.Valid;
    EditsOnlyRouting(s, m);
    MaterialShowsEveryEdit(s, m);
  }

  /** A mutation saves the state it found only if it edits nothing. */
  lemma UnchangedIsItsDelta(s: AppState, m: Mutation)
    ensures Mutated(s, m) == Ok(s) <==> RouteDelta(s, m) == Ok(s)
  {
    if Mutated(s, m).Ok? { RouteDeltaShape(s, m); } else { RouteDeltaRefuses(s, m); }
  }

  lemma RouteDeltaRefuses(s: AppState, m: Mutation)
    requires Mutated(s, m).Err?
    ensures RouteDelta(s, m).Err?
  {
  }

  lemma RoutesDistinct(s: AppState)
    requires Domain.Valid(s)
    ensures Distinct(s.routes, RouteId)
  {
    UniqueIsDistinct(s.routes, RouteId);
  }
}
