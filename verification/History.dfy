/** The writers of the program in the protocol of module Writers, and what every history of saves
    satisfies: validity, the meaning of the configuration generation, and route priorities. */
module History {
  import opened Common
  import opened Domain
  import opened Edits
  import opened Routing
  import opened Writers
  import Projection
  import DeleteIntegrity

  /** What each operation saves over what it finds; no stored file reads as None. */
  function Delta(found: Option<AppState>, op: Op): Result<AppState, OpError> {
    if op.Import? then
      if op.expectedEmpty.Some? && op.expectedEmpty.value != found.None? then Err(OpError.Busy)
      else ImportDelta(OrEmpty(found), op.input)
    else if op.Route? then RouteDelta(OrEmpty(found), op.mutation)
    else if found.None? then Err(if op.Activate? then OpError.StateUnavailable else OpError.NotFound)
    else
      var s := found.value;
      match op
      case Update(snapshot, fetched, now) => UpdateDelta(s, snapshot, fetched, now)
      case FailedAttempt(snapshot, attemptedAt) => AttemptDelta(s, snapshot, attemptedAt)
      case Edit(edit, download) => EditDelta(s, edit, download)
      case Delete(id, stopped) => DeleteDelta(s, id, stopped)
      case SaveDocument(document) => DocumentDelta(s, document)
      case Activate(id) => ActivateDelta(s, id)
  }

  // ---- structure a generation stands for -------------------------------------------------------

  /** A pool up to the node a manual selection picked. */
  function Shape(p: Pool): Pool {
    if p.selection.ManualChoice? then p.(selection := ManualChoice(None)) else p
  }

  function CustomShapes(pools: seq<Pool>): seq<Pool> {
    if pools == [] then []
    else
      var k := |pools| - 1;
      CustomShapes(pools[..k]) + (if pools[k].kind == Custom then [Shape(pools[k])] else [])
  }

  predicate SameStructure(s: AppState, t: AppState) {
    && s.activeId == t.activeId
    && s.defaultTarget == t.defaultTarget
    && s.routes == t.routes
    && CustomShapes(s.pools) == CustomShapes(t.pools)
  }

  /** One save: the generation does not go back or leave the safe range, and if it stays the
      structure stays. */
  predicate GenerationStep(s: AppState, t: AppState) {
    && s.generation <= t.generation <= MAX_SAFE_INTEGER
    && (s.generation == t.generation ==> SameStructure(s, t))
  }

  lemma {:induction false} SamePositions(a: seq<Pool>, b: seq<Pool>)
    requires |a| == |b|
    requires forall i :: 0 <= i < |a| ==> a[i].kind == b[i].kind && (a[i].kind == Custom ==> Shape(a[i]) == Shape(b[i]))
    ensures CustomShapes(a) == CustomShapes(b)
  {
    if a != [] {
      var k := |a| - 1;
      SamePositions(a[..k], b[..k]);
      assert a[k].kind == b[k].kind;
    }
  }

  lemma {:induction false} AppendShape(pools: seq<Pool>, p: Pool)
    ensures CustomShapes(pools + [p]) == CustomShapes(pools) + (if p.kind == Custom then [Shape(p)] else [])
  {
    assert (pools + [p])[..|pools|] == pools;
  }

  lemma {:induction false} RemovingImplicitKeepsShapes(pools: seq<Pool>, keep: Pool -> bool)
    requires forall p :: p in pools && p.kind == Custom ==> keep(p)
    ensures CustomShapes(Filter(pools, keep)) == CustomShapes(pools)
  {
    if pools != [] {
      var k := |pools| - 1;
      RemovingImplicitKeepsShapes(pools[..k], keep);
      assert pools == pools[..k] + [pools[k]];
      FilterConcat(pools[..k], [pools[k]], keep);
      assert Filter([pools[k]], keep) == if keep(pools[k]) then [pools[k]] else [];
      if keep(pools[k]) {
        AppendShape(Filter(pools[..k], keep), pools[k]);
      } else {
        assert Filter(pools, keep) == Filter(pools[..k], keep);
      }
    }
  }

  // ---- each operation ----------------------------------------------------------------------------

  lemma ImportStep(s: AppState, input: ImportInput)
    requires s.generation <= MAX_SAFE_INTEGER && ImportDelta(s, input).Ok?
    ensures Valid(ImportDelta(s, input).value) && GenerationStep(s, ImportDelta(s, input).value)
  {
    var t := ImportDelta(s, input).value;
    assert t.pools == s.pools + [t.pools[|s.pools|]];
    AppendShape(s.pools, t.pools[|s.pools|]);
  }

  lemma UpdateStep(s: AppState, snapshot: UpdateSnapshot, fetched: Fetched, now: nat)
    requires s.generation <= MAX_SAFE_INTEGER && UpdateDelta(s, snapshot, fetched, now).Ok?
    ensures Valid(UpdateDelta(s, snapshot, fetched, now).value) && GenerationStep(s, UpdateDelta(s, snapshot, fetched, now).value)
  {
    UpdateTouchesOnlyItsOwn(s, snapshot, fetched, now);
  }

  lemma AttemptStep(s: AppState, snapshot: UpdateSnapshot, at: nat)
    requires s.generation <= MAX_SAFE_INTEGER && AttemptDelta(s, snapshot, at).Ok?
    ensures Valid(AttemptDelta(s, snapshot, at).value) && GenerationStep(s, AttemptDelta(s, snapshot, at).value)
  {
  }

  lemma EditCommitStep(s: AppState, index: nat, edited: Subscription, download: Option<Download>)
    requires s.generation <= MAX_SAFE_INTEGER && index < |s.subscriptions|
    requires EditCommit(s, index, edited, download).Ok?
    ensures Valid(EditCommit(s, index, edited, download).value) && GenerationStep(s, EditCommit(s, index, edited, download).value)
  {
    hide Valid;
    var t := EditCommit(s, index, edited, download).value;
    var at := Position(s.providers, (p: Provider) => p.subscriptionId, edited.id);
    assert t.pools == Renamed(s.pools, s.providers[at.value].id, edited.name);
    SamePositions(s.pools, t.pools);
  }

  lemma EditStep(s: AppState, edit: EditInput, download: Option<Download>)
    requires s.generation <= MAX_SAFE_INTEGER && EditDelta(s, edit, download).Ok?
    ensures Valid(EditDelta(s, edit, download).value) && GenerationStep(s, EditDelta(s, edit, download).value)
  {
    var index := Position(s.subscriptions, SubscriptionId, edit.id).value;
    EditCommitStep(s, index, EditedRow(s.subscriptions[index], edit).value, download);
  }

  lemma DeleteStep(s: AppState, id: Id, stopped: bool)
    requires Valid(s) && DeleteDelta(s, id, stopped).Ok?
    ensures Valid(DeleteDelta(s, id, stopped).value) && GenerationStep(s, DeleteDelta(s, id, stopped).value)
  {
    DeleteIntegrity.DeleteGuardsSuffice(s, id, stopped);
    var t := DeleteCandidate(s, id, stopped).value;
    var providerIds := ProviderIdsOf(s, id);
    var owned := OwnedPoolIds(s, providerIds);
    forall p | p in s.pools && p.kind == Custom ensures p.id !in owned {
      DeleteIntegrity.OwnedPoolIsTheIdHolder(s, providerIds, p);
    }
    RemovingImplicitKeepsShapes(s.pools, (p: Pool) => p.id !in owned);
    assert t.pools == Filter(s.pools, (p: Pool) => p.id !in owned);
  }

  lemma DocumentStep(s: AppState, input: DocumentInput)
    requires s.generation <= MAX_SAFE_INTEGER && DocumentDelta(s, input).Ok?
    ensures Valid(DocumentDelta(s, input).value) && GenerationStep(s, DocumentDelta(s, input).value)
  {
    hide Valid, ProvidersOf;
    var at := Position(s.subscriptions, SubscriptionId, input.id);
    var next := PrepareDocument(s, input).value.next;
    assert next == s.(subscriptions := next.subscriptions, nodes := next.nodes, generation := next.generation);
  }

  lemma ActivateStep(s: AppState, id: Id)
    requires s.generation <= MAX_SAFE_INTEGER && ActivateDelta(s, id).Ok?
    ensures Valid(ActivateDelta(s, id).value) && GenerationStep(s, ActivateDelta(s, id).value)
  {
  }

  lemma ManualChoiceKeepsShapes(s: AppState, m: Mutation)
    requires m.SetManualSelection? && Mutated(s, m).Ok?
    ensures SameStructure(s, Mutated(s, m).value)
  {
    SamePositions(s.pools, Mutated(s, m).value.pools);
  }

  lemma RouteStep(s: AppState, m: Mutation)
    requires Valid(s) && RouteDelta(s, m).Ok?
    ensures Valid(RouteDelta(s, m).value) && GenerationStep(s, RouteDelta(s, m).value)
  {
    assert s.generation <= MAX_SAFE_INTEGER;
    hide Valid, Mutated;
    EditsOnlyRouting(s, m);
    if m.SetManualSelection? {
      ManualChoiceKeepsShapes(s, m);
    }
  }

  /** Every operation that saves makes one generation step and leaves a valid state. */
  lemma DeltaStep(found: Option<AppState>, op: Op)
    requires Valid(OrEmpty(found)) && Delta(found, op).Ok?
    ensures Valid(Delta(found, op).value) && GenerationStep(OrEmpty(found), Delta(found, op).value)
  {
    var s := OrEmpty(found);
    match op {
      case Import(input, _) => assert Delta(found, op) == ImportDelta(s, input); ImportStep(s, input);
      case Update(snapshot, fetched, now) =>
        assert Delta(found, op) == UpdateDelta(s, snapshot, fetched, now);
        UpdateStep(s, snapshot, fetched, now);
      case FailedAttempt(snapshot, at) =>
        assert Delta(found, op) == AttemptDelta(s, snapshot, at);
        AttemptStep(s, snapshot, at);
      case Edit(edit, download) => assert Delta(found, op) == EditDelta(s, edit, download); EditStep(s, edit, download);
      case Delete(id, stopped) => assert Delta(found, op) == DeleteDelta(s, id, stopped); DeleteStep(s, id, stopped);
      case SaveDocument(document) => assert Delta(found, op) == DocumentDelta(s, document); DocumentStep(s, document);
      case Activate(id) => assert Delta(found, op) == ActivateDelta(s, id); ActivateStep(s, id);
      case Route(m) => assert Delta(found, op) == RouteDelta(s, m); RouteStep(s, m);
    }
  }

  // ---- whole histories ---------------------------------------------------------------------------

  /** If every delta keeps `good` and relates its two states by `step`, then so do any two states
      of a sequential history. */
  lemma {:induction false} HistoryRelation(
      delta: DeltaFn, good: AppState -> bool, step: (AppState, AppState) -> bool,
      first: Option<AppState>, history: seq<Save>, store: Option<AppState>, j: nat, k: nat)
    requires forall found, op :: good(OrEmpty(found)) && delta(found, op).Ok? ==>
               good(delta(found, op).value) && step(OrEmpty(found), delta(found, op).value)
    requires forall s :: good(s) ==> step(s, s)
    requires forall s, t, u :: good(s) && step(s, t) && step(t, u) ==> step(s, u)
    requires Sequential(delta, first, history, store) && good(OrEmpty(first)) && j <= k <= |history|
    ensures good(OrEmpty(HeldBefore(first, history, j))) && good(OrEmpty(HeldBefore(first, history, k)))
    ensures step(OrEmpty(HeldBefore(first, history, j)), OrEmpty(HeldBefore(first, history, k)))
    decreases k
  {
    if k > 0 {
      HistoryRelation(delta, good, step, first, history, store, if j < k then j else k - 1, k - 1);
      var save := history[k - 1];
      assert save.before == HeldBefore(first, history, k - 1);
      assert delta(save.before, save.op) == Ok(save.after);
      assert step(OrEmpty(save.before), save.after);
    }
  }

  /** Over every interleaving of all writers the generation never decreases and stays within
      MAX_SAFE_INTEGER, and any two states the register held with the same generation agree on
      active subscription, default target, routes, and custom pools up to their manual choice. */
  lemma {:induction false} GenerationNamesStructure(first: Option<AppState>, trace: seq<(nat, Action)>, j: nat, k: nat)
    requires Valid(OrEmpty(first))
    requires j <= k <= |Run(Delta, Initial(first), trace).shared.history|
    ensures var history := Run(Delta, Initial(first), trace).shared.history;
      var s, t := OrEmpty(HeldBefore(first, history, j)), OrEmpty(HeldBefore(first, history, k));
      && s.generation <= t.generation <= MAX_SAFE_INTEGER
      && (s.generation == t.generation ==> SameStructure(s, t))
      && Valid(t)
  {
    hide Delta;
    NoLostUpdate(Delta, first, trace);
    var w := Run(Delta, Initial(first), trace);
    forall found, op | Valid(OrEmpty(found)) && Delta(found, op).Ok?
      ensures Valid(Delta(found, op).value) && GenerationStep(OrEmpty(found), Delta(found, op).value)
    {
      DeltaStep(found, op);
    }
    HistoryRelation(Delta, Valid, (s: AppState, t: AppState) => s.generation <= MAX_SAFE_INTEGER ==> GenerationStep(s, t),
                    first, w.shared.history, w.shared.store, j, k);
  }

  /** An update's save touches its own row, its provider's nodes and the generation, even when
      other writers changed the rest of the state while it was downloading. */
  lemma {:induction false} UpdateSavesOnlyItsOwn(first: Option<AppState>, trace: seq<(nat, Action)>, i: nat)
    requires i < |Run(Delta, Initial(first), trace).shared.history|
    requires Run(Delta, Initial(first), trace).shared.history[i].op.Update?
    ensures var history := Run(Delta, Initial(first), trace).shared.history;
      var held := HeldBefore(first, history, i);
      && held.Some?
      && OnlyOwnRow(held.value, history[i].after, history[i].op.snapshot.subscriptionId, history[i].op.snapshot.providerId)
  {
    NoLostUpdate(Delta, first, trace);
    var save := Run(Delta, Initial(first), trace).shared.history[i];
    UpdateTouchesOnlyItsOwn(save.before.value, save.op.snapshot, save.op.fetched, save.op.now);
  }

  // ---- what a guard holder can rely on -------------------------------------------------------------

  lemma RouteSaveKeepsRows(found: Option<AppState>, op: Op)
    requires op.Route? && Delta(found, op).Ok?
    ensures SameRows(OrEmpty(found), Delta(found, op).value)
  {
    hide RouteDelta;
    assert Delta(found, op) == RouteDelta(OrEmpty(found), op.mutation);
    RouteKeepsRows(OrEmpty(found), op.mutation);
  }

  lemma SaveAt(first: Option<AppState>, history: seq<Save>, store: Option<AppState>, i: nat)
    requires Sequential(Delta, first, history, store) && i < |history|
    ensures Delta(history[i].before, history[i].op) == Ok(history[i].after)
    ensures history[i].before == HeldBefore(first, history, i)
    ensures HeldBefore(first, history, i + 1) == Some(history[i].after)
  {
    hide Delta;
  }

  /** Routing saves in a row leave subscriptions and nodes alone. */
  lemma {:induction false} RoutingKeepsRows(first: Option<AppState>, history: seq<Save>, store: Option<AppState>, j: nat, k: nat)
    requires Sequential(Delta, first, history, store) && j <= k <= |history|
    requires forall i :: j <= i < k ==> history[i].op.Route?
    ensures SameRows(OrEmpty(HeldBefore(first, history, j)), OrEmpty(HeldBefore(first, history, k)))
    decreases k
  {
    hide Delta, Sequential;
    if j < k {
      RoutingKeepsRows(first, history, store, j, k - 1);
      SaveAt(first, history, store, k - 1);
      RouteSaveKeepsRows(history[k - 1].before, history[k - 1].op);
    }
  }

  /** Whatever the other writers do while thread t holds the write guard, the register keeps its
      subscriptions and nodes. */
  lemma {:induction false} GuardHolderKeepsRows(first: Option<AppState>, before: seq<(nat, Action)>, after: seq<(nat, Action)>, t: nat)
    requires var w := Run(Delta, Initial(first), before); t in w.threads && HoldsGuard(w.threads[t])
    requires forall i :: 0 <= i < |after| ==> after[i].0 != t
    ensures var w := Run(Delta, Initial(first), before);
      SameRows(OrEmpty(w.shared.store), OrEmpty(Run(Delta, w, after).shared.store))
  {
    hide Delta, HoldsGuard;
    RunKeepsInv(Delta, first, Initial(first), before);
    var w := Run(Delta, Initial(first), before);
    GuardHolderFrom(first, w, after, t);
  }

  lemma {:induction false} GuardHolderFrom(first: Option<AppState>, w: World, after: seq<(nat, Action)>, t: nat)
    requires Inv(Delta, first, w) && t in w.threads && HoldsGuard(w.threads[t])
    requires forall i :: 0 <= i < |after| ==> after[i].0 != t
    ensures SameRows(OrEmpty(w.shared.store), OrEmpty(Run(Delta, w, after).shared.store))
  {
    hide Delta, HoldsGuard, FlagInv, GateInv, ThreadSound, Run, SameRows;
    RunKeepsInv(Delta, first, w, after);
    GuardShutsOthersOut(Delta, first, w, after, t);
    var v := Run(Delta, w, after);
    var n := |w.shared.history|;
    SamePrefixSameStore(first, w, v);
    RoutingKeepsRows(first, v.shared.history, v.shared.store, n, |v.shared.history|);
  }

  lemma SamePrefixSameStore(first: Option<AppState>, w: World, v: World)
    requires Sequential(Delta, first, w.shared.history, w.shared.store)
    requires |w.shared.history| <= |v.shared.history| && v.shared.history[..|w.shared.history|] == w.shared.history
    ensures w.shared.store == HeldBefore(first, v.shared.history, |w.shared.history|)
  {
    hide Delta;
    var n := |w.shared.history|;
    if n > 0 { assert v.shared.history[..n][n - 1] == w.shared.history[n - 1]; }
  }

  // ---- route priorities ----------------------------------------------------------------------------

  lemma RoutesStep(found: Option<AppState>, op: Op)
    requires Delta(found, op).Ok? && ListPriorities(OrEmpty(found).routes)
    ensures ListPriorities(Delta(found, op).value.routes)
  {
    hide Valid, Mutated, UpdateCandidate, EditDelta, DocumentDelta, ReplaceNodes;
    var s := OrEmpty(found);
    match op {
      case Route(m) =>
        assert Delta(found, op) == RouteDelta(s, m);
        if Mutated(s, m).value != s { MutationKeepsListPriorities(s, m); }
      case Update(snapshot, fetched, now) => UpdateTouchesOnlyItsOwn(s, snapshot, fetched, now);
      case Import(input, _) => RoutesOfImport(s, input);
      case FailedAttempt(snapshot, at) => assert Delta(found, op) == AttemptDelta(s, snapshot, at);
      case Edit(edit, download) => RoutesOfEdit(s, edit, download);
      case Delete(id, stopped) => assert Delta(found, op) == DeleteDelta(s, id, stopped);
      case SaveDocument(document) => RoutesOfDocument(s, document);
      case Activate(id) => assert Delta(found, op) == ActivateDelta(s, id);
    }
  }

  lemma RoutesOfImport(s: AppState, input: ImportInput)
    requires ImportDelta(s, input).Ok?
    ensures ImportDelta(s, input).value.routes == s.routes
  {
    hide Valid;
  }

  lemma RoutesOfEdit(s: AppState, edit: EditInput, download: Option<Download>)
    requires EditDelta(s, edit, download).Ok?
    ensures EditDelta(s, edit, download).value.routes == s.routes
  {
    hide Valid;
  }

  lemma RoutesOfDocument(s: AppState, input: DocumentInput)
    requires DocumentDelta(s, input).Ok?
    ensures DocumentDelta(s, input).value.routes == s.routes
  {
    hide Valid, ProvidersOf;
  }

  /** Starting from no stored state, whatever the writers do: route i has priority i in every
      persisted state, and the projection compiles the enabled routes in list order. */
  lemma {:induction false} PrioritiesAreListPositions(trace: seq<(nat, Action)>, k: nat)
    requires k <= |Run(Delta, Initial(None), trace).shared.history|
    ensures var s := OrEmpty(HeldBefore(None, Run(Delta, Initial(None), trace).shared.history, k));
      && ListPriorities(s.routes)
      && (Projection.Project(s).Ok? ==> Projection.Project(s).value.routes == Projection.EnabledRoutes(s))
  {
    NoLostUpdate(Delta, None, trace);
    var w := Run(Delta, Initial(None), trace);
    forall found, op | ListPriorities(OrEmpty(found).routes) && Delta(found, op).Ok?
      ensures ListPriorities(Delta(found, op).value.routes)
    {
      RoutesStep(found, op);
    }
    HistoryRelation(Delta, (s: AppState) => ListPriorities(s.routes), (s: AppState, t: AppState) => true,
                    None, w.shared.history, w.shared.store, k, k);
    ProjectedRoutesAreInListOrder(OrEmpty(HeldBefore(None, w.shared.history, k)));
  }
}
