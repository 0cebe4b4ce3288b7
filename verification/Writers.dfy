/** Any number of writers over one register, behind a try-lock gate and a single-writer flag, with
    the shutdown barrier (src-tauri/src/application/state_access.rs, subscription_management.rs:
    begin_write_owned, request_closing, shutdown_quiescent, ensure_commit_open, the write guard's
    drop). Atomics are sequentially consistent; every interleaving of single steps is a run. */
module Writers {
  import opened Common
  import opened Domain
  import opened Edits
  import opened Routing

  /** The operations that save. Routing mutations are the only ones without the write guard. */
  datatype Op =
    | Import(input: ImportInput, expectedEmpty: Option<bool>)
    | Update(snapshot: UpdateSnapshot, fetched: Fetched, now: nat)
    | FailedAttempt(snapshot: UpdateSnapshot, attemptedAt: nat)
    | Edit(edit: EditInput, download: Option<Download>)
    | Delete(id: Id, activeRuntimeStopped: bool)
    | SaveDocument(document: DocumentInput)
    | Activate(id: Id)
    | Route(mutation: Mutation)

  /** What an operation saves when it finds `found` in the register. The protocol below does not
      depend on it, so its results are stated for every such function. */
  type DeltaFn = (Option<AppState>, Op) -> Result<AppState, OpError>

  /** These do not write a candidate equal to what they found. */
  predicate SkipsUnchanged(op: Op) { op.SaveDocument? || op.Activate? || op.Route? }

  /** Only routing reads a missing file as the empty state. */
  predicate Unchanged(op: Op, found: Option<AppState>, candidate: AppState) {
    SkipsUnchanged(op) && (found == Some(candidate) || (op.Route? && OrEmpty(found) == candidate))
  }

  /** What a writer carries into the gate. A fresh plan computes its candidate from what it loads;
      a frozen one computed it earlier from a baseline and insists on finding that baseline. */
  datatype Plan =
    | Fresh(op: Op)
    | Frozen(op: Op, baseline: AppState, candidate: AppState)

  datatype Thread =
    | Starting(guarded: bool)
    | SawOpen                                   // is_closing was false
    | Flagged                                   // compare_exchange won, closing not yet re-checked
    | Working(guarded: bool)                    // holds the write guard if guarded
    | Reading(guarded: bool)                    // holds the gate for the first read
    | Planned(guarded: bool, plan: Plan)
    | Entered(guarded: bool, plan: Plan)                              // holds the gate
    | Loaded(guarded: bool, plan: Plan, found: Option<AppState>)         // holds the gate
    | Cleared(guarded: bool, plan: Plan, found: Option<AppState>, candidate: AppState)  // holds the gate
    | Leaving(guarded: bool)                    // holds the gate
    | Finishing(guarded: bool)                  // gate released, guard still held if guarded
    | Done
    | BarrierStart
    | BarrierPoll
    | BarrierFlagClear
    | BarrierGated                              // holds the gate
    | BarrierChecked(complete: bool)            // holds the gate
    | BarrierReturned(quiescent: bool)

  datatype Save = Save(op: Op, before: Option<AppState>, after: AppState)

  /** Everything the threads share: the register, the gate's holder, write_in_progress, closing,
      and the saves so far. */
  datatype Shared = Shared(
    store: Option<AppState>, gate: Option<nat>, flag: bool, closing: bool, history: seq<Save>)

  datatype World = World(shared: Shared, threads: map<nat, Thread>)

  /** One atomic step. `Go` is the thread's next program step; `Try` is a try_lock; `Prepare`
      ends the computation between the two critical sections with the given plan; `Store` is the
      save with its outcome; `GiveUp` is any failure outside the model. */
  datatype Action =
    | Spawn(guarded: bool)
    | SpawnBarrier
    | RequestClosing
    | Go
    | Try
    | Prepare(plan: Plan)
    | Store(works: bool)
    | GiveUp

  predicate PlanSound(delta: DeltaFn, plan: Plan) {
    plan.Frozen? ==> delta(Some(plan.baseline), plan.op) == Ok(plan.candidate)
  }

  /** The candidate computed inside the gate; None when the operation refuses. */
  function Candidate(delta: DeltaFn, plan: Plan, found: Option<AppState>): Option<AppState> {
    match plan
    case Fresh(op) =>
      var r := delta(found, op);
      if r.Ok? then Some(r.value) else None
    case Frozen(_, baseline, candidate) => if found == Some(baseline) then Some(candidate) else None
  }

  datatype Move = Move(shared: Shared, thread: Thread)

  /** What thread t does with an action; an action that is not enabled changes nothing. */
  function Moved(delta: DeltaFn, s: Shared, t: nat, th: Thread, a: Action): Move {
    match th
    case Starting(guarded) =>
      if !a.Go? then Move(s, th)
      else Move(s, if !guarded then Working(false) else if s.closing then Done else SawOpen)
    case SawOpen =>
      if !a.Go? then Move(s, th) else if s.flag then Move(s, Done) else Move(s.(flag := true), Flagged)
    case Flagged =>
      if !a.Go? then Move(s, th)
      else if s.closing then Move(s.(flag := false), Done) else Move(s, Working(true))
    case Working(guarded) =>
      if a.Try? then
        if s.gate.None? then Move(s.(gate := Some(t)), Reading(guarded)) else Move(s, Finishing(guarded))
      else if a.Prepare? && a.plan.Fresh? && guarded == !a.plan.op.Route? then Move(s, Planned(guarded, a.plan))
      else if a.GiveUp? then Move(s, Finishing(guarded))
      else Move(s, th)
    case Reading(guarded) =>
      if a.Prepare? && PlanSound(delta, a.plan) && guarded == !a.plan.op.Route?
         && (a.plan.Frozen? ==> s.store == Some(a.plan.baseline))
      then Move(s.(gate := None), Planned(guarded, a.plan))
      else if a.GiveUp? then Move(s, Leaving(guarded))
      else Move(s, th)
    case Planned(guarded, plan) =>
      if a.Try? then
        if s.gate.None? then Move(s.(gate := Some(t)), Entered(guarded, plan)) else Move(s, Finishing(guarded))
      else if a.GiveUp? then Move(s, Finishing(guarded))
      else Move(s, th)
    case Entered(guarded, plan) => if a.Go? then Move(s, Loaded(guarded, plan, s.store)) else Move(s, th)
    case Loaded(guarded, plan, found) =>
      var candidate := Candidate(delta, plan, found);
      if a.GiveUp? then Move(s, Leaving(guarded))
      else if !a.Go? then Move(s, th)
      else if candidate.None? || (guarded && !plan.op.Activate? && s.closing) then Move(s, Leaving(guarded))
      else Move(s, Cleared(guarded, plan, found, candidate.value))
    case Cleared(guarded, plan, found, candidate) =>
      if !a.Store? then Move(s, th)
      else if !a.works || Unchanged(plan.op, found, candidate) then Move(s, Leaving(guarded))
      else Move(s.(store := Some(candidate), history := s.history + [Save(plan.op, s.store, candidate)]), Leaving(guarded))
    case Leaving(guarded) => if a.Go? then Move(s.(gate := None), Finishing(guarded)) else Move(s, th)
    case Finishing(guarded) => if a.Go? then Move(if guarded then s.(flag := false) else s, Done) else Move(s, th)
    case Done => Move(s, th)
    case BarrierStart => if a.Go? then Move(s.(closing := true), BarrierPoll) else Move(s, th)
    case BarrierPoll =>
      if a.GiveUp? then Move(s, BarrierReturned(false))
      else if a.Go? && !s.flag then Move(s, BarrierFlagClear)
      else Move(s, th)
    case BarrierFlagClear =>
      if !a.Try? then Move(s, th)
      else if s.gate.None? then Move(s.(gate := Some(t)), BarrierGated) else Move(s, BarrierPoll)
    case BarrierGated => if a.Go? then Move(s, BarrierChecked(!s.flag)) else Move(s, th)
    case BarrierChecked(complete) =>
      if a.Go? then Move(s.(gate := None), if complete then BarrierReturned(true) else BarrierPoll) else Move(s, th)
    case BarrierReturned(_) => Move(s, th)
  }

  function Next(delta: DeltaFn, w: World, t: nat, a: Action): World {
    if a.RequestClosing? then w.(shared := w.shared.(closing := true))
    else if t in w.threads then
      var m := Moved(delta, w.shared, t, w.threads[t], a);
      World(m.shared, w.threads[t := m.thread])
    else if a.Spawn? then w.(threads := w.threads[t := Starting(a.guarded)])
    else if a.SpawnBarrier? then w.(threads := w.threads[t := BarrierStart])
    else w
  }

  function Run(delta: DeltaFn, w: World, trace: seq<(nat, Action)>): World
    decreases |trace|
  {
    if trace == [] then w else Run(delta, Next(delta, w, trace[0].0, trace[0].1), trace[1..])
  }

  function Initial(store: Option<AppState>): World {
    World(Shared(store, None, false, false, []), map[])
  }

  // ---- what every step keeps ----------------------------------------------------------------------

  /** The thread owns a SubscriptionWriteGuard value. */
  predicate HoldsGuard(th: Thread) {
    match th
    case Working(g) => g
    case Reading(g) => g
    case Planned(g, _) => g
    case Entered(g, _) => g
    case Loaded(g, _, _) => g
    case Cleared(g, _, _, _) => g
    case Leaving(g) => g
    case Finishing(g) => g
    case _ => false
  }

  /** The thread is the one that set write_in_progress. */
  predicate OwnsFlag(th: Thread) {
    th.Flagged? || HoldsGuard(th)
  }

  predicate InGate(th: Thread) {
    th.Reading? || th.Entered? || th.Loaded? || th.Cleared? || th.Leaving? || th.BarrierGated? || th.BarrierChecked?
  }

  /** write_in_progress is set exactly while some thread has set it and not released it, and that is
      one thread. */
  ghost predicate FlagInv(w: World) {
    && (w.shared.flag ==> exists t :: t in w.threads && OwnsFlag(w.threads[t]))
    && (forall t :: t in w.threads && OwnsFlag(w.threads[t]) ==> w.shared.flag)
    && (forall t, u :: t in w.threads && u in w.threads && OwnsFlag(w.threads[t]) && OwnsFlag(w.threads[u]) ==> t == u)
  }

  ghost predicate GateInv(w: World) {
    && (forall t :: t in w.threads ==> (InGate(w.threads[t]) <==> w.shared.gate == Some(t)))
    && (w.shared.gate.Some? ==> w.shared.gate.value in w.threads)
  }

  /** What a thread carries is sound, what it loaded is still what the register holds, and guarded
      threads run exactly the guarded operations. */
  predicate ThreadSound(delta: DeltaFn, s: Shared, th: Thread) {
    && (th.Planned? || th.Entered? || th.Loaded? || th.Cleared? ==>
          PlanSound(delta, th.plan) && th.guarded == !th.plan.op.Route?)
    && (th.Loaded? || th.Cleared? ==> th.found == s.store)
    && (th.Cleared? ==> Candidate(delta, th.plan, th.found) == Some(th.candidate))
    && (th.BarrierPoll? || th.BarrierFlagClear? || th.BarrierGated? || th.BarrierChecked? || th.BarrierReturned? ==>
          s.closing)
  }

  /** The thread is a barrier that has seen the flag clear under the gate. */
  predicate SawQuiescence(th: Thread) {
    th == BarrierChecked(true) || th == BarrierReturned(true)
  }

  /** Closing is set and no write guard exists: no later check can produce one. */
  ghost predicate Sealed(w: World) {
    w.shared.closing && forall t :: t in w.threads ==> !HoldsGuard(w.threads[t])
  }

  /** Each save starts from what the previous one left, and writes the delta of its operation at
      the state it replaces. */
  ghost predicate Sequential(delta: DeltaFn, first: Option<AppState>, history: seq<Save>, store: Option<AppState>) {
    && (forall i :: 0 <= i < |history| ==> delta(history[i].before, history[i].op) == Ok(history[i].after))
    && (forall i :: 0 <= i < |history| ==> history[i].before == HeldBefore(first, history, i))
    && store == HeldBefore(first, history, |history|)
  }

  /** The register's content before save i. */
  function HeldBefore(first: Option<AppState>, history: seq<Save>, i: nat): Option<AppState>
    requires i <= |history|
  {
    if i == 0 then first else Some(history[i - 1].after)
  }

  ghost predicate Inv(delta: DeltaFn, first: Option<AppState>, w: World) {
    && FlagInv(w)
    && GateInv(w)
    && (forall t :: t in w.threads ==> ThreadSound(delta, w.shared, w.threads[t]))
    && ((exists t :: t in w.threads && SawQuiescence(w.threads[t])) ==> Sealed(w))
    && Sequential(delta, first, w.shared.history, w.shared.store)
  }

  lemma MoveFlag(delta: DeltaFn, s: Shared, t: nat, th: Thread, a: Action)
    requires OwnsFlag(th) ==> s.flag
    ensures var m := Moved(delta, s, t, th, a);
      && (OwnsFlag(m.thread) ==> m.shared.flag && (OwnsFlag(th) || !s.flag))
      && (s.flag && !m.shared.flag ==> OwnsFlag(th))
      && (!s.flag && m.shared.flag ==> OwnsFlag(m.thread))
      && (OwnsFlag(th) && !OwnsFlag(m.thread) ==> !m.shared.flag)
  {
  }

  lemma MoveGate(delta: DeltaFn, s: Shared, t: nat, th: Thread, a: Action)
    requires InGate(th) <==> s.gate == Some(t)
    ensures var m := Moved(delta, s, t, th, a);
      && (InGate(m.thread) <==> m.shared.gate == Some(t))
      && (m.shared.gate != s.gate ==>
            (m.shared.gate == Some(t) && s.gate == None) || (m.shared.gate == None && s.gate == Some(t)))
  {
  }

  lemma MoveSound(delta: DeltaFn, s: Shared, t: nat, th: Thread, a: Action)
    requires ThreadSound(delta, s, th)
    ensures var m := Moved(delta, s, t, th, a);
      && ThreadSound(delta, m.shared, m.thread)
      && (s.closing ==> m.shared.closing && (HoldsGuard(m.thread) ==> HoldsGuard(th)))
      && (SawQuiescence(m.thread) && !SawQuiescence(th) ==> s.closing && !s.flag)
      && (m.shared.history == s.history ==> m.shared.store == s.store)
      && (m.shared.history != s.history ==> InGate(th))
  {
  }

  /** The only step that writes the register saves the delta at what the register holds. */
  lemma MoveSaves(delta: DeltaFn, s: Shared, t: nat, th: Thread, a: Action)
    requires ThreadSound(delta, s, th)
    ensures var m := Moved(delta, s, t, th, a);
      m.shared.history != s.history ==>
        var save := m.shared.history[|s.history|];
        && m.shared.history == s.history + [save]
        && save.before == s.store && m.shared.store == Some(save.after)
        && delta(save.before, save.op) == Ok(save.after)
        && HoldsGuard(th) == !save.op.Route?
  {
  }

  lemma FlagStep(delta: DeltaFn, w: World, t: nat, a: Action)
    requires FlagInv(w)
    ensures FlagInv(Next(delta, w, t, a))
  {
    hide Moved, Candidate;
    var v := Next(delta, w, t, a);
    if t in w.threads && !a.RequestClosing? { MoveFlag(delta, w.shared, t, w.threads[t], a); }
    if v.shared.flag {
      if w.shared.flag {
        var owner :| owner in w.threads && OwnsFlag(w.threads[owner]);
        assert owner in v.threads && OwnsFlag(v.threads[owner]);
      } else {
        assert t in v.threads && OwnsFlag(v.threads[t]);
      }
    }
  }

  lemma GateStep(delta: DeltaFn, w: World, t: nat, a: Action)
    requires GateInv(w)
    ensures GateInv(Next(delta, w, t, a))
  {
    hide Moved, Candidate;
    if t in w.threads && !a.RequestClosing? { MoveGate(delta, w.shared, t, w.threads[t], a); }
  }

  lemma SoundStep(delta: DeltaFn, first: Option<AppState>, w: World, t: nat, a: Action)
    requires Inv(delta, first, w)
    ensures var v := Next(delta, w, t, a);
      forall u :: u in v.threads ==> ThreadSound(delta, v.shared, v.threads[u])
  {
    hide Moved, Candidate;
    var v := Next(delta, w, t, a);
    if t in w.threads && !a.RequestClosing? {
      MoveSound(delta, w.shared, t, w.threads[t], a);
      forall u | u in v.threads && u != t ensures ThreadSound(delta, v.shared, v.threads[u]) {
        assert ThreadSound(delta, w.shared, w.threads[u]);
        assert InGate(w.threads[t]) ==> !InGate(w.threads[u]);
      }
    }
  }

  lemma SealedStep(delta: DeltaFn, first: Option<AppState>, w: World, t: nat, a: Action)
    requires Inv(delta, first, w)
    ensures Sealed(w) ==> Sealed(Next(delta, w, t, a))
    ensures var v := Next(delta, w, t, a);
      (exists u :: u in v.threads && SawQuiescence(v.threads[u])) ==> Sealed(v)
  {
    hide Moved, Candidate;
    var v := Next(delta, w, t, a);
    if t in w.threads && !a.RequestClosing? {
      MoveSound(delta, w.shared, t, w.threads[t], a);
    }
    if u :| u in v.threads && SawQuiescence(v.threads[u]) {
      if u != t || (t in w.threads && SawQuiescence(w.threads[t])) {
        assert u in w.threads && SawQuiescence(w.threads[u]);
      }
    }
  }

  lemma SequentialAppend(delta: DeltaFn, first: Option<AppState>, history: seq<Save>, store: Option<AppState>, save: Save)
    requires Sequential(delta, first, history, store)
    requires save.before == store && delta(save.before, save.op) == Ok(save.after)
    ensures Sequential(delta, first, history + [save], Some(save.after))
  {
    var longer := history + [save];
    forall i | 0 <= i <= |history| ensures HeldBefore(first, longer, i) == HeldBefore(first, history, i) {
      if i > 0 { assert longer[i - 1] == history[i - 1]; }
    }
    forall i | 0 <= i < |longer|
      ensures delta(longer[i].before, longer[i].op) == Ok(longer[i].after)
      ensures longer[i].before == HeldBefore(first, longer, i)
    {
      if i < |history| { assert longer[i] == history[i]; } else { assert longer[i] == save; }
    }
  }

  lemma HistoryStep(delta: DeltaFn, first: Option<AppState>, w: World, t: nat, a: Action)
    requires Inv(delta, first, w)
    ensures var v := Next(delta, w, t, a);
      && Sequential(delta, first, v.shared.history, v.shared.store)
      && (v.shared.history == w.shared.history || AddsOneSave(w, v, t))
  {
    hide Moved, Candidate, Sequential, ThreadSound, FlagInv, GateInv, HoldsGuard;
    if t in w.threads && !a.RequestClosing? {
      var th := w.threads[t];
      assert ThreadSound(delta, w.shared, th);
      var m := Moved(delta, w.shared, t, th, a);
      if m.shared.history != w.shared.history {
        MoveSaves(delta, w.shared, t, th, a);
        SequentialAppend(delta, first, w.shared.history, w.shared.store, m.shared.history[|w.shared.history|]);
      } else {
        MoveSound(delta, w.shared, t, th, a);
      }
    }
  }

  /** Thread t appended one save, as a guard holder unless the operation is a routing mutation. */
  predicate AddsOneSave(w: World, v: World, t: nat) {
    && |v.shared.history| == |w.shared.history| + 1
    && v.shared.history[..|w.shared.history|] == w.shared.history
    && t in w.threads
    && HoldsGuard(w.threads[t]) == !v.shared.history[|w.shared.history|].op.Route?
  }

  lemma StepKeepsInv(delta: DeltaFn, first: Option<AppState>, w: World, t: nat, a: Action)
    requires Inv(delta, first, w)
    ensures Inv(delta, first, Next(delta, w, t, a))
  {
    hide Moved, Candidate, Next;
    FlagStep(delta, w, t, a);
    GateStep(delta, w, t, a);
    SoundStep(delta, first, w, t, a);
    SealedStep(delta, first, w, t, a);
    HistoryStep(delta, first, w, t, a);
  }

  lemma {:induction false} RunKeepsInv(delta: DeltaFn, first: Option<AppState>, w: World, trace: seq<(nat, Action)>)
    requires Inv(delta, first, w)
    ensures Inv(delta, first, Run(delta, w, trace))
    decreases |trace|
  {
    hide Moved, Candidate, Next, Inv;
    if trace != [] {
      StepKeepsInv(delta, first, w, trace[0].0, trace[0].1);
      RunKeepsInv(delta, first, Next(delta, w, trace[0].0, trace[0].1), trace[1..]);
    }
  }

  // ---- results over whole runs ----------------------------------------------------------------------

  /** No lost update: in every interleaving the persisted states form a sequential composition of
      operation deltas, each applied to the state held at that save. */
  lemma {:induction false} NoLostUpdate(delta: DeltaFn, first: Option<AppState>, trace: seq<(nat, Action)>)
    ensures var w := Run(delta, Initial(first), trace);
      Sequential(delta, first, w.shared.history, w.shared.store)
  {
    RunKeepsInv(delta, first, Initial(first), trace);
  }

  /** At most one write guard exists, whatever the interleaving of check, compare-exchange and
      re-check with closing and with the barrier. */
  lemma {:induction false} AtMostOneGuard(delta: DeltaFn, first: Option<AppState>, trace: seq<(nat, Action)>, t: nat, u: nat)
    ensures var w := Run(delta, Initial(first), trace);
      t in w.threads && u in w.threads && HoldsGuard(w.threads[t]) && HoldsGuard(w.threads[u]) ==> t == u
  {
    RunKeepsInv(delta, first, Initial(first), trace);
  }

  /** Over every run the flag says exactly that some thread has set it and not released it. */
  lemma {:induction false} FlagMeansOwner(delta: DeltaFn, first: Option<AppState>, trace: seq<(nat, Action)>)
    ensures var w := Run(delta, Initial(first), trace);
      w.shared.flag <==> exists t :: t in w.threads && OwnsFlag(w.threads[t])
  {
    RunKeepsInv(delta, first, Initial(first), trace);
  }

  ghost predicate BarrierPassed(w: World) {
    exists t :: t in w.threads && w.threads[t] == BarrierReturned(true)
  }

  /** v's saves extend w's by routing mutations only. */
  predicate OnlyRoutingSince(w: World, v: World) {
    && |v.shared.history| >= |w.shared.history|
    && v.shared.history[..|w.shared.history|] == w.shared.history
    && forall i | |w.shared.history| <= i < |v.shared.history| :: v.shared.history[i].op.Route?
  }

  lemma SealedSave(w: World, v: World, t: nat)
    requires Sealed(w)
    requires v.shared.history == w.shared.history || AddsOneSave(w, v, t)
    ensures OnlyRoutingSince(w, v)
  {
    assert w.shared.history[..|w.shared.history|] == w.shared.history;
  }

  lemma {:induction false} SealedRun(delta: DeltaFn, first: Option<AppState>, w: World, trace: seq<(nat, Action)>)
    requires Inv(delta, first, w) && Sealed(w)
    ensures OnlyRoutingSince(w, Run(delta, w, trace))
    decreases |trace|
  {
    hide Moved, Candidate, Next, Inv;
    if trace != [] {
      var (t, a) := trace[0];
      var mid := Next(delta, w, t, a);
      StepKeepsInv(delta, first, w, t, a);
      SealedStep(delta, first, w, t, a);
      HistoryStep(delta, first, w, t, a);
      SealedSave(w, mid, t);
      SealedRun(delta, first, mid, trace[1..]);
      OnlyRoutingTrans(w, mid, Run(delta, mid, trace[1..]));
    }
  }

  lemma OnlyRoutingTrans(u: World, v: World, w: World)
    requires OnlyRoutingSince(u, v) && OnlyRoutingSince(v, w)
    ensures OnlyRoutingSince(u, w)
  {
    var n := |u.shared.history|;
    assert w.shared.history[..n] == w.shared.history[..|v.shared.history|][..n];
    forall i | n <= i < |w.shared.history| ensures w.shared.history[i].op.Route? {
      if i < |v.shared.history| {
        assert w.shared.history[i] == w.shared.history[..|v.shared.history|][i];
      }
    }
  }

  /** Once shutdown_quiescent has returned true, no guarded operation commits again: every later
      save is a routing mutation. */
  lemma {:induction false} NoGuardedCommitAfterBarrier(
      delta: DeltaFn, first: Option<AppState>, before: seq<(nat, Action)>, after: seq<(nat, Action)>)
    requires BarrierPassed(Run(delta, Initial(first), before))
    ensures var w := Run(delta, Initial(first), before);
      OnlyRoutingSince(w, Run(delta, w, after))
  {
    RunKeepsInv(delta, first, Initial(first), before);
    var w := Run(delta, Initial(first), before);
    var t :| t in w.threads && w.threads[t] == BarrierReturned(true);
    assert SawQuiescence(w.threads[t]);
    SealedRun(delta, first, w, after);
  }

  /** While thread t holds the write guard and does not move, the other threads save routing
      mutations only. */
  lemma {:induction false} GuardShutsOthersOut(
      delta: DeltaFn, first: Option<AppState>, w: World, trace: seq<(nat, Action)>, t: nat)
    requires Inv(delta, first, w) && t in w.threads && HoldsGuard(w.threads[t])
    requires forall i :: 0 <= i < |trace| ==> trace[i].0 != t
    ensures OnlyRoutingSince(w, Run(delta, w, trace))
    decreases |trace|
  {
    hide Moved, Candidate, Inv, HoldsGuard, Next, OnlyRoutingSince;
    if trace == [] {
      NothingSince(w);
    } else {
      var (u, a) := trace[0];
      var mid := Next(delta, w, u, a);
      StepKeepsInv(delta, first, w, u, a);
      OtherStepRoutes(delta, first, w, t, u, a);
      GuardShutsOthersOut(delta, first, mid, trace[1..], t);
      OnlyRoutingTrans(w, mid, Run(delta, mid, trace[1..]));
    }
  }

  lemma NothingSince(w: World)
    ensures OnlyRoutingSince(w, w)
  {
    SameHistory(w, w);
  }

  lemma OtherStepRoutes(delta: DeltaFn, first: Option<AppState>, w: World, t: nat, u: nat, a: Action)
    requires Inv(delta, first, w) && t in w.threads && HoldsGuard(w.threads[t]) && u != t
    ensures var v := Next(delta, w, u, a);
      OnlyRoutingSince(w, v) && t in v.threads && v.threads[t] == w.threads[t]
  {
    hide Moved, Candidate, Inv, HoldsGuard, Next, Sequential, OnlyRoutingSince, AddsOneSave;
    HistoryStep(delta, first, w, u, a);
    OtherHoldsNoGuard(delta, first, w, t, u);
    OtherThreadStays(delta, w, t, u, a);
    var v := Next(delta, w, u, a);
    if AddsOneSave(w, v, u) { UnguardedSave(w, v, u); } else { SameHistory(w, v); }
  }

  lemma OtherThreadStays(delta: DeltaFn, w: World, t: nat, u: nat, a: Action)
    requires t in w.threads && u != t
    ensures var v := Next(delta, w, u, a); t in v.threads && v.threads[t] == w.threads[t]
  {
    hide Moved;
  }

  lemma UnguardedSave(w: World, v: World, u: nat)
    requires AddsOneSave(w, v, u) && (u in w.threads ==> !HoldsGuard(w.threads[u]))
    ensures OnlyRoutingSince(w, v)
  {
  }

  lemma SameHistory(w: World, v: World)
    requires v.shared.history == w.shared.history
    ensures OnlyRoutingSince(w, v)
  {
    assert w.shared.history[..|w.shared.history|] == w.shared.history;
  }

  lemma OtherHoldsNoGuard(delta: DeltaFn, first: Option<AppState>, w: World, t: nat, u: nat)
    requires Inv(delta, first, w) && t in w.threads && HoldsGuard(w.threads[t]) && u != t
    ensures u in w.threads ==> !HoldsGuard(w.threads[u])
  {
    hide GateInv, Sequential, ThreadSound, HoldsGuard;
  }

  // ---- closing ------------------------------------------------------------------------------------------

  /** Operations that re-check closing inside the gate before they save. */
  predicate ChecksClosing(op: Op) { !op.Route? && !op.Activate? }

  /** Closing is set and no thread is between that check and its save. */
  ghost predicate Shut(w: World) {
    && w.shared.closing
    && forall t :: t in w.threads ==> !(w.threads[t].Cleared? && ChecksClosing(w.threads[t].plan.op))
  }

  lemma MoveWhileClosing(delta: DeltaFn, s: Shared, t: nat, th: Thread, a: Action)
    requires ThreadSound(delta, s, th) && s.closing
    ensures var m := Moved(delta, s, t, th, a);
      && m.shared.closing
      && (m.thread.Cleared? && ChecksClosing(m.thread.plan.op) ==> th.Cleared? && ChecksClosing(th.plan.op))
      && (m.shared.history != s.history ==>
            th.Cleared? && m.shared.history == s.history + [Save(th.plan.op, s.store, th.candidate)])
  {
  }

  /** v's saves extend w's by operations that do not check closing. */
  predicate OnlyUncheckedSince(w: World, v: World) {
    && |v.shared.history| >= |w.shared.history|
    && v.shared.history[..|w.shared.history|] == w.shared.history
    && forall i | |w.shared.history| <= i < |v.shared.history| :: !ChecksClosing(v.shared.history[i].op)
  }

  lemma ShutStep(delta: DeltaFn, first: Option<AppState>, w: World, t: nat, a: Action)
    requires Inv(delta, first, w) && Shut(w)
    ensures Shut(Next(delta, w, t, a)) && OnlyUncheckedSince(w, Next(delta, w, t, a))
  {
    hide Moved, Candidate, Sequential, FlagInv, GateInv;
    assert w.shared.history[..|w.shared.history|] == w.shared.history;
    if t in w.threads && !a.RequestClosing? {
      assert ThreadSound(delta, w.shared, w.threads[t]);
      MoveWhileClosing(delta, w.shared, t, w.threads[t], a);
    }
  }

  lemma OnlyUncheckedTrans(u: World, v: World, w: World)
    requires OnlyUncheckedSince(u, v) && OnlyUncheckedSince(v, w)
    ensures OnlyUncheckedSince(u, w)
  {
    var n := |u.shared.history|;
    assert w.shared.history[..n] == w.shared.history[..|v.shared.history|][..n];
    forall i | n <= i < |w.shared.history| ensures !ChecksClosing(w.shared.history[i].op) {
      if i < |v.shared.history| {
        assert w.shared.history[i] == w.shared.history[..|v.shared.history|][i];
      }
    }
  }

  lemma {:induction false} ShutRun(delta: DeltaFn, first: Option<AppState>, w: World, trace: seq<(nat, Action)>)
    requires Inv(delta, first, w) && Shut(w)
    ensures OnlyUncheckedSince(w, Run(delta, w, trace))
    decreases |trace|
  {
    hide Moved, Candidate, Next, Inv, Shut;
    if trace == [] {
      assert w.shared.history[..|w.shared.history|] == w.shared.history;
    } else {
      var (t, a) := trace[0];
      var mid := Next(delta, w, t, a);
      StepKeepsInv(delta, first, w, t, a);
      ShutStep(delta, first, w, t, a);
      ShutRun(delta, first, mid, trace[1..]);
      OnlyUncheckedTrans(w, mid, Run(delta, mid, trace[1..]));
    }
  }

  /** Closing stops commits even before the barrier: from the moment closing is set and nobody is
      between its last check and its save, only activations and routing mutations are saved. */
  lemma {:induction false} ClosingStopsCommits(
      delta: DeltaFn, first: Option<AppState>, before: seq<(nat, Action)>, after: seq<(nat, Action)>)
    requires Shut(Run(delta, Initial(first), before))
    ensures var w := Run(delta, Initial(first), before);
      OnlyUncheckedSince(w, Run(delta, w, after))
  {
    RunKeepsInv(delta, first, Initial(first), before);
    ShutRun(delta, first, Run(delta, Initial(first), before), after);
  }
}
