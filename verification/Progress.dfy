/** What the writers and the barrier of module Writers can still do in every world a run reaches:
    nobody locks anybody out for good (src-tauri/src/application/state_access.rs,
    subscription_management.rs: begin_write_owned, the write guard's drop, shutdown_quiescent). */
module Progress {
  import opened Common
  import opened Domain
  import opened Writers

  type Trace = seq<(nat, Action)>

  lemma {:induction false} RunOn(delta: DeltaFn, w: World, a: Trace, b: Trace)
    ensures Run(delta, w, a + b) == Run(delta, Run(delta, w, a), b)
    decreases |a|
  {
    hide Next;
    if a == [] {
      assert a + b == b;
    } else {
      assert (a + b)[1..] == a[1..] + b;
      RunOn(delta, Next(delta, w, a[0].0, a[0].1), a[1..], b);
    }
  }

  lemma {:induction false} RunFirst(delta: DeltaFn, w: World, t: nat, a: Action, rest: Trace)
    ensures Run(delta, w, [(t, a)] + rest) == Run(delta, Next(delta, w, t, a), rest)
  {
    assert ([(t, a)] + rest)[1..] == rest;
  }

  // ---- a writer that finds nobody in its way ------------------------------------------------------------

  predicate Guarded(plan: Plan) { !plan.op.Route? }

  /** The plan can be made from what is stored and carried out on it. */
  predicate CanSave(delta: DeltaFn, plan: Plan, store: Option<AppState>) {
    && PlanSound(delta, plan) && Candidate(delta, plan, store).Some?
    && (plan.Frozen? ==> store == Some(plan.baseline))
  }

  /** What is shared after the save: one more save, unless the plan changes nothing. */
  function Saved(delta: DeltaFn, plan: Plan, s: Shared): Shared
    requires CanSave(delta, plan, s.store)
  {
    var candidate := Candidate(delta, plan, s.store).value;
    if Unchanged(plan.op, s.store, candidate) then s
    else s.(store := Some(candidate), history := s.history + [Save(plan.op, s.store, candidate)])
  }

  /** A writer somewhere between its start and its save, with gate and flag its own or free. */
  predicate OnTheWay(delta: DeltaFn, s: Shared, t: nat, th: Thread, plan: Plan) {
    && CanSave(delta, plan, s.store) && (Guarded(plan) ==> !s.closing)
    && match th
       case Starting(g) => g == Guarded(plan) && s.gate.None? && (g ==> !s.flag)
       case SawOpen => Guarded(plan) && s.gate.None? && !s.flag
       case Flagged => Guarded(plan) && s.gate.None? && s.flag
       case Working(g) => g == Guarded(plan) && s.gate.None? && (g ==> s.flag)
       case Reading(g) => g == Guarded(plan) && s.gate == Some(t) && (g ==> s.flag)
       case Planned(g, p) => g == Guarded(plan) && p == plan && s.gate.None? && (g ==> s.flag)
       case Entered(g, p) => g == Guarded(plan) && p == plan && s.gate == Some(t) && (g ==> s.flag)
       case Loaded(g, p, found) =>
         g == Guarded(plan) && p == plan && s.gate == Some(t) && (g ==> s.flag) && found == s.store
       case Cleared(g, p, found, candidate) =>
         && g == Guarded(plan) && p == plan && s.gate == Some(t) && (g ==> s.flag)
         && found == s.store && Candidate(delta, plan, found) == Some(candidate)
       case _ => false
  }

  function StepsToSave(th: Thread): nat {
    match th
    case Starting(_) => 9
    case SawOpen => 8
    case Flagged => 7
    case Working(_) => 6
    case Reading(_) => 5
    case Planned(_, _) => 4
    case Entered(_, _) => 3
    case Loaded(_, _, _) => 2
    case Cleared(_, _, _, _) => 1
    case _ => 0
  }

  function NextOnTheWay(th: Thread, plan: Plan): Action {
    match th
    case Working(_) => if plan.Fresh? then Prepare(plan) else Try
    case Reading(_) => Prepare(plan)
    case Planned(_, _) => Try
    case Cleared(_, _, _, _) => Store(true)
    case _ => Go
  }

  lemma OneStepOnTheWay(delta: DeltaFn, s: Shared, t: nat, th: Thread, plan: Plan)
    requires OnTheWay(delta, s, t, th, plan)
    ensures var m := Moved(delta, s, t, th, NextOnTheWay(th, plan));
      if th.Cleared? then m.thread == Leaving(Guarded(plan)) && m.shared == Saved(delta, plan, s)
      else
        && OnTheWay(delta, m.shared, t, m.thread, plan) && StepsToSave(m.thread) < StepsToSave(th)
        && m.shared == s.(gate := m.shared.gate, flag := m.shared.flag)
        && (!Guarded(plan) ==> m.shared.flag == s.flag)
  {
  }

  /** Such a writer, moving alone, saves and leaves gate and flag free. */
  lemma {:induction false} WriterFinishes(delta: DeltaFn, w: World, t: nat, plan: Plan) returns (trace: Trace)
    requires t in w.threads && OnTheWay(delta, w.shared, t, w.threads[t], plan)
    ensures forall i :: 0 <= i < |trace| ==> trace[i].0 == t
    ensures var flag := if Guarded(plan) then false else w.shared.flag;
      Run(delta, w, trace) == World(Saved(delta, plan, w.shared).(gate := None, flag := flag), w.threads[t := Done])
    decreases StepsToSave(w.threads[t])
  {
    hide OnTheWay, Moved, CanSave, Candidate, Unchanged, PlanSound;
    var th := w.threads[t];
    var a := NextOnTheWay(th, plan);
    OneStepOnTheWay(delta, w.shared, t, th, plan);
    OnTheWayCanSave(delta, w.shared, t, th, plan);
    var v := Next(delta, w, t, a);
    var rest: Trace;
    if th.Cleared? {
      rest := [(t, Go), (t, Go)];
      LeaveAndRelease(delta, v, t, Guarded(plan));
    } else {
      OnTheWayCanSave(delta, v.shared, t, v.threads[t], plan);
      rest := WriterFinishes(delta, v, t, plan);
      SavedOnTheSame(delta, plan, w.shared, v.shared);
    }
    RunFirst(delta, w, t, a, rest);
    trace := [(t, a)] + rest;
    assert w.threads[t := v.threads[t]][t := Done] == w.threads[t := Done];
  }

  lemma OnTheWayCanSave(delta: DeltaFn, s: Shared, t: nat, th: Thread, plan: Plan)
    requires OnTheWay(delta, s, t, th, plan)
    ensures CanSave(delta, plan, s.store) && !th.Leaving? && !th.Finishing? && !th.Done?
    ensures StepsToSave(th) > 0
    ensures th.Cleared? ==> s.gate == Some(t) && (Guarded(plan) ==> s.flag)
  {
  }

  lemma SavedOnTheSame(delta: DeltaFn, plan: Plan, a: Shared, b: Shared)
    requires CanSave(delta, plan, a.store) && b == a.(gate := b.gate, flag := b.flag)
    ensures forall gate, flag :: Saved(delta, plan, b).(gate := gate, flag := flag) == Saved(delta, plan, a).(gate := gate, flag := flag)
  {
  }

  lemma {:induction false} LeaveAndRelease(delta: DeltaFn, w: World, t: nat, guarded: bool)
    requires t in w.threads && w.threads[t] == Leaving(guarded)
    ensures Run(delta, w, [(t, Go), (t, Go)])
         == World(w.shared.(gate := None, flag := if guarded then false else w.shared.flag), w.threads[t := Done])
  {
    var v := Next(delta, w, t, Go);
    RunFirst(delta, w, t, Go, [(t, Go)]);
    RunFirst(delta, v, t, Go, []);
    assert [(t, Go)] + [(t, Go)] == [(t, Go), (t, Go)] && [(t, Go)] + [] == [(t, Go)];
    assert v.threads[t := Done] == w.threads[t := Done];
  }

  // ---- a thread that is in the way ---------------------------------------------------------------------

  /** Steps until a thread that gives up holds neither flag nor gate. */
  function StepsToRelease(th: Thread): nat {
    match th
    case Flagged => 3
    case Working(_) => 2
    case Reading(_) => 3
    case Planned(_, _) => 2
    case Entered(_, _) => 4
    case Loaded(_, _, _) => 3
    case Cleared(_, _, _, _) => 3
    case Leaving(_) => 2
    case Finishing(_) => 1
    case BarrierGated => 2
    case BarrierChecked(_) => 1
    case _ => 0
  }

  function ReleaseAction(th: Thread): Action {
    match th
    case Working(_) => GiveUp
    case Reading(_) => GiveUp
    case Planned(_, _) => GiveUp
    case Loaded(_, _, _) => GiveUp
    case Cleared(_, _, _, _) => Store(false)
    case _ => Go
  }

  predicate InTheWay(th: Thread) { OwnsFlag(th) || InGate(th) }

  /** A barrier that has not given up. */
  predicate Waiting(th: Thread) {
    th.BarrierStart? || th.BarrierPoll? || th.BarrierFlagClear? || th.BarrierGated? || th.BarrierChecked? || th == BarrierReturned(true)
  }

  lemma OneStepToRelease(delta: DeltaFn, s: Shared, t: nat, th: Thread)
    requires InTheWay(th)
    ensures var m := Moved(delta, s, t, th, ReleaseAction(th));
      && StepsToRelease(m.thread) < StepsToRelease(th) && m.shared == s.(gate := m.shared.gate, flag := m.shared.flag)
      && (Waiting(th) ==> Waiting(m.thread))
  {
  }

  /** Any thread can get out of the way by itself, without saving anything. */
  lemma {:induction false} ThreadReleases(delta: DeltaFn, w: World, t: nat) returns (trace: Trace)
    requires t in w.threads
    ensures var v := Run(delta, w, trace);
      && t in v.threads && v.shared == w.shared.(gate := v.shared.gate, flag := v.shared.flag)
      && v.threads == w.threads[t := v.threads[t]]
      && !InTheWay(v.threads[t]) && (Waiting(w.threads[t]) ==> Waiting(v.threads[t]))
    decreases StepsToRelease(w.threads[t])
  {
    hide Moved, InTheWay, Waiting;
    if !InTheWay(w.threads[t]) {
      trace := [];
      assert w.threads[t := w.threads[t]] == w.threads;
    } else {
      var a := ReleaseAction(w.threads[t]);
      OneStepToRelease(delta, w.shared, t, w.threads[t]);
      var v := Next(delta, w, t, a);
      var rest := ThreadReleases(delta, v, t);
      RunFirst(delta, w, t, a, rest);
      trace := [(t, a)] + rest;
      var last := Run(delta, v, rest);
      assert v.threads[t := last.threads[t]] == w.threads[t := last.threads[t]];
    }
  }

  /** The same register and history, and every waiting barrier still waits. */
  ghost predicate SameButReleased(w: World, v: World) {
    && v.shared == w.shared.(gate := v.shared.gate, flag := v.shared.flag)
    && v.threads.Keys == w.threads.Keys
    && forall t :: t in w.threads && Waiting(w.threads[t]) ==> Waiting(v.threads[t])
  }

  /** From every world a run reaches, the threads that hold gate and flag can release both. */
  lemma {:induction false} TheWayClears(delta: DeltaFn, first: Option<AppState>, w: World) returns (trace: Trace)
    requires Inv(delta, first, w)
    ensures var v := Run(delta, w, trace);
      Inv(delta, first, v) && v.shared.gate.None? && !v.shared.flag && SameButReleased(w, v)
  {
    hide ThreadSound, Sequential, Sealed, GateInv, Run, InTheWay, Waiting, OwnsFlag;
    trace := [];
    SameRun(delta, w);
    if w.shared.gate.Some? {
      GateHolder(delta, first, w);
      trace := ThreadReleases(delta, w, w.shared.gate.value);
      GateIsFree(delta, first, w, w.shared.gate.value, trace);
    }
    var mid := Run(delta, w, trace);
    RunKeepsInv(delta, first, w, trace);
    if mid.shared.flag {
      var owner :| owner in mid.threads && OwnsFlag(mid.threads[owner]);
      var more := ThreadReleases(delta, mid, owner);
      BothAreFree(delta, first, mid, owner, more);
      RunOn(delta, w, trace, more);
      RunKeepsInv(delta, first, mid, more);
      trace := trace + more;
    }
  }

  lemma {:induction false} SameRun(delta: DeltaFn, w: World)
    ensures Run(delta, w, []) == w
  {
  }

  lemma GateHolder(delta: DeltaFn, first: Option<AppState>, w: World)
    requires Inv(delta, first, w) && w.shared.gate.Some?
    ensures w.shared.gate.value in w.threads
  {
  }

  lemma {:induction false} GateIsFree(delta: DeltaFn, first: Option<AppState>, w: World, t: nat, trace: Trace)
    requires Inv(delta, first, w) && w.shared.gate == Some(t)
    requires var v := Run(delta, w, trace); t in v.threads && v.threads == w.threads[t := v.threads[t]] && !InTheWay(v.threads[t])
    ensures Run(delta, w, trace).shared.gate.None?
  {
    hide FlagInv, Sequential, ThreadSound, Sealed, Run, InGate, OwnsFlag;
    RunKeepsInv(delta, first, w, trace);
  }

  lemma {:induction false} BothAreFree(delta: DeltaFn, first: Option<AppState>, w: World, t: nat, trace: Trace)
    requires Inv(delta, first, w) && w.shared.gate.None? && t in w.threads && OwnsFlag(w.threads[t])
    requires var v := Run(delta, w, trace); t in v.threads && v.threads == w.threads[t := v.threads[t]] && !InTheWay(v.threads[t])
    ensures Run(delta, w, trace).shared.gate.None? && !Run(delta, w, trace).shared.flag
  {
    hide Sequential, ThreadSound, Sealed, Run, InGate, OwnsFlag;
    RunKeepsInv(delta, first, w, trace);
    var v := Run(delta, w, trace);
    forall u | u in v.threads ensures !OwnsFlag(v.threads[u]) {
      if u != t { assert v.threads[u] == w.threads[u]; }
    }
  }

  // ---- the barrier ---------------------------------------------------------------------------------------

  /** A barrier with gate and flag free, or the gate its own. */
  predicate Passing(s: Shared, t: nat, th: Thread) {
    match th
    case BarrierStart => s.gate.None? && !s.flag
    case BarrierPoll => s.gate.None? && !s.flag
    case BarrierFlagClear => s.gate.None? && !s.flag
    case BarrierGated => !s.flag
    case BarrierChecked(complete) => complete
    case BarrierReturned(quiescent) => quiescent
    case _ => false
  }

  function StepsToReturn(th: Thread): nat {
    match th
    case BarrierStart => 5
    case BarrierPoll => 4
    case BarrierFlagClear => 3
    case BarrierGated => 2
    case BarrierChecked(_) => 1
    case _ => 0
  }

  lemma OneStepToReturn(delta: DeltaFn, s: Shared, t: nat, th: Thread)
    requires Passing(s, t, th) && !th.BarrierReturned?
    ensures var m := Moved(delta, s, t, th, if th.BarrierFlagClear? then Try else Go);
      Passing(m.shared, t, m.thread) && StepsToReturn(m.thread) < StepsToReturn(th)
  {
  }

  /** With gate and flag free a waiting barrier, moving alone, returns true. */
  lemma {:induction false} BarrierReturns(delta: DeltaFn, w: World, t: nat) returns (trace: Trace)
    requires t in w.threads && Passing(w.shared, t, w.threads[t])
    ensures t in Run(delta, w, trace).threads && Run(delta, w, trace).threads[t] == BarrierReturned(true)
    decreases StepsToReturn(w.threads[t])
  {
    hide Moved;
    if w.threads[t].BarrierReturned? { return []; }
    var a := if w.threads[t].BarrierFlagClear? then Try else Go;
    OneStepToReturn(delta, w.shared, t, w.threads[t]);
    var rest := BarrierReturns(delta, Next(delta, w, t, a), t);
    RunFirst(delta, w, t, a, rest);
    trace := [(t, a)] + rest;
  }

  /** In every world a run reaches, a barrier that has not given up, or a new one, can still return true. */
  lemma {:induction false} BarrierCanPass(delta: DeltaFn, first: Option<AppState>, before: Trace, t: nat)
    requires var w := Run(delta, Initial(first), before); t in w.threads ==> Waiting(w.threads[t])
    ensures exists after :: var v := Run(delta, Run(delta, Initial(first), before), after);
      t in v.threads && v.threads[t] == BarrierReturned(true)
  {
    var w := Run(delta, Initial(first), before);
    RunKeepsInv(delta, first, Initial(first), before);
    hide Run, Inv, Waiting, Next;
    var clear := TheWayClears(delta, first, w);
    var v := Run(delta, w, clear);
    assert t in w.threads <==> t in v.threads.Keys;
    var rest := OldOrNewBarrier(delta, first, v, t);
    RunOn(delta, w, clear, rest);
    var after := clear + rest;
    assert Run(delta, w, after).threads[t] == BarrierReturned(true);
  }

  lemma OldOrNewBarrier(delta: DeltaFn, first: Option<AppState>, w: World, t: nat) returns (trace: Trace)
    requires Inv(delta, first, w) && w.shared.gate.None? && !w.shared.flag && (t in w.threads ==> Waiting(w.threads[t]))
    ensures t in Run(delta, w, trace).threads && Run(delta, w, trace).threads[t] == BarrierReturned(true)
  {
    hide Inv, Run, Moved;
    if t in w.threads {
      NobodyInGate(delta, first, w, t);
      trace := BarrierReturns(delta, w, t);
    } else {
      trace := BarrierReturns(delta, Next(delta, w, t, SpawnBarrier), t);
      RunFirst(delta, w, t, SpawnBarrier, trace);
      trace := [(t, SpawnBarrier)] + trace;
    }
  }

  lemma NobodyInGate(delta: DeltaFn, first: Option<AppState>, w: World, t: nat)
    requires Inv(delta, first, w) && w.shared.gate.None? && t in w.threads
    ensures !InGate(w.threads[t])
  {
  }

  // ---- writers taking turns --------------------------------------------------------------------------------

  predicate CanSaveAll(delta: DeltaFn, plans: seq<Plan>, s: Shared) {
    plans == [] || (CanSave(delta, plans[0], s.store) && CanSaveAll(delta, plans[1..], Saved(delta, plans[0], s)))
  }

  function SavedAll(delta: DeltaFn, plans: seq<Plan>, s: Shared): Shared
    requires CanSaveAll(delta, plans, s)
  {
    if plans == [] then s else SavedAll(delta, plans[1..], Saved(delta, plans[0], s))
  }

  lemma {:induction false} NewThread(threads: set<nat>) returns (t: nat)
    ensures forall u :: u in threads ==> u < t
  {
    if threads == {} { return 0; }
    var u :| u in threads;
    t := NewThread(threads - {u});
    if u >= t { t := u + 1; }
    assert threads == (threads - {u}) + {u};
  }

  /** With gate and flag free, a new writer saves, and both are free again. */
  lemma {:induction false} NewWriterSaves(delta: DeltaFn, w: World, plan: Plan) returns (trace: Trace)
    requires w.shared.gate.None? && !w.shared.flag && !w.shared.closing && CanSave(delta, plan, w.shared.store)
    ensures Run(delta, w, trace).shared == Saved(delta, plan, w.shared)
  {
    hide CanSave, Unchanged, Candidate;
    var t := NewThread(w.threads.Keys);
    var v := Next(delta, w, t, Spawn(Guarded(plan)));
    assert v.shared == w.shared && v.threads[t] == Starting(Guarded(plan));
    hide Next;
    var rest := WriterFinishes(delta, v, t, plan);
    RunFirst(delta, w, t, Spawn(Guarded(plan)), rest);
    trace := [(t, Spawn(Guarded(plan)))] + rest;
  }

  lemma {:induction false} WritersInTurn(delta: DeltaFn, w: World, plans: seq<Plan>) returns (trace: Trace)
    requires w.shared.gate.None? && !w.shared.flag && !w.shared.closing && CanSaveAll(delta, plans, w.shared)
    ensures Run(delta, w, trace).shared == SavedAll(delta, plans, w.shared)
    decreases |plans|
  {
    hide CanSave, Unchanged, Candidate;
    if plans == [] { return []; }
    var start := NewWriterSaves(delta, w, plans[0]);
    var rest := WritersInTurn(delta, Run(delta, w, start), plans[1..]);
    RunOn(delta, w, start, rest);
    trace := start + rest;
  }

  /** From every world a run reaches before closing, any writers whose plans fit can save one after the
      other: nothing that happened before keeps the flag or the gate from them, nor do they from each
      other. */
  lemma {:induction false} WritersTakeTurns(delta: DeltaFn, first: Option<AppState>, before: Trace, plans: seq<Plan>)
    requires var w := Run(delta, Initial(first), before);
      !w.shared.closing && CanSaveAll(delta, plans, w.shared.(gate := None, flag := false))
    ensures var w := Run(delta, Initial(first), before);
      exists after :: Run(delta, w, after).shared == SavedAll(delta, plans, w.shared.(gate := None, flag := false))
  {
    var w := Run(delta, Initial(first), before);
    RunKeepsInv(delta, first, Initial(first), before);
    hide Run, Inv, CanSaveAll, SavedAll;
    var clear := TheWayClears(delta, first, w);
    var v := Run(delta, w, clear);
    assert v.shared == w.shared.(gate := None, flag := false);
    var rest := WritersInTurn(delta, v, plans);
    RunOn(delta, w, clear, rest);
    assert Run(delta, w, clear + rest).shared == SavedAll(delta, plans, w.shared.(gate := None, flag := false));
  }
}
