/** The phase machine of the rejection test (scripts/task009-wg-peer/reject.go, runReject, and
    reject_observe.go, beginRejectPhase). One event is one arm of the select loop; timers, writes
    and the closing of the peer are parameters. */
module RejectRun {
  import opened Common

  datatype WorkKind = BootstrapWork | ProbeWork

  /** A worker's result; the bootstrap's packet counters are read when it arrives. */
  datatype WorkResult = WorkResult(phase: nat, kind: WorkKind, failed: bool, bootstrapFailed: bool, rx: nat, tx: nat)

  datatype Command = BeginPhase(wanted: nat) | ProbeLocal | FinishPhase | Shutdown | UnknownCommand

  datatype Event =
    | Input(ours: bool, command: Command)
    | InputError
    | WorkDone(result: WorkResult)
    | Packet(clean: bool)                 // the tun goroutine shows the observer a packet
    | Wake
    | PhaseTimeout
    | GlobalTimeout
    | HardTimeout

  datatype CloseOutcome = Closed | CloseFailed | CloseTimedOut

  /** Outcomes while handling one event: writes succeed, a deadline has passed, the peer closes. */
  datatype Env = Env(writes: bool, expired: bool, closes: CloseOutcome)

  /** What the program writes for its parent. */
  datatype Output =
    | PeerReady
    | PhaseReady(phase: nat)
    | BootstrapPassed(phase: nat)
    | ProbePassed(phase: nat)
    | PhaseStopped(phase: nat)
    | FailedOutput
    | StoppedOutput

  // ---- the transcript of a clean run ---------------------------------------------------------------

  function PhaseTranscript(p: nat): seq<Output> {
    [PhaseReady(p), BootstrapPassed(p), ProbePassed(p), PhaseStopped(p)]
  }

  /** Phases 1 to n, one after the other. */
  function Transcript(n: nat): seq<Output> {
    if n == 0 then [PeerReady] else Transcript(n - 1) + PhaseTranscript(n)
  }

  /** What an unfailed run has written so far. */
  function Written(completed: nat, phase: nat, bootstrapped: bool, probed: bool): seq<Output> {
    Transcript(completed)
    + (if phase == completed then []
       else [PhaseReady(phase)] + (if bootstrapped then [BootstrapPassed(phase)] else [])
            + (if probed then [ProbePassed(phase)] else []))
  }

  // ---- what a clean run receives ---------------------------------------------------------------------

  const STEPS: nat := 15

  /** Step i of a clean run is of phase i / 5 + 1: the phase is begun, its bootstrap comes back clean
      with packets both ways, the local probe is ordered, comes back clean, the phase is finished. */
  predicate Fits(i: nat, e: Event, env: Env) {
    i < STEPS && FitsSlot(i / 5 + 1, i % 5, e, env)
  }

  predicate FitsSlot(p: nat, slot: nat, e: Event, env: Env) {
    && !env.expired && (slot != 2 ==> env.writes)
    && (if slot == 0 then e == Input(true, BeginPhase(p))
        else if slot == 1 then
          e.WorkDone? && Clean(e.result, p, BootstrapWork) && !e.result.bootstrapFailed && e.result.rx > 0 && e.result.tx > 0
        else if slot == 2 then e == Input(true, ProbeLocal)
        else if slot == 3 then e.WorkDone? && Clean(e.result, p, ProbeWork)
        else e == Input(true, FinishPhase))
  }

  predicate Clean(result: WorkResult, phase: nat, kind: WorkKind) {
    result.phase == phase && result.kind == kind && !result.failed
  }

  /** What may come in between: wake-ups, and expected packets within a phase. */
  predicate Quiet(done: nat, e: Event) {
    e == Wake || (e == Packet(true) && done % 5 != 0)
  }

  /** How many steps these events amount to; None if one of them fits nowhere. */
  function Progress(events: seq<Event>, envs: nat -> Env): Option<nat> {
    if events == [] then Some(0)
    else
      var last := |events| - 1;
      var before := Progress(events[..last], envs);
      Advance(before, events[last], envs(last))
  }

  function Advance(done: Option<nat>, e: Event, env: Env): Option<nat> {
    if done.None? then None else Next(done.value, e, env)
  }

  function Next(done: nat, e: Event, env: Env): Option<nat> {
    if Fits(done, e, env) then Some(done + 1) else if Quiet(done, e) then Some(done) else None
  }

  lemma NextAt(completed: nat, slot: nat, e: Event, env: Env)
    requires slot < 5
    ensures Next(5 * completed + slot, e, env) ==
      if completed < 3 && FitsSlot(completed + 1, slot, e, env) then Some(5 * completed + slot + 1)
      else if e == Wake || (e == Packet(true) && slot != 0) then Some(5 * completed + slot) else None
  {
    hide FitsSlot;
    assert (5 * completed + slot) / 5 == completed && (5 * completed + slot) % 5 == slot;
  }

  /** The positions of the first steps of a clean run, in their order. */
  ghost predicate Steps(events: seq<Event>, envs: nat -> Env, at: seq<nat>) {
    && (forall i :: 0 <= i < |at| ==> at[i] < |events| && Fits(i, events[at[i]], envs(at[i])))
    && (forall i, j :: 0 <= i < j < |at| ==> at[i] < at[j])
  }

  /** Position k lies between step j - 1 and step j. */
  predicate Between(at: seq<nat>, j: nat, k: nat)
    requires j <= |at|
  {
    (j == 0 || at[j - 1] < k) && (j == |at| || k < at[j])
  }

  ghost predicate RestQuiet(events: seq<Event>, at: seq<nat>) {
    forall j, k :: 0 <= j <= |at| && 0 <= k < |events| && Between(at, j, k) ==> Quiet(j, events[k])
  }

  /** A run amounts to c steps exactly when c steps are in it, in order, and all the rest is quiet. */
  lemma {:induction false} ProgressMeansSteps(events: seq<Event>, envs: nat -> Env, c: nat)
    ensures Progress(events, envs) == Some(c) <==> exists at :: |at| == c && Steps(events, envs, at) && RestQuiet(events, at)
  {
    if Progress(events, envs) == Some(c) { var at := StepsOf(events, envs, c); }
    if at :| |at| == c && Steps(events, envs, at) && RestQuiet(events, at) { StepsMakeProgress(events, envs, at); }
  }

  lemma {:induction false} StepsOf(events: seq<Event>, envs: nat -> Env, c: nat) returns (at: seq<nat>)
    requires Progress(events, envs) == Some(c)
    ensures |at| == c && Steps(events, envs, at) && RestQuiet(events, at)
  {
    hide Fits, Quiet;
    if events == [] { return []; }
    var last := |events| - 1;
    var before := Progress(events[..last], envs).value;
    at := StepsOf(events[..last], envs, before);
    if Fits(before, events[last], envs(last)) {
      var more := at + [last];
      forall j, k | 0 <= j <= |more| && 0 <= k < |events| && Between(more, j, k) ensures Quiet(j, events[k]) {
        assert k < last;
        assert Between(at, j, k);
      }
      at := more;
    }
  }

  lemma {:induction false} StepsMakeProgress(events: seq<Event>, envs: nat -> Env, at: seq<nat>)
    requires Steps(events, envs, at) && RestQuiet(events, at)
    ensures Progress(events, envs) == Some(|at|)
  {
    if events == [] { return; }
    var last := |events| - 1;
    var n := |at| - 1;
    if at != [] && at[n] == last {
      hide Fits, Quiet;
      forall j, k | 0 <= j <= n && 0 <= k < last && Between(at[..n], j, k) ensures Quiet(j, events[..last][k]) {
        assert Between(at, j, k);
      }
      StepsMakeProgress(events[..last], envs, at[..n]);
    } else {
      forall i | 0 <= i < |at| ensures at[i] < last {
        if i < n { assert at[i] < at[n]; }
      }
      StepsMakeProgress(events[..last], envs, at);
      assert Between(at, |at|, last);
    }
  }

  /** The events up to position n are a clean run and event n is the command that ends it. */
  ghost predicate CleanRun(events: seq<Event>, envs: nat -> Env, n: nat) {
    && n < |events| && events[n] == Input(true, Shutdown) && envs(n).closes == Closed && envs(n).writes
    && exists at :: |at| == STEPS && Steps(events[..n], envs, at) && RestQuiet(events[..n], at)
  }

  predicate EndsProgram(e: Event) { e == Input(true, Shutdown) || e == HardTimeout }

  /** Nothing that ends the program is part of a clean run. */
  lemma {:induction false} ProgressDoesNotEnd(events: seq<Event>, envs: nat -> Env, k: nat)
    requires k < |events| && EndsProgram(events[k])
    ensures Progress(events, envs).None?
  {
    if k < |events| - 1 { ProgressDoesNotEnd(events[..|events| - 1], envs, k); }
  }

  // ---- a clean run -------------------------------------------------------------------------------------

  function StepEvent(i: nat): Event {
    var p := i / 5 + 1;
    if i % 5 == 0 then Input(true, BeginPhase(p))
    else if i % 5 == 1 then WorkDone(WorkResult(p, BootstrapWork, false, false, 1, 1))
    else if i % 5 == 2 then Input(true, ProbeLocal)
    else if i % 5 == 3 then WorkDone(WorkResult(p, ProbeWork, false, false, 0, 0))
    else Input(true, FinishPhase)
  }

  function CleanSteps(): (r: seq<Event>)
    ensures |r| == STEPS
  {
    seq(STEPS, i requires 0 <= i < STEPS => StepEvent(i))
  }

  /** There are clean runs. */
  lemma ACleanRun()
    ensures CleanRun(CleanSteps() + [Input(true, Shutdown)], k => Env(true, false, Closed), STEPS)
  {
    var steps := CleanSteps();
    var events := steps + [Input(true, Shutdown)];
    var envs := (k: nat) => Env(true, false, Closed);
    var at: seq<nat> := seq(STEPS, i requires 0 <= i < STEPS => i);
    assert events[..STEPS] == steps;
    forall i | 0 <= i < STEPS ensures Fits(i, steps[i], envs(i)) { }
    assert Steps(events[..STEPS], envs, at) && RestQuiet(events[..STEPS], at);
  }

  // ---- the machine ---------------------------------------------------------------------------------------

  /** The observer's share of the phase machine. */
  class RejectObserver {
    var phase: nat
    var active: bool
    var err: bool

    constructor ()
      ensures phase == 0 && !active && !err
    {
      phase, active, err := 0, false, false;
    }

    method BeginRejectPhase(wanted: nat) returns (ok: bool)
      modifies this`phase, this`active
      ensures ok <==> !err && !old(active) && wanted == old(phase) + 1 && wanted <= 3
      ensures ok ==> phase == wanted && active
      ensures !ok ==> phase == old(phase) && active == old(active)
    {
      if err || active || wanted != phase + 1 || wanted > 3 { return false; }
      phase, active := wanted, true;
      ok := true;
    }

    /** A packet outside a phase is an error, like a wrong one inside. */
    method Inspect(clean: bool)
      modifies this`err
      ensures err == (old(err) || !active || !clean)
    {
      if !active || !clean { err := true; }
    }
  }

  class Runner {
    const watch: RejectObserver
    var failed: bool
    var completed: nat
    var phase: nat
    var bootstrapped: bool
    var probed: bool
    var probing: bool
    var output: seq<Output>
    /** Workers started whose result has not been received. */
    ghost var inFlight: set<(nat, WorkKind)>

    /** At every step the runner is in or between phases together with the observer, and while
        nothing has failed it has written exactly the transcript up to here, work is in flight
        only for what the phase still waits for, and none between phases. */
    ghost predicate Valid()
      reads this, watch
    {
      && completed <= phase <= completed + 1 && phase <= 3
      && watch.phase == phase && (watch.active <==> phase != completed)
      && (!failed ==>
            && output == Written(completed, phase, bootstrapped, probed)
            && (probed || probing ==> bootstrapped) && !(probed && probing)
            && inFlight == if phase == completed then {} else
                 (if bootstrapped then {} else {(phase, BootstrapWork)}) + (if probing then {(phase, ProbeWork)} else {}))
    }

    /** Where a run without failure stands: the steps it has taken. */
    function Done(): Option<nat>
      reads this, watch
    {
      if failed || watch.err then None
      else Some(5 * completed + Slot())
    }

    function Slot(): (slot: nat)
      reads this
      ensures slot < 5
    {
      if phase == completed then 0 else if !bootstrapped then 1 else if probing then 3 else if probed then 4 else 2
    }

    constructor ()
      ensures Done() == Some(0)
      ensures Valid() && !failed && completed == 0 && phase == 0 && inFlight == {} && !watch.err && fresh(watch)
    {
      watch := new RejectObserver();
      failed, completed, phase := false, 0, 0;
      bootstrapped, probed, probing := false, false, false;
      output := [PeerReady];
      inFlight := {};
    }

    /** Latches the first failure. */
    method Fail(writes: bool)
      modifies this`failed, this`output
      ensures failed
    {
      if !failed {
        failed := true;
        if writes { output := output + [FailedOutput]; }
      }
    }

    method Emit(o: Output, writes: bool)
      modifies this`failed, this`output
      ensures writes ==> output == old(output) + [o] && failed == old(failed)
      ensures !writes ==> failed
    {
      if writes { output := output + [o]; } else { Fail(writes); }
    }

    method Begin(wanted: nat, env: Env)
      requires Valid() && !failed
      modifies this, watch
      ensures Valid() && watch.err == old(watch.err)
      ensures !env.expired ==> Done() == Advance(old(Done()), Input(true, BeginPhase(wanted)), env)
      ensures !failed <==>
        old(phase) == old(completed) && old(completed) < 3 && wanted == old(completed) + 1 && !old(watch.err) && env.writes
      ensures !failed ==> phase == old(completed) + 1 == wanted && completed == old(completed)
      ensures !failed ==> !bootstrapped && !probing && !probed && inFlight == {(wanted, BootstrapWork)}
    {
      hide Next;
      NextAt(completed, Slot(), Input(true, BeginPhase(wanted)), env);
      if phase != completed || completed >= 3 || wanted != completed + 1 { Fail(env.writes); return; }
      var ok := watch.BeginRejectPhase(wanted);
      if !ok { Fail(env.writes); return; }
      phase := wanted;
      bootstrapped, probed, probing := false, false, false;
      Emit(PhaseReady(phase), env.writes);
      if failed { return; }
      inFlight := inFlight + {(phase, BootstrapWork)};
    }

    method Probe(env: Env)
      requires Valid() && !failed
      modifies this
      ensures Valid()
      ensures !env.expired ==> Done() == Advance(old(Done()), Input(true, ProbeLocal), env)
      ensures !failed <==> old(phase != completed && bootstrapped && !probed && !probing)
      ensures completed == old(completed) && phase == old(phase)
      ensures !failed ==> bootstrapped && probing && !probed && inFlight == {(phase, ProbeWork)}
    {
      hide Next;
      NextAt(completed, Slot(), Input(true, ProbeLocal), env);
      if phase == completed || !bootstrapped || probed || probing { Fail(env.writes); return; }
      probing := true;
      inFlight := inFlight + {(phase, ProbeWork)};
    }

    /** A phase only finishes after one clean bootstrap and one clean probe. */
    method Finish(env: Env)
      requires Valid() && !failed
      modifies this, watch
      ensures Valid() && watch.err == old(watch.err)
      ensures !env.expired ==> Done() == Advance(old(Done()), Input(true, FinishPhase), env)
      ensures !failed <==> old(phase != completed && bootstrapped && probed && !probing) && env.writes
      ensures !failed ==> completed == phase == old(phase) && inFlight == {}
    {
      hide Next;
      NextAt(completed, Slot(), Input(true, FinishPhase), env);
      if phase == completed || !bootstrapped || !probed || probing { Fail(env.writes); return; }
      watch.active := false;
      completed := phase;
      Emit(PhaseStopped(phase), env.writes);
    }

    /** A result is good exactly when its worker is in flight and nothing has gone wrong; a
        bootstrap must also have moved packets both ways. */
    method TakeResult(result: WorkResult, env: Env)
      requires Valid()
      modifies this
      ensures Valid() && completed == old(completed) && phase == old(phase)
      ensures Done() == Advance(old(Done()), WorkDone(result), env)
      ensures !failed <==>
        && !old(failed) && (result.phase, result.kind) in old(inFlight)
        && !env.expired && !result.failed && !watch.err && env.writes
        && (result.kind == BootstrapWork ==> !result.bootstrapFailed && result.rx > 0 && result.tx > 0)
      ensures inFlight == old(inFlight) - {(result.phase, result.kind)}
      ensures !failed && result.kind == BootstrapWork ==>
        && !old(bootstrapped) && bootstrapped && probing == old(probing) && probed == old(probed)
        && output == old(output) + [BootstrapPassed(phase)]
      ensures !failed && result.kind == ProbeWork ==>
        && old(probing) && !probing && !old(probed) && probed && bootstrapped == old(bootstrapped)
        && output == old(output) + [ProbePassed(phase)]
    {
      hide Next, Transcript, PhaseTranscript;
      NextAt(completed, Slot(), WorkDone(result), env);
      inFlight := inFlight - {(result.phase, result.kind)};
      if failed { return; }
      if result.phase != phase || phase == completed { Fail(env.writes); return; }
      if env.expired || result.failed || watch.err { Fail(env.writes); return; }
      match result.kind {
        case BootstrapWork =>
          if bootstrapped || result.bootstrapFailed || result.rx == 0 || result.tx == 0 { Fail(env.writes); return; }
          bootstrapped := true;
          Emit(BootstrapPassed(phase), env.writes);
          assert !failed ==> inFlight == {};
        case ProbeWork =>
          if !probing || probed { Fail(env.writes); return; }
          probing, probed := false, true;
          Emit(ProbePassed(phase), env.writes);
          assert !failed ==> inFlight == {};
      }
    }

    /** The shutdown command: exit code 0 only for a clean, complete run. */
    method Stop(env: Env) returns (exit: nat)
      requires Valid()
      modifies this`failed, this`output
      ensures exit == 0 <==> !old(failed) && completed == 3 && env.closes == Closed && !watch.err && env.writes
      ensures exit == 0 ==> output == Transcript(3) + [StoppedOutput]
    {
      if env.closes != Closed { Fail(env.writes); return 1; }
      if watch.err { Fail(env.writes); }
      if !env.writes { return 1; }
      output := output + [StoppedOutput];
      exit := if failed || completed != 3 then 1 else 0;
    }

    method Obey(command: Command, env: Env)
      requires Valid() && command != Shutdown
      modifies this, watch
      ensures Valid() && watch.err == old(watch.err)
      ensures Done() == Advance(old(Done()), Input(true, command), env)
      ensures old(failed) ==> failed && completed == old(completed) && phase == old(phase)
    {
      hide Written, Next;
      NextAt(completed, Slot(), Input(true, command), env);
      if failed { return; }
      if env.expired { Fail(env.writes); return; }
      if command.BeginPhase? { Begin(command.wanted, env); }
      else if command == ProbeLocal { Probe(env); }
      else if command == FinishPhase { Finish(env); }
      else { Fail(env.writes); }
    }

    /** One round of the select loop; the exit code if it ends the program. */
    method Handle(event: Event, env: Env) returns (exit: Option<nat>)
      requires Valid()
      modifies this, watch
      ensures exit.None? ==> Valid()
      ensures exit.Some? <==> EndsProgram(event)
      ensures exit.None? ==> Done() == Advance(old(Done()), event, env)
      ensures exit == Some(0) <==>
        event == Input(true, Shutdown) && old(Done()) == Some(STEPS) && env.closes == Closed && env.writes
      ensures exit == Some(0) ==> output == Transcript(3) + [StoppedOutput] && !watch.err
      ensures exit == Some(0) <==>
        && event == Input(true, Shutdown) && !old(failed) && old(completed) == 3
        && env.closes == Closed && !old(watch.err) && env.writes
      ensures old(failed) && exit.None? ==> failed && completed == old(completed) && phase == old(phase)
      ensures old(watch.err) ==> watch.err
    {
      hide Next, Written;
      NextAt(completed, Slot(), event, env);
      match event {
        case InputError => Fail(env.writes);
        case Input(ours, command) =>
          if !ours { Fail(env.writes); return None; }
          if command == Shutdown {
            var code := Stop(env);
            return Some(code);
          }
          Obey(command, env);
        case WorkDone(result) => TakeResult(result, env);
        case Packet(clean) => watch.Inspect(clean);
        case Wake => if watch.err { Fail(env.writes); }
        case PhaseTimeout => Fail(env.writes);
        case GlobalTimeout => Fail(env.writes);
        case HardTimeout => Fail(env.writes); return Some(1);
      }
      exit := None;
    }
  }

  /** Everything before the loop. */
  datatype Startup = Startup(selftest: bool, resources: bool, portsFree: bool, writes: bool)

  /** runReject on any list of events: exit code 0 exactly when the program starts and the events
      contain a clean run up to a shutdown, that is phases 1, 2 and 3 in order, each begun, with one
      clean bootstrap result, one local probe ordered and one clean result of it before its finish,
      and besides these only wake-ups and expected packets within a phase. Then the program wrote
      exactly the transcript of the three phases and that it stopped. No code means that the events
      ran out first. */
  method RunReject(startup: Startup, events: seq<Event>, envs: nat -> Env)
    returns (exit: Option<nat>, output: seq<Output>)
    ensures exit == Some(0) <==> startup == Startup(true, true, true, true) && exists n: nat :: CleanRun(events, envs, n)
    ensures exit == Some(0) ==> output == Transcript(3) + [StoppedOutput]
    ensures exit.None? <==> startup == Startup(true, true, true, true) && forall k :: 0 <= k < |events| ==> !EndsProgram(events[k])
  {
    if !startup.selftest || !startup.resources || !startup.portsFree || !startup.writes { return Some(1), []; }
    var runner := new Runner();
    var k := 0;
    while k < |events|
      invariant 0 <= k <= |events| && runner.Valid() && fresh(runner) && fresh(runner.watch)
      invariant runner.Done() == Progress(events[..k], envs)
      invariant forall i :: 0 <= i < k ==> !EndsProgram(events[i])
    {
      exit := runner.Handle(events[k], envs(k));
      if exit.Some? {
        OnlyTheFirstEnd(events, envs, k);
        return exit, runner.output;
      }
      assert events[..k + 1][..k] == events[..k];
      k := k + 1;
    }
    return None, runner.output;
  }

  /** If event k ends the program and none before it does, only k can end a clean run. */
  lemma OnlyTheFirstEnd(events: seq<Event>, envs: nat -> Env, k: nat)
    requires k < |events| && EndsProgram(events[k])
    requires forall i :: 0 <= i < k ==> !EndsProgram(events[i])
    ensures (exists n: nat :: CleanRun(events, envs, n)) <==>
      && events[k] == Input(true, Shutdown) && envs(k).closes == Closed && envs(k).writes
      && Progress(events[..k], envs) == Some(STEPS)
  {
    hide Progress, Steps, RestQuiet;
    ProgressMeansSteps(events[..k], envs, STEPS);
    if n: nat :| CleanRun(events, envs, n) {
      ProgressMeansSteps(events[..n], envs, STEPS);
      if k < n { ProgressDoesNotEnd(events[..n], envs, k); }
      assert n == k;
    }
    if events[k] == Input(true, Shutdown) && envs(k).closes == Closed && envs(k).writes
       && Progress(events[..k], envs) == Some(STEPS) {
      assert CleanRun(events, envs, k);
    }
  }
}
