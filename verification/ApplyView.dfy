/** What the proxy page says about the desired configuration
    (src-tauri/src/application/proxy_routing.rs, canonical_runtime_apply_state and build_snapshot),
    tied to what the worker's core runs. */
module ApplyView {
  import opened Common
  import opened Domain
  import Observations
  import ManagedRuntime

  datatype RuntimeState = Stopped | Ready | Transitioning | RecoveryRequired

  datatype ApplyFailure = ConfigurationFailed | StateChanged | StopFailed | StartFailed | RecoveryFailed

  datatype ApplyState =
    | Applied
    | SavedPendingApply
    | Applying(operationId: string)
    | SavedApplyFailed(operationId: string, error: ApplyFailure)
    | ApplyUnknown(operationId: string)

  /** The remembered end of a routing Apply that never reached the worker. */
  datatype Terminal = Terminal(operationId: string, activeId: Option<Id>, generation: nat, stateChanged: bool)

  datatype View = View(runtime: RuntimeState, apply: ApplyState)

  function Observed(lifecycle: Observations.Lifecycle): RuntimeState {
    match lifecycle
    case Ready => RuntimeState.Ready
    case RecoveryRequired => RuntimeState.RecoveryRequired
    case _ => RuntimeState.Stopped
  }

  predicate About(t: Terminal, s: AppState) { t.activeId == s.activeId && t.generation == s.generation }

  function FailedView(observed: RuntimeState, operationId: string, error: Option<Observations.SwitchError>): View {
    match error
    case Some(ConfigurationFailed) => View(observed, SavedApplyFailed(operationId, ApplyFailure.ConfigurationFailed))
    case Some(SaveFailed) => View(observed, SavedApplyFailed(operationId, ApplyFailure.ConfigurationFailed))
    case Some(StopFailed) => View(RuntimeState.RecoveryRequired, SavedApplyFailed(operationId, ApplyFailure.StopFailed))
    case Some(StartFailed) => View(RuntimeState.Stopped, SavedApplyFailed(operationId, ApplyFailure.StartFailed))
    case Some(RecoveryNeeded) => View(RuntimeState.RecoveryRequired, SavedApplyFailed(operationId, RecoveryFailed))
    case Some(OperationTimedOut) => View(Transitioning, ApplyUnknown(operationId))
    case _ => View(observed, SavedApplyFailed(operationId, StateChanged))
  }

  function CanonicalView(seen: Observations.Snapshot, s: AppState, current: bool, terminal: Option<Terminal>): View {
    var observed := Observed(seen.lifecycle);
    if terminal.Some? && About(terminal.value, s) then
      View(observed, SavedApplyFailed(terminal.value.operationId,
                                      if terminal.value.stateChanged then StateChanged else ApplyFailure.ConfigurationFailed))
    else if terminal.Some? && seen.switch.Some? && seen.switch.value.operationId == terminal.value.operationId then
      View(observed, SavedPendingApply)
    else if seen.switch.Some? && seen.switch.value.status != Observations.SwitchReady then
      if !current then View(observed, SavedPendingApply)
      else if seen.switch.value.status == Observations.Cancelled then
        View(observed, SavedApplyFailed(seen.switch.value.operationId, StateChanged))
      else if seen.switch.value.status == Observations.Failed then
        FailedView(observed, seen.switch.value.operationId, seen.switch.value.error)
      else View(Transitioning, Applying(seen.switch.value.operationId))
    else if observed == RuntimeState.Ready && seen.appliedGeneration == Some(s.generation) && seen.appliedId == s.activeId then
      View(RuntimeState.Ready, Applied)
    else View(observed, SavedPendingApply)
  }

  /** "Applied" is shown only while the worker's Ready core runs exactly the stored selection and
      generation. */
  lemma AppliedIsWhatRuns(worker: ManagedRuntime.RuntimeWorker, s: AppState, current: bool, terminal: Option<Terminal>)
    requires worker.Valid()
    requires CanonicalView(worker.observations.snapshot, s, current, terminal).apply == Applied
    ensures s.activeId.Some?
    ensures worker.runtime != null && worker.runtime.Lifecycle() == Observations.Ready
    ensures worker.Runs(s.activeId.value, s.generation)
  {
  }

  /** The observed operation is one whose end is remembered apart, or that is about this very state. */
  predicate Overridden(seen: Observations.Snapshot, s: AppState, terminal: Option<Terminal>) {
    terminal.Some? && (About(terminal.value, s) || (seen.switch.Some? && seen.switch.value.operationId == terminal.value.operationId))
  }

  /** An operation is still under way. */
  predicate UnderWay(seen: Observations.Snapshot) {
    seen.switch.Some? && seen.switch.value.status in
      {Observations.Queued, Observations.Checking, Observations.Prepared, Observations.Persisted, Observations.Applying}
  }

  /** Which of the answers is shown when. */
  lemma ShownExactly(seen: Observations.Snapshot, s: AppState, current: bool, terminal: Option<Terminal>)
    ensures var shown := CanonicalView(seen, s, current, terminal);
      && (shown.apply == Applied <==>
            && !Overridden(seen, s, terminal) && (seen.switch.None? || seen.switch.value.status == Observations.SwitchReady)
            && seen.lifecycle == Observations.Ready
            && seen.appliedId == s.activeId && seen.appliedGeneration == Some(s.generation))
      && (shown.apply.Applying? <==> !Overridden(seen, s, terminal) && current && UnderWay(seen))
      && (shown.apply.Applying? ==> shown.apply.operationId == seen.switch.value.operationId)
      && (shown.apply.ApplyUnknown? <==>
            && !Overridden(seen, s, terminal) && current && seen.switch.Some? && seen.switch.value.status == Observations.Failed
            && seen.switch.value.error == Some(Observations.OperationTimedOut))
      && (shown.apply.SavedApplyFailed? <==>
            || (terminal.Some? && About(terminal.value, s))
            || (!Overridden(seen, s, terminal) && current && seen.switch.Some?
                && (seen.switch.value.status == Observations.Cancelled
                    || (seen.switch.value.status == Observations.Failed
                        && seen.switch.value.error != Some(Observations.OperationTimedOut)))))
      && (shown.apply.SavedApplyFailed? ==>
            shown.apply.operationId ==
              if terminal.Some? && About(terminal.value, s) then terminal.value.operationId else seen.switch.value.operationId)
      && (shown.runtime == Transitioning <==> shown.apply.Applying? || shown.apply.ApplyUnknown?)
  {
  }

  /** A worker that is Ready with the stored pair after its last operation has ended well is shown as
      applied. */
  lemma ReadyIsShown(worker: ManagedRuntime.RuntimeWorker, s: AppState, current: bool, terminal: Option<Terminal>)
    requires s.activeId.Some? && worker.ReadyWith(s.activeId.value, s.generation)
    requires !Overridden(worker.observations.snapshot, s, terminal)
    requires worker.observations.snapshot.switch.None?
             || worker.observations.snapshot.switch.value.status == Observations.SwitchReady
    ensures CanonicalView(worker.observations.snapshot, s, current, terminal) == View(RuntimeState.Ready, Applied)
  {
  }
}
