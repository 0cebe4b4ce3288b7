/** Ownership of the one managed core and its two-phase replacement
    (src-tauri/src/singbox/runtime.rs, SidecarRuntime). The outcomes of the port's calls are
    parameters; the process itself is outside the model. */
module Sidecar {
  import opened Common
  import opened Projection
  import Observations

  /** A finished configuration: the projection it was compiled from and its API secret. */
  datatype Config = Config(projection: Projected, secret: nat)

  datatype SidecarError =
    | CandidateCheck | CandidatePrepare | ActiveStop | CandidateStart | CandidateReady | CandidateStop
    | NeedsRecovery

  datatype PrepareOutcome = PrepareOutcome(
    pendingBefore: bool, checks: bool, pendingAfterCheck: bool, prepares: bool, cancels: bool)

  datatype CommitOutcome = CommitOutcome(
    stopsOld: bool, cancels: bool, runs: Option<nat>, pendingAfterRun: bool, becomesReady: bool, stopsNew: bool)

  datatype Call = Prepare(ok: bool) | Commit(ok: bool) | Cancel(ok: bool) | Stop(ok: bool)

  class SidecarRuntime {
    var candidate: Option<Config>
    var active: Option<Config>
    var child: Option<nat>
    var recoveryRequired: bool
    /** Every core started and not confirmed stopped. */
    ghost var running: set<nat>
    /** The transaction calls so far. */
    ghost var calls: seq<Call>

    /** At most one core runs and it is the owned one; a configuration is active only with a core,
        and a core that needs no recovery has one. */
    ghost predicate Valid()
      reads this
    {
      && running == (if child.Some? then {child.value} else {})
      && (active.Some? ==> child.Some?)
      && (child.Some? && !recoveryRequired ==> active.Some?)
    }

    constructor ()
      ensures Valid() && candidate == None && active == None && child == None && !recoveryRequired && calls == []
    {
      candidate, active, child, recoveryRequired := None, None, None, false;
      running, calls := {}, [];
    }

    function Lifecycle(): Observations.Lifecycle
      reads this
    {
      if recoveryRequired then Observations.RecoveryRequired
      else if child.Some? then Observations.Ready
      else Observations.Stopped
    }

    /** Check and prepare a candidate while the running core stays as it is. */
    method PrepareReplacement(config: Config, o: PrepareOutcome) returns (r: Result<(), SidecarError>)
      requires Valid()
      modifies this`candidate, this`recoveryRequired, this`calls
      ensures Valid() && calls == old(calls) + [Prepare(r.Ok?)]
      ensures r.Ok? <==> !old(recoveryRequired) && !o.pendingBefore && o.checks && o.prepares
      ensures r.Ok? ==> candidate == Some(config) && !recoveryRequired
      ensures r.Err? ==> candidate == old(candidate)
      ensures old(recoveryRequired) ==> recoveryRequired
      ensures r.Err? && !recoveryRequired ==> r.error == CandidateCheck || r.error == CandidatePrepare
      ensures r.Err? ==> r.error != ActiveStop
      ensures r.Err? ==>
        (recoveryRequired <==> old(recoveryRequired) || o.pendingBefore || (if !o.checks then o.pendingAfterCheck else !o.cancels))
    {
      if recoveryRequired || o.pendingBefore {
        recoveryRequired := true;
        calls := calls + [Prepare(false)];
        return Err(NeedsRecovery);
      }
      if !o.checks {
        recoveryRequired := o.pendingAfterCheck;
        calls := calls + [Prepare(false)];
        return Err(CandidateCheck);
      }
      if !o.prepares {
        recoveryRequired := !o.cancels;
        calls := calls + [Prepare(false)];
        return Err(CandidatePrepare);
      }
      candidate := Some(config);
      calls := calls + [Prepare(true)];
      r := Ok(());
    }

    /** Replace the running core by the prepared candidate. Whatever happens the candidate is
        consumed, the old configuration is never started again, and a core that could not be
        stopped stays owned. */
    method CommitPrepared(o: CommitOutcome) returns (r: Result<(), SidecarError>)
      requires Valid()
      modifies this
      ensures Valid() && calls == old(calls) + [Commit(r.Ok?)]
      ensures candidate == None
      ensures r.Ok? <==>
        old(candidate).Some? && (old(child).Some? ==> o.stopsOld) && o.runs.Some? && o.becomesReady
      ensures r.Ok? ==> active == old(candidate) && child == o.runs && !recoveryRequired
      ensures old(candidate).Some? && r.Err? ==> (active == old(active) && recoveryRequired) || active == None
      ensures old(candidate).Some? && r.Err? ==> Lifecycle() != Observations.Ready
      ensures r.Err? && r.error == ActiveStop ==> child == old(child) && recoveryRequired
      ensures old(candidate).Some? && r.Err? ==>
        && (r.error == ActiveStop <==> old(child).Some? && !o.stopsOld && o.cancels)
        && r.error != CandidateCheck && r.error != CandidatePrepare
        && (recoveryRequired <==> if old(child).Some? && !o.stopsOld then true
                                  else if o.runs.None? then o.pendingAfterRun else old(recoveryRequired) || !o.stopsNew)
    {
      if candidate.None? {
        calls := calls + [Commit(false)];
        return Err(CandidatePrepare);
      }
      if child.Some? {
        if !o.stopsOld {
          recoveryRequired := true;
          candidate := None;
          calls := calls + [Commit(false)];
          return Err(if !o.cancels then CandidateStop else ActiveStop);
        }
        running := running - {child.value};
        child := None;
      }
      active := None;
      if o.runs.None? {
        candidate := None;
        recoveryRequired := o.pendingAfterRun;
        calls := calls + [Commit(false)];
        return Err(CandidateStart);
      }
      running := running + {o.runs.value};
      if !o.becomesReady {
        candidate := None;
        if !o.stopsNew {
          child := o.runs;
          recoveryRequired := true;
          calls := calls + [Commit(false)];
          return Err(CandidateStop);
        }
        running := running - {o.runs.value};
        calls := calls + [Commit(false)];
        return Err(CandidateReady);
      }
      child := o.runs;
      active := candidate;
      candidate := None;
      recoveryRequired := false;
      calls := calls + [Commit(true)];
      r := Ok(());
    }

    /** Drop a candidate that never ran; the running core is untouched. */
    method CancelPrepared(cancels: bool) returns (r: Result<(), SidecarError>)
      requires Valid()
      modifies this`candidate, this`recoveryRequired, this`calls
      ensures Valid() && calls == old(calls) + [Cancel(r.Ok?)]
      ensures candidate == None && (r.Ok? <==> cancels)
      ensures recoveryRequired == (old(recoveryRequired) || r.Err?)
      ensures r.Err? ==> r.error == CandidateStop
    {
      candidate := None;
      if !cancels {
        recoveryRequired := true;
        calls := calls + [Cancel(false)];
        return Err(CandidateStop);
      }
      calls := calls + [Cancel(true)];
      r := Ok(());
    }

    /** Stop the owned core and clear both slots; ownership is kept when the stop fails. */
    method StopCore(stopsChild: bool, cancels: bool) returns (r: Result<(), SidecarError>)
      requires Valid()
      modifies this
      ensures Valid() && calls == old(calls) + [Stop(r.Ok?)]
      ensures r.Ok? <==> (old(child).Some? ==> stopsChild) && cancels
      ensures r.Ok? ==> child == None && active == None && candidate == None && !recoveryRequired
      ensures r.Err? ==> recoveryRequired
      ensures r.Err? && old(child).Some? && !stopsChild ==>
        child == old(child) && active == old(active) && candidate == old(candidate)
      ensures r.Err? && !(old(child).Some? && !stopsChild) ==> child == None && candidate == None && active == None
    {
      if child.Some? {
        if !stopsChild {
          recoveryRequired := true;
          calls := calls + [Stop(false)];
          return Err(ActiveStop);
        }
        running := running - {child.value};
        child := None;
      }
      candidate, active := None, None;
      if !cancels {
        recoveryRequired := true;
        calls := calls + [Stop(false)];
        return Err(CandidateStop);
      }
      recoveryRequired := false;
      calls := calls + [Stop(true)];
      r := Ok(());
    }
  }
}
