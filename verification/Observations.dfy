/** The in-memory runtime observation and the parser that reads it
    (src-tauri/src/application/observability.rs, src/lib/observability.ts). The response object
    between them copies every field one to one, so the parser is stated on the snapshot. */
module Observations {
  import opened Common

  const WINDOW_MS: nat := 600_000
  const CAPACITY: nat := 600

  datatype Lifecycle = NotObserved | Stopped | Ready | RecoveryRequired

  datatype CaptureMode = CaptureNotObserved | Off | SystemProxy | CaptureRecovery

  datatype Traffic = Traffic(uploadRate: nat, downloadRate: nat, uploadTotal: nat, downloadTotal: nat)

  datatype Point = Point(sampledAt: nat, uploadRate: nat, downloadRate: nat)

  datatype SwitchStatus =
    | Queued | Checking | Prepared | Persisted | Applying | SwitchReady | Cancelled | Failed

  datatype SwitchError =
    | CancelledCode | Busy | StateUnavailable | ConfigurationFailed | SaveFailed | StopFailed
    | StartFailed | RecoveryNeeded | OperationTimedOut

  datatype Switch = Switch(operationId: string, status: SwitchStatus, error: Option<SwitchError>)

  datatype Failure = ConfigurationFailure | StartFailure | StopFailure | ObservationFailure | WorkerFailure

  datatype LogEntry = CoreLog | FailureLog(failure: Failure)

  datatype Snapshot = Snapshot(
    appliedId: Option<string>, appliedGeneration: Option<nat>, switch: Option<Switch>,
    proxyAvailable: bool, coreMemory: Option<nat>, revision: nat, observedAt: nat, history: seq<Point>,
    managed: bool, capture: CaptureMode, lifecycle: Lifecycle, traffic: Traffic, connections: nat,
    latestLog: Option<LogEntry>)

  const NO_TRAFFIC: Traffic := Traffic(0, 0, 0, 0)

  const UNOBSERVED: Snapshot :=
    Snapshot(None, None, None, false, None, 0, 0, [], false, CaptureNotObserved, NotObserved, NO_TRAFFIC, 0, None)

  /** One reading of the core; a reading without traffic adds no history point. */
  datatype CoreReading = CoreReading(connections: nat, traffic: Option<Traffic>, logged: bool)

  /** The record calls that have production callers, and those of the supervisor. */
  datatype Event =
    | ManagedObservation(reading: CoreReading)
    | ManagedSample(reading: CoreReading, memory: Option<nat>)
    | ManagedReady
    | ManagedStopped
    | ManagedRecovery
    | ManagedFailure(lifecycle: Option<Lifecycle>, failure: Failure)
    | SwitchChanged(change: Switch)
    | SubscriptionReady(id: string, generation: nat, operationId: Option<string>, available: bool)

  // ---- the traffic history ------------------------------------------------------------------------

  function Oldest(observedAt: nat): nat {
    if observedAt >= WINDOW_MS then observedAt - WINDOW_MS else 0
  }

  /** retain, then drain from the front. */
  function Pruned(history: seq<Point>, observedAt: nat): seq<Point> {
    var recent := Filter(history, (p: Point) => p.sampledAt >= Oldest(observedAt));
    if |recent| > CAPACITY then recent[|recent| - CAPACITY..] else recent
  }

  /** A second sample at the same millisecond replaces the first. */
  function WithPoint(history: seq<Point>, p: Point): seq<Point> {
    if history != [] && history[|history| - 1].sampledAt == p.sampledAt
    then history[|history| - 1 := p] else history + [p]
  }

  ghost predicate Increasing(history: seq<Point>) {
    forall i, j :: 0 <= i < j < |history| ==> history[i].sampledAt < history[j].sampledAt
  }

  ghost predicate UpTo(history: seq<Point>, t: nat) {
    forall p :: p in history ==> p.sampledAt <= t
  }

  /** How many points of an increasing history are older than c. */
  function OlderThan(history: seq<Point>, c: nat): (k: nat)
    ensures k <= |history|
  {
    if history == [] || history[0].sampledAt >= c then 0 else 1 + OlderThan(history[1..], c)
  }

  lemma {:induction false} OlderThanSplits(history: seq<Point>, c: nat)
    requires Increasing(history)
    ensures forall i :: 0 <= i < OlderThan(history, c) ==> history[i].sampledAt < c
    ensures forall i :: OlderThan(history, c) <= i < |history| ==> history[i].sampledAt >= c
  {
    if history != [] && history[0].sampledAt < c {
      OlderThanSplits(history[1..], c);
      forall i | 0 <= i < |history|
        ensures i < OlderThan(history, c) ==> history[i].sampledAt < c
        ensures i >= OlderThan(history, c) ==> history[i].sampledAt >= c
      {
        if i > 0 { assert history[i] == history[1..][i - 1]; }
      }
    }
  }

  lemma {:induction false} RetainIsASuffix(history: seq<Point>, c: nat)
    requires Increasing(history)
    ensures Filter(history, (p: Point) => p.sampledAt >= c) == history[OlderThan(history, c)..]
  {
    var k := OlderThan(history, c);
    OlderThanSplits(history, c);
    assert history == history[..k] + history[k..];
    FilterConcat(history[..k], history[k..], (p: Point) => p.sampledAt >= c);
    FilterNone(history[..k], (p: Point) => p.sampledAt >= c);
    FilterAll(history[k..], (p: Point) => p.sampledAt >= c);
  }

  /** Index of the first point that survives pruning. */
  function Kept(history: seq<Point>, observedAt: nat): (k: nat)
    ensures k <= |history|
  {
    var older := OlderThan(history, Oldest(observedAt));
    if |history| - older > CAPACITY then |history| - CAPACITY else older
  }

  lemma PrunedIsASuffix(history: seq<Point>, observedAt: nat)
    requires Increasing(history)
    ensures Pruned(history, observedAt) == history[Kept(history, observedAt)..]
    ensures |Pruned(history, observedAt)| <= CAPACITY
    ensures Increasing(Pruned(history, observedAt))
    ensures forall p :: p in Pruned(history, observedAt) ==> p in history && p.sampledAt >= Oldest(observedAt)
  {
    PrunedEquals(history, observedAt);
    SuffixIsRecent(history, observedAt);
  }

  lemma PrunedEquals(history: seq<Point>, observedAt: nat)
    requires Increasing(history)
    ensures Pruned(history, observedAt) == history[Kept(history, observedAt)..]
  {
    hide OlderThan, Increasing;
    var c := Oldest(observedAt);
    RetainIsASuffix(history, c);
    FilterSame(history, (p: Point) => p.sampledAt >= c, (p: Point) => p.sampledAt >= Oldest(observedAt));
  }

  lemma SuffixIsRecent(history: seq<Point>, observedAt: nat)
    requires Increasing(history)
    ensures var out := history[Kept(history, observedAt)..];
      && |out| <= CAPACITY && Increasing(out)
      && forall p :: p in out ==> p in history && p.sampledAt >= Oldest(observedAt)
  {
    OlderThanSplits(history, Oldest(observedAt));
    hide OlderThan;
    var k := Kept(history, observedAt);
    var out := history[k..];
    forall p | p in out ensures p in history && p.sampledAt >= Oldest(observedAt) {
      var i :| 0 <= i < |out| && out[i] == p;
      assert history[k + i] == p;
    }
  }

  lemma {:induction false} OlderThanUnique(history: seq<Point>, c: nat, k: nat)
    requires Increasing(history) && k <= |history|
    requires k > 0 ==> history[k - 1].sampledAt < c
    requires k < |history| ==> history[k].sampledAt >= c
    ensures OlderThan(history, c) == k
  {
    OlderThanSplits(history, c);
  }

  lemma {:induction false} OlderThanMonotone(history: seq<Point>, grown: seq<Point>, c: nat, d: nat)
    requires Increasing(history) && Increasing(grown) && c <= d && |history| <= |grown|
    requires forall i :: 0 <= i < |history| ==> grown[i].sampledAt == history[i].sampledAt
    ensures OlderThan(history, c) <= OlderThan(grown, d)
  {
    OlderThanSplits(history, c);
    OlderThanSplits(grown, d);
    var k := OlderThan(grown, d);
    if k < |history| { assert grown[k].sampledAt == history[k].sampledAt; }
  }

  lemma {:induction false} OlderThanOfSuffix(history: seq<Point>, a: nat, c: nat)
    requires Increasing(history) && a <= |history|
    ensures OlderThan(history[a..], c) == if OlderThan(history, c) > a then OlderThan(history, c) - a else 0
  {
    hide OlderThan;
    OlderThanSplits(history, c);
    var older := OlderThan(history, c);
    OlderThanUnique(history[a..], c, if older > a then older - a else 0);
  }

  /** Dropping points that pruning would drop anyway does not change the result. */
  lemma PruneOfSuffix(history: seq<Point>, a: nat, observedAt: nat)
    requires Increasing(history) && a <= Kept(history, observedAt)
    ensures Pruned(history[a..], observedAt) == Pruned(history, observedAt)
  {
    hide Pruned, OlderThan;
    PrunedIsASuffix(history, observedAt);
    PrunedIsASuffix(history[a..], observedAt);
    OlderThanOfSuffix(history, a, Oldest(observedAt));
  }

  /** Pruning early loses nothing that a later pruning would keep. */
  lemma PruneTwice(raw: seq<Point>, early: nat, late: nat)
    requires Increasing(raw) && early <= late
    ensures Pruned(Pruned(raw, early), late) == Pruned(raw, late)
  {
    hide Pruned, OlderThan;
    PrunedIsASuffix(raw, early);
    OlderThanMonotone(raw, raw, Oldest(early), Oldest(late));
    PruneOfSuffix(raw, Kept(raw, early), late);
  }

  lemma WithPointIncreases(raw: seq<Point>, p: Point)
    requires Increasing(raw) && UpTo(raw, p.sampledAt)
    ensures Increasing(WithPoint(raw, p)) && UpTo(WithPoint(raw, p), p.sampledAt)
  {
    var grown := WithPoint(raw, p);
    forall i | 0 <= i < |raw| ensures raw[i].sampledAt <= p.sampledAt {
      assert raw[i] in raw;
    }
    forall q | q in grown ensures q.sampledAt <= p.sampledAt {
      assert q in raw || q == p;
    }
  }

  lemma LastPointKept(raw: seq<Point>, early: nat, late: nat)
    requires Increasing(raw) && UpTo(raw, early) && early <= late
    requires raw != [] && raw[|raw| - 1].sampledAt == late
    ensures Kept(raw, early) < |raw|
  {
    OlderThanSplits(raw, Oldest(early));
    assert raw[|raw| - 1] in raw;
  }

  lemma AddAfterDrop(raw: seq<Point>, a: nat, p: Point)
    requires a <= |raw|
    requires raw != [] && raw[|raw| - 1].sampledAt == p.sampledAt ==> a < |raw|
    ensures WithPoint(raw[a..], p) == WithPoint(raw, p)[a..]
    ensures |raw| <= |WithPoint(raw, p)|
    ensures forall i :: 0 <= i < |raw| ==> WithPoint(raw, p)[i].sampledAt == raw[i].sampledAt
  {
  }

  /** A point added to a pruned history, then pruned, is a point added to the full history, then
      pruned. */
  lemma PruneThenAdd(raw: seq<Point>, early: nat, late: nat, p: Point)
    requires Increasing(raw) && UpTo(raw, early) && early <= late && p.sampledAt == late
    ensures Pruned(WithPoint(Pruned(raw, early), p), late) == Pruned(WithPoint(raw, p), late)
  {
    hide Pruned, OlderThan, WithPoint;
    var a := Kept(raw, early);
    var grown := WithPoint(raw, p);
    if raw != [] && raw[|raw| - 1].sampledAt == late {
      LastPointKept(raw, early, late);
    }
    PrunedIsASuffix(raw, early);
    AddAfterDrop(raw, a, p);
    forall q | q in raw ensures q.sampledAt <= late {}
    WithPointIncreases(raw, p);
    OlderThanMonotone(raw, grown, Oldest(early), Oldest(late));
    PruneOfSuffix(grown, a, late);
  }

  // ---- the record calls -----------------------------------------------------------------------------

  predicate Clears(e: Event) {
    || e.ManagedReady? || e.ManagedStopped? || e.ManagedRecovery? || e.SubscriptionReady?
    || (e.ManagedFailure? && e.lifecycle.Some? && e.lifecycle.value != Ready)
  }

  function ChangedHistory(history: seq<Point>, e: Event, now: nat): seq<Point> {
    if Clears(e) then []
    else if (e.ManagedObservation? || e.ManagedSample?) && e.reading.traffic.Some? then
      WithPoint(history, Point(now, e.reading.traffic.value.uploadRate, e.reading.traffic.value.downloadRate))
    else history
  }

  function Sampled(s: Snapshot, reading: CoreReading): Snapshot {
    s.(managed := true, lifecycle := Ready, connections := reading.connections,
       traffic := if reading.traffic.Some? then reading.traffic.value else s.traffic,
       latestLog := if reading.logged then Some(CoreLog) else s.latestLog)
  }

  function WithoutReadySwitch(switch: Option<Switch>): Option<Switch> {
    if switch.Some? && switch.value.status == SwitchReady then None else switch
  }

  function Changed(s: Snapshot, e: Event): Snapshot {
    match e
    case ManagedObservation(reading) => Sampled(s, reading)
    case ManagedSample(reading, memory) => Sampled(s, reading).(coreMemory := memory)
    case ManagedReady =>
      s.(appliedId := None, appliedGeneration := None, proxyAvailable := false, coreMemory := None, switch := None,
         managed := true, capture := Off, lifecycle := Ready, traffic := NO_TRAFFIC, connections := 0, latestLog := None)
    case ManagedStopped =>
      s.(appliedId := None, appliedGeneration := None, proxyAvailable := false, coreMemory := None, switch := None,
         managed := true, capture := Off, lifecycle := Stopped, traffic := NO_TRAFFIC, connections := 0, latestLog := None)
    case ManagedRecovery =>
      s.(proxyAvailable := false, coreMemory := None, switch := WithoutReadySwitch(s.switch),
         managed := true, lifecycle := RecoveryRequired, traffic := NO_TRAFFIC, connections := 0, latestLog := None)
    case ManagedFailure(lifecycle, failure) =>
      var moved := if lifecycle.Some? then s.(managed := true, capture := Off, lifecycle := lifecycle.value) else s;
      var dropped :=
        if lifecycle.Some? && lifecycle.value != Ready then
          moved.(proxyAvailable := false, coreMemory := None, switch := WithoutReadySwitch(s.switch),
                 appliedId := None, appliedGeneration := None, traffic := NO_TRAFFIC, connections := 0)
        else moved;
      dropped.(latestLog := Some(FailureLog(failure)))
    case SwitchChanged(change) =>
      if change.status == Queued || (s.switch.Some? && s.switch.value.operationId == change.operationId)
      then s.(switch := Some(change)) else s
    case SubscriptionReady(id, generation, operationId, available) =>
      s.(managed := true, capture := Off, lifecycle := Ready, appliedId := Some(id), appliedGeneration := Some(generation),
         proxyAvailable := available, coreMemory := None,
         switch := if operationId.Some? then Some(Switch(operationId.value, SwitchReady, None)) else None,
         traffic := NO_TRAFFIC, connections := 0, latestLog := None)
  }

  /** One record call at time now: what is published afterwards. */
  function Recorded(s: Snapshot, e: Event, now: nat): Snapshot {
    Changed(s, e).(
      observedAt := now,
      history := Pruned(ChangedHistory(s.history, e, now), now),
      revision := if s.revision < U64_MAX then s.revision + 1 else U64_MAX)
  }

  /** A reader's snapshot refreshes the time and prunes, without a new revision. */
  function Read(s: Snapshot, now: nat): Snapshot {
    s.(observedAt := now, history := Pruned(s.history, now))
  }

  class RuntimeObservations {
    var snapshot: Snapshot
    /** Every delta handed to the sink, in order. */
    ghost var emitted: seq<Snapshot>

    constructor ()
      ensures snapshot == UNOBSERVED && emitted == []
    {
      snapshot := UNOBSERVED;
      emitted := [];
    }

    /** prune_traffic_history on the snapshot's own time. */
    method PruneTrafficHistory()
      modifies this`snapshot
      ensures snapshot == old(snapshot).(history := Pruned(old(snapshot.history), old(snapshot.observedAt)))
    {
      var observedAt := snapshot.observedAt;
      var oldest := if observedAt >= WINDOW_MS then observedAt - WINDOW_MS else 0;
      var history := Filter(snapshot.history, (p: Point) => p.sampledAt >= oldest);
      FilterSame(snapshot.history, (p: Point) => p.sampledAt >= oldest,
                 (p: Point) => p.sampledAt >= Oldest(observedAt));
      var excess := if |history| > CAPACITY then |history| - CAPACITY else 0;
      snapshot := snapshot.(history := history[excess..]);
    }

    /** The end of every update: prune, move the revision, publish the delta. */
    method Publish()
      modifies this
      ensures snapshot == old(snapshot).(
        history := Pruned(old(snapshot.history), old(snapshot.observedAt)),
        revision := if old(snapshot.revision) < U64_MAX then old(snapshot.revision) + 1 else U64_MAX)
      ensures emitted == old(emitted) + [snapshot]
    {
      PruneTrafficHistory();
      if snapshot.revision < U64_MAX {
        snapshot := snapshot.(revision := snapshot.revision + 1);
      } else {
        snapshot := snapshot.(revision := U64_MAX);
      }
      emitted := emitted + [snapshot];
    }

    method ApplyReading(reading: CoreReading)
      modifies this`snapshot
      ensures snapshot == Sampled(old(snapshot), reading).(
        history := ChangedHistory(old(snapshot.history), ManagedObservation(reading), old(snapshot.observedAt)))
    {
      snapshot := snapshot.(managed := true, lifecycle := Ready, connections := reading.connections);
      if reading.traffic.Some? {
        var traffic := reading.traffic.value;
        var point := Point(snapshot.observedAt, traffic.uploadRate, traffic.downloadRate);
        var n := |snapshot.history|;
        if n > 0 && snapshot.history[n - 1].sampledAt == point.sampledAt {
          snapshot := snapshot.(traffic := traffic, history := snapshot.history[n - 1 := point]);
        } else {
          snapshot := snapshot.(traffic := traffic, history := snapshot.history + [point]);
        }
      }
      if reading.logged {
        snapshot := snapshot.(latestLog := Some(CoreLog));
      }
    }

    method RecordManagedObservation(reading: CoreReading, now: nat)
      modifies this
      ensures snapshot == Recorded(old(snapshot), ManagedObservation(reading), now) && emitted == old(emitted) + [snapshot]
    {
      snapshot := snapshot.(observedAt := now);
      ApplyReading(reading);
      Publish();
    }

    method RecordManagedSample(reading: CoreReading, memory: Option<nat>, now: nat)
      modifies this
      ensures snapshot == Recorded(old(snapshot), ManagedSample(reading, memory), now) && emitted == old(emitted) + [snapshot]
    {
      snapshot := snapshot.(observedAt := now);
      ApplyReading(reading);
      snapshot := snapshot.(coreMemory := memory);
      Publish();
    }

    /** What stopping and starting a fresh core have in common: nothing of the old core remains. */
    method ForgetCore(lifecycle: Lifecycle)
      modifies this`snapshot
      ensures snapshot == old(snapshot).(
        appliedId := None, appliedGeneration := None, proxyAvailable := false, coreMemory := None, switch := None,
        managed := true, capture := Off, lifecycle := lifecycle, traffic := NO_TRAFFIC, history := [],
        connections := 0, latestLog := None)
    {
      snapshot := snapshot.(appliedId := None, appliedGeneration := None);
      snapshot := snapshot.(proxyAvailable := false, coreMemory := None, switch := None);
      snapshot := snapshot.(managed := true, capture := Off, lifecycle := lifecycle);
      snapshot := snapshot.(traffic := NO_TRAFFIC, history := [], connections := 0, latestLog := None);
    }

    method RecordManagedReady(now: nat)
      modifies this
      ensures snapshot == Recorded(old(snapshot), ManagedReady, now) && emitted == old(emitted) + [snapshot]
    {
      snapshot := snapshot.(observedAt := now);
      ForgetCore(Ready);
      Publish();
    }

    method RecordManagedStopped(now: nat)
      modifies this
      ensures snapshot == Recorded(old(snapshot), ManagedStopped, now) && emitted == old(emitted) + [snapshot]
    {
      snapshot := snapshot.(observedAt := now);
      ForgetCore(Stopped);
      Publish();
    }

    method RecordManagedRecovery(now: nat)
      modifies this
      ensures snapshot == Recorded(old(snapshot), ManagedRecovery, now) && emitted == old(emitted) + [snapshot]
    {
      snapshot := snapshot.(observedAt := now);
      snapshot := snapshot.(proxyAvailable := false, coreMemory := None);
      if snapshot.switch.Some? && snapshot.switch.value.status == SwitchReady {
        snapshot := snapshot.(switch := None);
      }
      snapshot := snapshot.(managed := true, lifecycle := RecoveryRequired);
      snapshot := snapshot.(traffic := NO_TRAFFIC, history := [], connections := 0, latestLog := None);
      Publish();
    }

    /** The core is gone, but not by a stop: the applied pair and its readings are dropped. */
    method DropApplied()
      modifies this`snapshot
      ensures snapshot == old(snapshot).(
        proxyAvailable := false, coreMemory := None, switch := WithoutReadySwitch(old(snapshot.switch)),
        appliedId := None, appliedGeneration := None, traffic := NO_TRAFFIC, history := [], connections := 0)
    {
      snapshot := snapshot.(proxyAvailable := false, coreMemory := None);
      if snapshot.switch.Some? && snapshot.switch.value.status == SwitchReady {
        snapshot := snapshot.(switch := None);
      }
      snapshot := snapshot.(appliedId := None, appliedGeneration := None);
      snapshot := snapshot.(traffic := NO_TRAFFIC, history := [], connections := 0);
    }

    method RecordManagedFailure(lifecycle: Option<Lifecycle>, failure: Failure, now: nat)
      modifies this
      ensures snapshot == Recorded(old(snapshot), ManagedFailure(lifecycle, failure), now)
      ensures emitted == old(emitted) + [snapshot]
    {
      snapshot := snapshot.(observedAt := now);
      if lifecycle.Some? {
        snapshot := snapshot.(managed := true, capture := Off, lifecycle := lifecycle.value);
        if lifecycle.value != Ready {
          DropApplied();
        }
      }
      snapshot := snapshot.(latestLog := Some(FailureLog(failure)));
      Publish();
    }

    method RecordSubscriptionSwitch(change: Switch, now: nat)
      modifies this
      ensures snapshot == Recorded(old(snapshot), SwitchChanged(change), now) && emitted == old(emitted) + [snapshot]
    {
      snapshot := snapshot.(observedAt := now);
      if change.status == Queued || (snapshot.switch.Some? && snapshot.switch.value.operationId == change.operationId) {
        snapshot := snapshot.(switch := Some(change));
      }
      Publish();
    }

    method RecordSubscriptionReady(id: string, generation: nat, operationId: Option<string>, available: bool, now: nat)
      modifies this
      ensures snapshot == Recorded(old(snapshot), SubscriptionReady(id, generation, operationId, available), now)
      ensures emitted == old(emitted) + [snapshot]
    {
      snapshot := snapshot.(observedAt := now);
      snapshot := snapshot.(managed := true, capture := Off, lifecycle := Ready);
      snapshot := snapshot.(appliedId := Some(id), appliedGeneration := Some(generation));
      snapshot := snapshot.(proxyAvailable := available, coreMemory := None);
      snapshot := snapshot.(
        switch := if operationId.Some? then Some(Switch(operationId.value, SwitchReady, None)) else None);
      snapshot := snapshot.(traffic := NO_TRAFFIC, history := [], connections := 0, latestLog := None);
      Publish();
    }

    method Snapshot(now: nat) returns (r: Snapshot)
      modifies this`snapshot
      ensures r == snapshot == Read(old(snapshot), now)
    {
      snapshot := snapshot.(observedAt := now);
      PruneTrafficHistory();
      r := snapshot;
    }
  }

  // ---- the parser -----------------------------------------------------------------------------------

  /** Number.isSafeInteger on a non-negative wire number. An integer beyond the safe range is read
      as a number that is not safe either. */
  predicate SafeInteger(n: nat) { n <= MAX_SAFE_INTEGER }

  predicate SafeOrNull(n: Option<nat>) { n.Some? ==> SafeInteger(n.value) }

  predicate IsSwitch(switch: Switch) {
    && switch.operationId != ""
    && (if switch.status == Failed then switch.error.Some? && switch.error.value != CancelledCode
        else if switch.status == Cancelled then switch.error == Some(CancelledCode)
        else switch.error == None)
  }

  /** The check on point i of the list. */
  predicate PointAccepted(v: Snapshot, i: nat)
    requires i < |v.history|
  {
    && SafeInteger(v.history[i].sampledAt)
    && v.history[i].sampledAt <= v.observedAt
    && v.observedAt - v.history[i].sampledAt <= 600000
    && (i > 0 ==> v.history[i].sampledAt > v.history[i - 1].sampledAt)
  }

  /** parseRuntimeObservation does not throw. */
  predicate ParserAccepts(v: Snapshot) {
    && SafeInteger(v.revision) && SafeInteger(v.observedAt)
    && |v.history| <= 600
    && SafeInteger(v.traffic.uploadTotal) && SafeInteger(v.traffic.downloadTotal) && SafeInteger(v.connections)
    && (v.appliedId.Some? ==> v.appliedId.value != "")
    && SafeOrNull(v.appliedGeneration)
    && v.appliedId.None? == v.appliedGeneration.None?
    && (v.switch.Some? ==> IsSwitch(v.switch.value))
    && SafeOrNull(v.coreMemory)
    && (v.switch.Some? && v.switch.value.status == SwitchReady ==>
          v.lifecycle == Ready && v.appliedId.Some? && v.appliedGeneration.Some?)
    && forall i | 0 <= i < |v.history| :: PointAccepted(v, i)
  }

  /** The only clauses a producer of 64-bit counters can miss. */
  predicate NumbersSafe(v: Snapshot) {
    && SafeInteger(v.revision) && SafeInteger(v.observedAt)
    && SafeInteger(v.traffic.uploadTotal) && SafeInteger(v.traffic.downloadTotal) && SafeInteger(v.connections)
    && SafeOrNull(v.appliedGeneration) && SafeOrNull(v.coreMemory)
  }

  // ---- every run is accepted --------------------------------------------------------------------------

  /** What the production callers pass: switches that announce Ready come only from the combined
      call, and subscription ids are not empty. */
  predicate Production(e: Event) {
    && (e.SwitchChanged? ==> IsSwitch(e.change) && e.change.status != SwitchReady)
    && (e.SubscriptionReady? ==> e.id != "" && e.operationId != Some(""))
  }

  ghost predicate Consistent(s: Snapshot) {
    && Increasing(s.history) && UpTo(s.history, s.observedAt)
    && (forall p :: p in s.history ==> p.sampledAt >= Oldest(s.observedAt))
    && |s.history| <= CAPACITY
    && AppliedConsistent(s)
  }

  predicate AppliedConsistent(s: Snapshot) {
    && s.appliedId.None? == s.appliedGeneration.None?
    && (s.appliedId.Some? ==> s.appliedId.value != "")
    && (s.switch.Some? ==> IsSwitch(s.switch.value))
    && (s.switch.Some? && s.switch.value.status == SwitchReady ==> s.lifecycle == Ready && s.appliedId.Some?)
  }

  lemma ConsistentIsAccepted(s: Snapshot)
    requires Consistent(s)
    ensures ParserAccepts(s) <==> NumbersSafe(s)
  {
    if NumbersSafe(s) {
      forall i | 0 <= i < |s.history| ensures PointAccepted(s, i) {
        assert s.history[i] in s.history;
      }
    }
  }

  lemma ChangeKeepsApplied(s: Snapshot, e: Event)
    requires AppliedConsistent(s) && Production(e)
    ensures AppliedConsistent(Changed(s, e))
  {
  }

  /** A history the full list of samples stands behind. */
  ghost predicate Backed(s: Snapshot, raw: seq<Point>) {
    && Increasing(raw) && UpTo(raw, s.observedAt)
    && s.history == Pruned(raw, s.observedAt)
  }

  lemma RecordedKeepsHistory(s: Snapshot, raw: seq<Point>, e: Event, now: nat)
    requires Backed(s, raw) && s.observedAt <= now
    ensures Backed(Recorded(s, e, now), ChangedHistory(raw, e, now))
  {
    hide Pruned, OlderThan, Changed;
    if !Clears(e) && (e.ManagedObservation? || e.ManagedSample?) && e.reading.traffic.Some? {
      var p := Point(now, e.reading.traffic.value.uploadRate, e.reading.traffic.value.downloadRate);
      WithPointIncreases(raw, p);
      PruneThenAdd(raw, s.observedAt, now, p);
    } else if Clears(e) {
      PrunedIsASuffix([], now);
    } else {
      PruneTwice(raw, s.observedAt, now);
    }
  }

  lemma BackedIsInWindow(s: Snapshot, raw: seq<Point>)
    requires Backed(s, raw) && AppliedConsistent(s)
    ensures Consistent(s)
  {
    PrunedIsASuffix(raw, s.observedAt);
  }

  type Step = (Event, nat)

  ghost predicate MonotoneClock(steps: seq<Step>) {
    forall i, j :: 0 <= i < j < |steps| ==> steps[i].1 <= steps[j].1
  }

  /** The snapshot after these calls on a fresh observation. */
  function After(steps: seq<Step>): Snapshot {
    if steps == [] then UNOBSERVED
    else
      var k := |steps| - 1;
      Recorded(After(steps[..k]), steps[k].0, steps[k].1)
  }

  /** Every sample since the last clearing call, never pruned. */
  function AllSamples(steps: seq<Step>): seq<Point> {
    if steps == [] then []
    else
      var k := |steps| - 1;
      ChangedHistory(AllSamples(steps[..k]), steps[k].0, steps[k].1)
  }

  lemma {:induction false} RunIsConsistent(steps: seq<Step>)
    requires MonotoneClock(steps) && forall i :: 0 <= i < |steps| ==> Production(steps[i].0)
    ensures Backed(After(steps), AllSamples(steps)) && AppliedConsistent(After(steps))
    ensures steps != [] ==> After(steps).observedAt == steps[|steps| - 1].1
    ensures After(steps).revision == if |steps| < U64_MAX then |steps| else U64_MAX
  {
    hide Changed, ChangedHistory, Pruned;
    if steps == [] {
      PrunedIsASuffix([], 0);
    } else {
      var k := |steps| - 1;
      RunIsConsistent(steps[..k]);
      var before := After(steps[..k]);
      RecordedKeepsHistory(before, AllSamples(steps[..k]), steps[k].0, steps[k].1);
      ChangeKeepsApplied(before, steps[k].0);
    }
  }

  /** In every run the parser accepts a snapshot exactly when its counters are safe, and the pruned
      history is the last 600 samples of the window out of all samples since the core was last
      replaced. */
  lemma {:induction false} SnapshotsNeedSafeNumbers(steps: seq<Step>, now: nat)
    requires MonotoneClock(steps) && forall i :: 0 <= i < |steps| ==> Production(steps[i].0)
    requires After(steps).observedAt <= now
    ensures ParserAccepts(After(steps)) <==> NumbersSafe(After(steps))
    ensures ParserAccepts(Read(After(steps), now)) <==> NumbersSafe(Read(After(steps), now))
    ensures Read(After(steps), now).history == Pruned(AllSamples(steps), now)
  {
    hide Changed, ChangedHistory, Pruned, ParserAccepts, NumbersSafe;
    var s := After(steps);
    RunIsConsistent(steps);
    BackedIsInWindow(s, AllSamples(steps));
    ConsistentIsAccepted(s);
    PruneTwice(AllSamples(steps), s.observedAt, now);
    BackedIsInWindow(Read(s, now), AllSamples(steps));
    ConsistentIsAccepted(Read(s, now));
  }

  predicate ReadingSafe(reading: CoreReading) {
    && SafeInteger(reading.connections)
    && (reading.traffic.Some? ==>
          SafeInteger(reading.traffic.value.uploadTotal) && SafeInteger(reading.traffic.value.downloadTotal))
  }

  /** What a caller can check before the call: its own numbers and the time are safe integers. */
  predicate StepSafe(step: Step) {
    && SafeInteger(step.1)
    && (step.0.ManagedObservation? ==> ReadingSafe(step.0.reading))
    && (step.0.ManagedSample? ==> ReadingSafe(step.0.reading) && SafeOrNull(step.0.memory))
    && (step.0.SubscriptionReady? ==> SafeInteger(step.0.generation))
  }

  ghost predicate RunSafe(steps: seq<Step>) {
    |steps| <= MAX_SAFE_INTEGER && forall i :: 0 <= i < |steps| ==> StepSafe(steps[i])
  }

  /** The parser accepts what is published by call k, or the initial snapshot for k = 0. */
  ghost predicate AcceptedAt(steps: seq<Step>, k: nat)
    requires k <= |steps|
  {
    ParserAccepts(After(steps[..k]))
  }

  lemma OneCallSafe(s: Snapshot, e: Event, now: nat)
    requires NumbersSafe(s)
    ensures NumbersSafe(Recorded(s, e, now)) <==> StepSafe((e, now)) && s.revision < MAX_SAFE_INTEGER
  {
  }

  ghost predicate AllAccepted(steps: seq<Step>) {
    forall k :: 0 <= k <= |steps| ==> AcceptedAt(steps, k)
  }

  lemma {:induction false} AllAcceptedButLast(steps: seq<Step>)
    requires steps != []
    ensures AllAccepted(steps) <==> AllAccepted(steps[..|steps| - 1]) && ParserAccepts(After(steps))
  {
    hide After, ParserAccepts;
    var front := steps[..|steps| - 1];
    assert steps[..|steps|] == steps;
    forall k | 0 <= k < |steps| ensures AcceptedAt(front, k) == AcceptedAt(steps, k) { assert front[..k] == steps[..k]; }
    assert AcceptedAt(steps, |steps|) == ParserAccepts(After(steps));
  }

  lemma RunSafeButLast(steps: seq<Step>)
    requires steps != []
    ensures RunSafe(steps) <==>
      RunSafe(steps[..|steps| - 1]) && StepSafe(steps[|steps| - 1]) && |steps| <= MAX_SAFE_INTEGER
  {
    hide StepSafe;
    var front := steps[..|steps| - 1];
    forall i | 0 <= i < |front| ensures front[i] == steps[i] {}
  }

  lemma {:induction false} AcceptedWhenSafe(steps: seq<Step>)
    requires MonotoneClock(steps) && forall i :: 0 <= i < |steps| ==> Production(steps[i].0)
    ensures AllAccepted(steps) <==> RunSafe(steps)
  {
    hide Recorded, ParserAccepts, NumbersSafe, StepSafe, Production, AllAccepted, RunSafe;
    SnapshotsNeedSafeNumbers(steps, After(steps).observedAt);
    if steps == [] {
      InitiallySafe();
      NothingToAccept(steps);
    } else {
      var last := |steps| - 1;
      var front := steps[..last];
      AcceptedWhenSafe(front);
      SnapshotsNeedSafeNumbers(front, After(front).observedAt);
      RunIsConsistent(front);
      AllAcceptedButLast(steps);
      RunSafeButLast(steps);
      if AllAccepted(front) {
        LastAccepted(front);
        OneCallSafe(After(front), steps[last].0, steps[last].1);
      }
    }
  }

  lemma {:induction false} NothingToAccept(steps: seq<Step>)
    requires steps == []
    ensures RunSafe(steps) && (AllAccepted(steps) <==> ParserAccepts(After(steps)))
  {
    hide ParserAccepts, After;
    assert steps[..0] == steps;
    assert AcceptedAt(steps, 0) == ParserAccepts(After(steps));
  }

  lemma {:induction false} LastAccepted(steps: seq<Step>)
    requires AllAccepted(steps)
    ensures ParserAccepts(After(steps))
  {
    assert AcceptedAt(steps, |steps|) && steps[..|steps|] == steps;
  }

  lemma InitiallySafe()
    ensures NumbersSafe(UNOBSERVED)
  {
  }

  /** Over every run of the production calls with a clock that does not go back, the parser accepts
      everything that is published exactly when every number handed in is a safe integer and there
      are no more calls than safe revisions; a reader of such a run is then accepted exactly at a
      safe time. The history it sees is the last 600 samples of the window out of all samples since
      the core was last replaced. */
  lemma {:induction false} RunsAreAccepted(steps: seq<Step>, now: nat)
    requires MonotoneClock(steps) && forall i :: 0 <= i < |steps| ==> Production(steps[i].0)
    requires After(steps).observedAt <= now
    ensures AllAccepted(steps) <==> RunSafe(steps)
    ensures RunSafe(steps) ==> (ParserAccepts(Read(After(steps), now)) <==> SafeInteger(now))
    ensures Read(After(steps), now).history == Pruned(AllSamples(steps), now)
  {
    hide After, AllSamples, ParserAccepts, Production, StepSafe, Pruned, AllAccepted, RunSafe;
    AcceptedWhenSafe(steps);
    SnapshotsNeedSafeNumbers(steps, now);
    if AllAccepted(steps) { LastAccepted(steps); }
  }

  const TOO_MUCH_TRAFFIC: Step :=
    (ManagedSample(CoreReading(1, Some(Traffic(0, 0, MAX_SAFE_INTEGER + 1, 0)), false), None), 0)

  /** A production call whose delta the parser refuses: one sample of a core that has sent one byte
      more than a JavaScript number can count. */
  lemma UnsafeTotalIsRejected()
    ensures Production(TOO_MUCH_TRAFFIC.0) && MonotoneClock([TOO_MUCH_TRAFFIC])
    ensures !ParserAccepts(After([TOO_MUCH_TRAFFIC]))
  {
    var steps := [TOO_MUCH_TRAFFIC];
    assert steps[..0] == [];
    assert After(steps) == Recorded(UNOBSERVED, TOO_MUCH_TRAFFIC.0, 0);
  }

  // ---- newest wins --------------------------------------------------------------------------------------

  /** acceptNewerObservation. */
  function AcceptNewer(current: Option<Snapshot>, next: Snapshot): Option<Snapshot> {
    if current.None? || next.revision > current.value.revision
       || (next.revision == current.value.revision && next.observedAt > current.value.observedAt)
    then Some(next) else current
  }

  function AcceptAll(delivered: seq<Snapshot>): Option<Snapshot> {
    if delivered == [] then None else AcceptNewer(AcceptAll(delivered[..|delivered| - 1]), delivered[|delivered| - 1])
  }

  predicate AtLeastAsNew(a: Snapshot, b: Snapshot) {
    a.revision > b.revision || (a.revision == b.revision && a.observedAt >= b.observedAt)
  }

  lemma {:induction false} AcceptedIsNewest(delivered: seq<Snapshot>)
    requires delivered != []
    ensures AcceptAll(delivered).Some? && AcceptAll(delivered).value in delivered
    ensures forall d :: d in delivered ==> AtLeastAsNew(AcceptAll(delivered).value, d)
  {
    var k := |delivered| - 1;
    if k > 0 {
      AcceptedIsNewest(delivered[..k]);
    }
    forall d | d in delivered ensures AtLeastAsNew(AcceptAll(delivered).value, d) {
      assert d in delivered[..k] || d == delivered[k];
    }
  }

  /** However the deltas of a run are dropped, repeated and reordered on the way, a viewer that
      received the delta of call `latest` and of no later one ends with exactly that delta. */
  lemma {:induction false} NewestDeltaWins(steps: seq<Step>, delivered: seq<Snapshot>, latest: nat)
    requires MonotoneClock(steps) && forall i :: 0 <= i < |steps| ==> Production(steps[i].0)
    requires latest <= |steps| < U64_MAX
    requires After(steps[..latest]) in delivered
    requires forall d :: d in delivered ==> exists i :: 0 <= i <= latest && d == After(steps[..i])
    ensures AcceptAll(delivered) == Some(After(steps[..latest]))
  {
    hide After, AllSamples, Backed, AppliedConsistent, Production, IsSwitch, AcceptAll;
    AcceptedIsNewest(delivered);
    var kept := AcceptAll(delivered).value;
    var i :| 0 <= i <= latest && kept == After(steps[..i]);
    RunIsConsistent(steps[..i]);
    RunIsConsistent(steps[..latest]);
  }
}
