/** What a run of record calls shows, in terms of the calls alone
    (src-tauri/src/application/observability.rs). */
module ObservationMeaning {
  import opened Common
  import opened Observations

  predicate IsReading(e: Event) { e.ManagedObservation? || e.ManagedSample? }

  predicate Measures(e: Event) { IsReading(e) && e.reading.traffic.Some? }

  /** After this call nothing is known of the core's traffic and connections. */
  predicate Forgets(e: Event) {
    match e
    case ManagedReady => true
    case ManagedStopped => true
    case ManagedRecovery => true
    case SubscriptionReady(_, _, _, _) => true
    case ManagedFailure(lifecycle, _) => lifecycle.Some? && lifecycle.value != Ready
    case _ => false
  }

  /** After this call no configuration is shown as applied. A recovery keeps what was applied. */
  predicate Unapplies(e: Event) { Forgets(e) && !e.ManagedRecovery? && !e.SubscriptionReady? }

  /** The lifecycle a call reports, if it reports one. */
  function Reports(e: Event): Option<Lifecycle> {
    match e
    case ManagedObservation(_) => Some(Ready)
    case ManagedSample(_, _) => Some(Ready)
    case ManagedReady => Some(Ready)
    case ManagedStopped => Some(Stopped)
    case ManagedRecovery => Some(RecoveryRequired)
    case ManagedFailure(lifecycle, _) => lifecycle
    case SwitchChanged(_) => None
    case SubscriptionReady(_, _, _, _) => Some(Ready)
  }

  ghost predicate NoneAfter(steps: seq<Step>, i: nat, unwanted: Event -> bool) {
    forall j :: i < j < |steps| ==> !unwanted(steps[j].0)
  }

  // ---- the history ----------------------------------------------------------------------------------------

  /** The point comes from call i: its time and its rates. Nothing has been forgotten since, and no
      later call measured in the same millisecond. */
  ghost predicate ComesFrom(steps: seq<Step>, i: nat, p: Point)
    requires i < |steps|
  {
    var (e, now) := steps[i];
    && Measures(e) && p == Point(now, e.reading.traffic.value.uploadRate, e.reading.traffic.value.downloadRate)
    && NoneAfter(steps, i, Forgets) && forall j :: i < j < |steps| && Measures(steps[j].0) ==> steps[j].1 != now
  }

  lemma {:induction false} SamplesInTime(steps: seq<Step>)
    requires MonotoneClock(steps)
    ensures Increasing(AllSamples(steps))
    ensures steps != [] ==> UpTo(AllSamples(steps), steps[|steps| - 1].1)
  {
    if steps != [] {
      var k := |steps| - 1;
      SamplesInTime(steps[..k]);
      var raw := AllSamples(steps[..k]);
      if k > 0 { assert steps[..k][k - 1].1 <= steps[k].1; }
      forall q | q in raw ensures q.sampledAt <= steps[k].1 {}
      if Measures(steps[k].0) { WithPointIncreases(raw, PointOf(steps[k])); }
    }
  }

  function PointOf(step: Step): Point
    requires Measures(step.0)
  {
    Point(step.1, step.0.reading.traffic.value.uploadRate, step.0.reading.traffic.value.downloadRate)
  }

  lemma WithPointHolds(raw: seq<Point>, p: Point)
    requires Increasing(raw) && UpTo(raw, p.sampledAt)
    ensures forall q :: q in WithPoint(raw, p) <==> q == p || (q in raw && q.sampledAt != p.sampledAt)
  {
    var grown := WithPoint(raw, p);
    var n := |raw| - 1;
    forall q ensures q in grown <==> q == p || (q in raw && q.sampledAt != p.sampledAt) {
      if q in raw && q.sampledAt != p.sampledAt {
        var i :| 0 <= i < |raw| && raw[i] == q;
        assert grown[i] == q;
      }
      if q in grown {
        var i :| 0 <= i < |grown| && grown[i] == q;
        if i < n { assert raw[i] in raw && raw[i].sampledAt < raw[n].sampledAt && raw[n] in raw; }
        if i == n && grown != raw + [p] { assert q == p; }
        if i == n && grown == raw + [p] { assert q == raw[n] && q.sampledAt != p.sampledAt; }
      }
      assert grown[|grown| - 1] == p;
    }
  }

  /** The samples of a run are exactly the points that come from its calls. */
  lemma {:induction false} SamplesExactly(steps: seq<Step>, p: Point)
    requires MonotoneClock(steps)
    ensures p in AllSamples(steps) <==> exists i :: 0 <= i < |steps| && ComesFrom(steps, i, p)
  {
    if steps != [] {
      var k := |steps| - 1;
      var before := steps[..k];
      SamplesExactly(before, p);
      SamplesInTime(before);
      LastCall(steps, p);
      if Measures(steps[k].0) {
        if k > 0 { assert before[k - 1].1 <= steps[k].1; }
        WithPointHolds(AllSamples(before), PointOf(steps[k]));
      }
    }
  }

  /** Where a point comes from once there is one more call. */
  lemma LastCall(steps: seq<Step>, p: Point)
    requires steps != []
    ensures var k := |steps| - 1; var (e, now) := steps[k];
      (exists i :: 0 <= i < |steps| && ComesFrom(steps, i, p)) <==>
        || (Measures(e) && p == PointOf(steps[k]))
        || (!Forgets(e) && (Measures(e) ==> p.sampledAt != now) && exists i :: 0 <= i < k && ComesFrom(steps[..k], i, p))
  {
    var k := |steps| - 1;
    var before := steps[..k];
    forall i | 0 <= i < k
      ensures ComesFrom(steps, i, p) <==>
        ComesFrom(before, i, p) && !Forgets(steps[k].0) && (Measures(steps[k].0) ==> p.sampledAt != steps[k].1)
    {
      EarlierCall(steps, i, p);
    }
    if Measures(steps[k].0) && p == PointOf(steps[k]) { assert ComesFrom(steps, k, p); }
    if i :| 0 <= i < |steps| && ComesFrom(steps, i, p) { if i < k { assert ComesFrom(before, i, p); } }
    if i :| 0 <= i < k && ComesFrom(before, i, p) { assert ComesFrom(steps, i, p) <==> !Forgets(steps[k].0) && (Measures(steps[k].0) ==> p.sampledAt != steps[k].1); }
  }

  lemma EarlierCall(steps: seq<Step>, i: nat, p: Point)
    requires i < |steps| - 1
    ensures var k := |steps| - 1;
      ComesFrom(steps, i, p) <==>
        ComesFrom(steps[..k], i, p) && !Forgets(steps[k].0) && (Measures(steps[k].0) ==> p.sampledAt != steps[k].1)
  {
    var k := |steps| - 1;
    var before := steps[..k];
    assert forall j :: 0 <= j < k ==> before[j] == steps[j];
    if ComesFrom(steps, i, p) { assert steps[k] == steps[k]; }
  }

  /** Of a list of points pruning keeps the last 600 that are at most ten minutes old. */
  lemma PruningKeeps(history: seq<Point>, now: nat, i: nat)
    requires Increasing(history) && i < |history|
    ensures history[i] in Pruned(history, now) <==> history[i].sampledAt + 600_000 >= now && i + 600 >= |history|
  {
    PrunedEquals(history, now);
    OlderThanSplits(history, Oldest(now));
    var k := Kept(history, now);
    var out := history[k..];
    if history[i] in out {
      var j :| 0 <= j < |out| && out[j] == history[i];
      assert history[k + j] == history[i];
      assert k + j == i;
    }
    if i >= k { assert out[i - k] == history[i]; }
  }

  /** What a reader's history is: in the order of time, those points of the run that are among its
      newest 600 and at most ten minutes old. */
  lemma {:induction false} HistoryShows(steps: seq<Step>, now: nat, p: Point)
    requires MonotoneClock(steps) && forall i :: 0 <= i < |steps| ==> Production(steps[i].0)
    requires After(steps).observedAt <= now
    ensures Increasing(Read(After(steps), now).history)
    ensures p in Read(After(steps), now).history <==>
      exists k :: 0 <= k < |AllSamples(steps)| && AllSamples(steps)[k] == p
                  && p.sampledAt + 600_000 >= now && k + 600 >= |AllSamples(steps)|
    ensures p in AllSamples(steps) <==> exists i :: 0 <= i < |steps| && ComesFrom(steps, i, p)
  {
    RunsAreAccepted(steps, now);
    SamplesExactly(steps, p);
    SamplesInTime(steps);
    hide ComesFrom, After, AllSamples, Pruned, RunSafe, AllAccepted, ParserAccepts;
    var all := AllSamples(steps);
    PrunedIsASuffix(all, now);
    forall k | 0 <= k < |all| && all[k] == p
      ensures p in Pruned(all, now) <==> p.sampledAt + 600_000 >= now && k + 600 >= |all|
    {
      PruningKeeps(all, now, k);
    }
  }

  // ---- the rest of the snapshot --------------------------------------------------------------------------------

  /** What a call reads of the core stays until a later call reads it or forgets it. */
  ghost predicate ShowsReading(steps: seq<Step>, i: nat)
    requires i < |steps|
  {
    var e, shown := steps[i].0, After(steps);
    && (Measures(e) && NoneAfter(steps, i, (o: Event) => Measures(o) || Forgets(o)) ==> shown.traffic == e.reading.traffic.value)
    && (IsReading(e) && NoneAfter(steps, i, (o: Event) => IsReading(o) || Forgets(o)) ==> shown.connections == e.reading.connections)
    && (Forgets(e) && NoneAfter(steps, i, Measures) ==> shown.traffic == NO_TRAFFIC)
    && (Forgets(e) && NoneAfter(steps, i, IsReading) ==> shown.connections == 0)
    && (e.ManagedSample? && NoneAfter(steps, i, (o: Event) => o.ManagedSample? || Forgets(o)) ==> shown.coreMemory == e.memory)
    && (Forgets(e) && NoneAfter(steps, i, (o: Event) => o.ManagedSample?) ==> shown.coreMemory == None)
  }

  /** The applied pair and the lifecycle stay until a later call reports others. */
  ghost predicate ShowsApplied(steps: seq<Step>, i: nat)
    requires i < |steps|
  {
    var e, shown := steps[i].0, After(steps);
    && (e.SubscriptionReady? && NoneAfter(steps, i, (o: Event) => o.SubscriptionReady? || Unapplies(o)) ==>
          shown.appliedId == Some(e.id) && shown.appliedGeneration == Some(e.generation))
    && (Unapplies(e) && NoneAfter(steps, i, (o: Event) => o.SubscriptionReady?) ==>
          shown.appliedId == None && shown.appliedGeneration == None)
    && (Reports(e).Some? && NoneAfter(steps, i, (o: Event) => Reports(o).Some?) ==> shown.lifecycle == Reports(e).value)
  }

  /** Over any run each call's word stands until a later call speaks to the same thing. */
  lemma {:induction false} LastWordStays(steps: seq<Step>, i: nat)
    requires i < |steps|
    ensures ShowsReading(steps, i) && ShowsApplied(steps, i)
  {
    hide ShowsReading, ShowsApplied;
    StepAfter(steps);
    if i < |steps| - 1 {
      LastWordStays(steps[..|steps| - 1], i);
      ReadingStays(steps, i);
      AppliedStays(steps, i);
    } else {
      JustCalled(steps);
    }
  }

  lemma {:induction false} JustCalled(steps: seq<Step>)
    requires steps != [] && After(steps) == Recorded(After(steps[..|steps| - 1]), steps[|steps| - 1].0, steps[|steps| - 1].1)
    ensures ShowsReading(steps, |steps| - 1) && ShowsApplied(steps, |steps| - 1)
  {
    hide After, Pruned, ChangedHistory;
  }

  lemma NoneMore(steps: seq<Step>, i: nat)
    requires i < |steps| - 1
    ensures forall unwanted: Event -> bool :: NoneAfter(steps, i, unwanted) ==>
      NoneAfter(steps[..|steps| - 1], i, unwanted) && !unwanted(steps[|steps| - 1].0)
  {
  }

  lemma {:induction false} ReadingStays(steps: seq<Step>, i: nat)
    requires i < |steps| - 1 && ShowsReading(steps[..|steps| - 1], i)
    requires After(steps) == Recorded(After(steps[..|steps| - 1]), steps[|steps| - 1].0, steps[|steps| - 1].1)
    ensures ShowsReading(steps, i)
  {
    hide After, Pruned, ChangedHistory, NoneAfter, WithoutReadySwitch;
    NoneMore(steps, i);
  }

  lemma {:induction false} AppliedStays(steps: seq<Step>, i: nat)
    requires i < |steps| - 1 && ShowsApplied(steps[..|steps| - 1], i)
    requires After(steps) == Recorded(After(steps[..|steps| - 1]), steps[|steps| - 1].0, steps[|steps| - 1].1)
    ensures ShowsApplied(steps, i)
  {
    hide After, Pruned, ChangedHistory, NoneAfter, WithoutReadySwitch;
    NoneMore(steps, i);
  }

  lemma {:induction false} StepAfter(steps: seq<Step>)
    requires steps != []
    ensures After(steps) == Recorded(After(steps[..|steps| - 1]), steps[|steps| - 1].0, steps[|steps| - 1].1)
  {
  }

  // ---- the operation shown -----------------------------------------------------------------------------------

  /** The operation a call opens or brings to its good end. */
  function Opens(e: Event): Option<string> {
    match e
    case SwitchChanged(change) => if change.status == Queued then Some(change.operationId) else None
    case SubscriptionReady(_, _, operationId, _) => operationId
    case _ => None
  }

  /** Call i opened this operation, and none has been opened since. */
  ghost predicate LastOpened(steps: seq<Step>, i: nat, operationId: string) {
    i < |steps| && Opens(steps[i].0) == Some(operationId) && NoneAfter(steps, i, (e: Event) => Opens(e).Some?)
  }

  /** What is shown always belongs to the operation opened last: a late word of an earlier operation is
      never shown. */
  lemma {:induction false} OnlyTheLastOperationIsShown(steps: seq<Step>)
    ensures After(steps).switch.Some? ==> exists i :: LastOpened(steps, i, After(steps).switch.value.operationId)
    ensures After(steps).switch.Some? && After(steps).switch.value.status != SwitchReady ==>
      exists i :: 0 <= i < |steps| && steps[i].0 == SwitchChanged(After(steps).switch.value)
  {
    hide After, NoneAfter, Opens;
    NothingShown();
    if steps != [] {
      var k := |steps| - 1;
      var before := steps[..k];
      OnlyTheLastOperationIsShown(before);
      StepAfter(steps);
      SwitchStep(After(before), steps[k].0, steps[k].1);
      hide Recorded;
      var shown := After(steps).switch;
      if shown.Some? {
        OpenedLast(steps, shown.value.operationId);
        if shown.value.status != SwitchReady && steps[k].0 != SwitchChanged(shown.value) {
          var i :| 0 <= i < k && before[i].0 == SwitchChanged(shown.value);
          assert steps[i].0 == SwitchChanged(shown.value);
        }
      }
    }
  }

  lemma NothingShown()
    ensures After([]).switch.None?
  {
  }

  lemma SwitchStep(s: Snapshot, e: Event, now: nat)
    ensures var shown := Recorded(s, e, now).switch;
      && (shown.Some? && Opens(e) != Some(shown.value.operationId) ==>
            s.switch.Some? && s.switch.value.operationId == shown.value.operationId && Opens(e).None?)
      && (shown.Some? && shown.value.status != SwitchReady && e != SwitchChanged(shown.value) ==> s.switch == shown)
  {
    hide Pruned, ChangedHistory;
  }

  lemma OpenedLast(steps: seq<Step>, operationId: string)
    requires steps != []
    ensures var k := |steps| - 1;
      Opens(steps[k].0) == Some(operationId)
      || (Opens(steps[k].0).None? && exists i :: LastOpened(steps[..k], i, operationId))
      ==> exists i :: LastOpened(steps, i, operationId)
  {
    var k := |steps| - 1;
    if Opens(steps[k].0) == Some(operationId) { assert LastOpened(steps, k, operationId); }
    if i :| LastOpened(steps[..k], i, operationId) {
      if Opens(steps[k].0).None? { assert LastOpened(steps, i, operationId); }
    }
  }
}
