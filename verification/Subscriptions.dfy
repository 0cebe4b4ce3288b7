/** The subscription writers as they run, step by step, with what other writers do between their
    two critical sections; and the scheduler's pass
    (src-tauri/src/application/subscription_management.rs, subscription_scheduler.rs). Each commit
    is proved to save the operation's delta at the state it finds. */
module Subscriptions {
  import opened Common
  import opened Domain
  import opened Edits
  import CommitLaws
  import DeleteIntegrity
  import Routing

  const MINUTE_MS: nat := 60_000

  // ---- 64-bit saturating arithmetic ------------------------------------------------------------------

  function Clamp(n: nat): nat { if n <= U64_MAX then n else U64_MAX }

  function SaturatingAdd(a: nat, b: nat): nat { Clamp(a + b) }

  function SaturatingMul(a: nat, b: nat): nat { Clamp(a * b) }

  function Deadline(at: nat, minutes: nat): nat {
    SaturatingAdd(at, SaturatingMul(minutes, MINUTE_MS))
  }

  /** Saturation never makes a deadline earlier for a clock in the safe range. */
  lemma DeadlineNotEarlier(at: nat, minutes: nat, now: nat)
    requires now <= MAX_SAFE_INTEGER && now >= Deadline(at, minutes)
    ensures now >= at + minutes * MINUTE_MS
  {
  }

  // ---- which rows are due -----------------------------------------------------------------------------

  function LaterOf(a: Option<nat>, b: Option<nat>): nat {
    if a.Some? && b.Some? then (if a.value >= b.value then a.value else b.value)
    else if a.Some? then a.value
    else if b.Some? then b.value
    else 0
  }

  predicate Due(row: Subscription, deadlines: map<Id, nat>, now: nat) {
    && row.source.Remote? && row.updatePolicy.allowAutoUpdate && row.updatePolicy.intervalMinutes.Some?
    && now >= Deadline(LaterOf(row.lastAttemptAtMs, row.lastSuccessAtMs), row.updatePolicy.intervalMinutes.value)
    && (row.id in deadlines ==> now >= deadlines[row.id])
  }

  function DueRows(rows: seq<Subscription>, deadlines: map<Id, nat>, now: nat): seq<Subscription> {
    Filter(rows, (row: Subscription) => Due(row, deadlines, now))
  }

  // ---- the attempts this process remembers --------------------------------------------------------------

  datatype Attempt = Attempt(id: Id, interval: Option<nat>, at: nat)

  function Remembered(deadlines: map<Id, nat>, a: Attempt): map<Id, nat> {
    if a.interval.None? then deadlines else deadlines[a.id := Deadline(a.at, a.interval.value)]
  }

  function DeadlinesAfter(attempts: seq<Attempt>): map<Id, nat> {
    if attempts == [] then map[]
    else Remembered(DeadlinesAfter(attempts[..|attempts| - 1]), attempts[|attempts| - 1])
  }

  /** Since attempt i the clock has not gone back and the interval of its subscription has not
      changed. */
  ghost predicate Undisturbed(attempts: seq<Attempt>, i: nat)
    requires i < |attempts|
  {
    forall j :: i < j < |attempts| && attempts[j].id == attempts[i].id ==>
      attempts[j].at >= attempts[i].at && (attempts[j].interval.None? || attempts[j].interval == attempts[i].interval)
  }

  lemma {:induction false} DeadlineStands(attempts: seq<Attempt>, i: nat)
    requires i < |attempts| && attempts[i].interval.Some? && Undisturbed(attempts, i)
    ensures attempts[i].id in DeadlinesAfter(attempts)
    ensures DeadlinesAfter(attempts)[attempts[i].id] >= Deadline(attempts[i].at, attempts[i].interval.value)
  {
    var k := |attempts| - 1;
    if i < k {
      DeadlineStands(attempts[..k], i);
    }
  }

  /** Some attempt for this subscription, with an interval that has not changed since, is less than
      the interval old. */
  ghost predicate TooEarly(attempts: seq<Attempt>, id: Id, now: nat) {
    exists i :: 0 <= i < |attempts| && attempts[i].id == id && attempts[i].interval.Some? && Undisturbed(attempts, i)
                && now < attempts[i].at + attempts[i].interval.value * MINUTE_MS
  }

  lemma {:induction false} NotDueYet(attempts: seq<Attempt>, id: Id, now: nat)
    requires TooEarly(attempts, id, now) && now <= MAX_SAFE_INTEGER
    ensures id in DeadlinesAfter(attempts) && now < DeadlinesAfter(attempts)[id]
  {
    var i :| 0 <= i < |attempts| && attempts[i].id == id && attempts[i].interval.Some? && Undisturbed(attempts, i)
             && now < attempts[i].at + attempts[i].interval.value * MINUTE_MS;
    DeadlineStands(attempts, i);
    if now >= Deadline(attempts[i].at, attempts[i].interval.value) {
      DeadlineNotEarlier(attempts[i].at, attempts[i].interval.value, now);
    }
  }

  /** When a row is updated automatically, in terms of its fields and of the attempts made: it has a
      source, automatic updates are allowed, an interval is set, and the interval has passed since
      the last saved attempt or success and since the last attempt of this process that had one. */
  ghost predicate TimeHasCome(row: Subscription, attempts: seq<Attempt>, now: nat) {
    && row.source.Remote? && row.updatePolicy.allowAutoUpdate && row.updatePolicy.intervalMinutes.Some?
    && (row.lastAttemptAtMs.Some? ==> now >= row.lastAttemptAtMs.value + row.updatePolicy.intervalMinutes.value * 60_000)
    && (row.lastSuccessAtMs.Some? ==> now >= row.lastSuccessAtMs.value + row.updatePolicy.intervalMinutes.value * 60_000)
    && (row.lastAttemptAtMs.None? && row.lastSuccessAtMs.None? ==> now >= row.updatePolicy.intervalMinutes.value * 60_000)
    && forall i :: 0 <= i < |attempts| && IsLast(attempts, i, row.id) ==> now >= attempts[i].at + attempts[i].interval.value * 60_000
  }

  /** Attempt i is the last one of this subscription that had an interval. */
  ghost predicate IsLast(attempts: seq<Attempt>, i: nat, id: Id)
    requires i < |attempts|
  {
    && attempts[i].id == id && attempts[i].interval.Some?
    && forall j :: i < j < |attempts| && attempts[j].id == id ==> attempts[j].interval.None?
  }

  lemma {:induction false} LastAttemptCounts(attempts: seq<Attempt>, id: Id)
    ensures id in DeadlinesAfter(attempts) <==> exists i :: 0 <= i < |attempts| && IsLast(attempts, i, id)
    ensures forall i :: 0 <= i < |attempts| && IsLast(attempts, i, id) ==>
      id in DeadlinesAfter(attempts) && DeadlinesAfter(attempts)[id] == Deadline(attempts[i].at, attempts[i].interval.value)
  {
    if attempts != [] {
      var k := |attempts| - 1;
      var before := attempts[..k];
      LastAttemptCounts(before, id);
      if attempts[k].id == id && attempts[k].interval.Some? {
        assert IsLast(attempts, k, id);
      } else {
        forall i | 0 <= i < k ensures IsLast(attempts, i, id) <==> IsLast(before, i, id) {}
      }
    }
  }

  lemma {:induction false} DueExactly(row: Subscription, attempts: seq<Attempt>, now: nat)
    requires now <= MAX_SAFE_INTEGER
    ensures Due(row, DeadlinesAfter(attempts), now) <==> TimeHasCome(row, attempts, now)
  {
    LastAttemptCounts(attempts, row.id);
    hide DeadlinesAfter;
    var deadlines := DeadlinesAfter(attempts);
    if row.updatePolicy.intervalMinutes.Some? {
      PastDeadline(LaterOf(row.lastAttemptAtMs, row.lastSuccessAtMs), row.updatePolicy.intervalMinutes.value, now);
    }
    forall i | 0 <= i < |attempts| && IsLast(attempts, i, row.id)
      ensures now >= deadlines[row.id] <==> now >= attempts[i].at + attempts[i].interval.value * 60_000
    {
      PastDeadline(attempts[i].at, attempts[i].interval.value, now);
    }
  }

  lemma PastDeadline(at: nat, minutes: nat, now: nat)
    requires now <= MAX_SAFE_INTEGER
    ensures now >= Deadline(at, minutes) <==> now >= at + minutes * 60_000
  {
  }

  /** A saved attempt defers the row even for a process that remembers nothing. */
  lemma SavedAttemptDefers(s: AppState, snapshot: UpdateSnapshot, at: nat, now: nat, i: nat)
    requires AttemptDelta(s, snapshot, at).Ok? && now <= MAX_SAFE_INTEGER
    requires Routing.Position(s.subscriptions, SubscriptionId, snapshot.subscriptionId) == Some(i)
    requires s.subscriptions[i].updatePolicy.intervalMinutes.Some?
    requires now < at + s.subscriptions[i].updatePolicy.intervalMinutes.value * MINUTE_MS
    ensures var t := AttemptDelta(s, snapshot, at).value;
      && |t.subscriptions| == |s.subscriptions|
      && t == s.(subscriptions := s.subscriptions[i := s.subscriptions[i].(lastAttemptAtMs := Some(at))])
      && !Due(t.subscriptions[i], map[], now)
  {
    hide Domain.Valid, TakeSnapshot;
    var row := AttemptDelta(s, snapshot, at).value.subscriptions[i];
    var minutes := row.updatePolicy.intervalMinutes.value;
    if Due(row, map[], now) {
      DeadlineNotEarlier(LaterOf(row.lastAttemptAtMs, row.lastSuccessAtMs), minutes, now);
    }
  }

  // ---- outcomes outside the model ------------------------------------------------------------------------

  /** `closing` marks a download that was abandoned because the program is closing. */
  datatype Download = Received(fetched: Fetched, parses: bool) | DownloadFailed(error: OpError, closing: bool)

  /** `interference` is what other writers left in the register by the time this gate is taken. */
  datatype SaveEnv = SaveEnv(
    interference: Option<Option<AppState>>, gateFree: bool, loads: bool, closing: bool, saves: bool)

  datatype UpdateEnv = UpdateEnv(
    guard: bool, gateFree: bool, loads: bool, download: Download, clock: Option<nat>, attempt: SaveEnv, commit: SaveEnv)

  datatype EditEnv = EditEnv(
    guard: bool, gateFree: bool, loads: bool, download: Download, clock: Option<nat>, attempt: SaveEnv, commit: SaveEnv)

  /** Pasted text for a subscription without a source. */
  datatype Pasted = Pasted(parsed: Parsed, parses: bool)

  /** A 304 answer is only usable with the nodes and the unedited document it refers to. */
  predicate CacheUsable(snapshot: UpdateSnapshot) {
    snapshot.nodes != [] && snapshot.document.Some? && !snapshot.document.value.localOverride
  }

  function Found(env: SaveEnv, held: Option<AppState>): Option<AppState> {
    if env.interference.Some? then env.interference.value else held
  }

  predicate SaveOpen(env: SaveEnv) { env.gateFree && env.loads && !env.closing && env.saves }

  predicate Abandoned(download: Download) {
    download.DownloadFailed? && download.closing && download.error == Busy
  }

  // ---- what the critical sections leave ------------------------------------------------------------------

  predicate AttemptSaves(snapshot: UpdateSnapshot, at: nat, env: SaveEnv, held: Option<AppState>) {
    SaveOpen(env) && Found(env, held).Some? && AttemptDelta(Found(env, held).value, snapshot, at).Ok?
  }

  function AfterAttempt(snapshot: UpdateSnapshot, at: nat, env: SaveEnv, held: Option<AppState>): Option<AppState> {
    if AttemptSaves(snapshot, at, env, held) then Some(AttemptDelta(Found(env, held).value, snapshot, at).value)
    else Found(env, held)
  }

  predicate UpdateSaves(snapshot: UpdateSnapshot, fetched: Fetched, now: nat, env: SaveEnv, held: Option<AppState>) {
    SaveOpen(env) && Found(env, held).Some? && UpdateDelta(Found(env, held).value, snapshot, fetched, now).Ok?
  }

  function AfterCommit(snapshot: UpdateSnapshot, fetched: Fetched, now: nat, env: SaveEnv, held: Option<AppState>): Option<AppState> {
    if UpdateSaves(snapshot, fetched, now, env, held)
    then Some(UpdateDelta(Found(env, held).value, snapshot, fetched, now).value)
    else Found(env, held)
  }

  // ---- what an update does -----------------------------------------------------------------------------------

  /** The snapshot an update starts from. */
  function Begun(held: Option<AppState>, id: Id, env: UpdateEnv): Option<UpdateSnapshot> {
    if !env.guard || Blank(id) || |id| > 128 || !env.gateFree || !env.loads || held.None? then None
    else
      var snapshot := TakeSnapshot(held.value, id);
      if snapshot.Err? then None else Some(snapshot.value)
  }

  predicate Downloads(snapshot: UpdateSnapshot, content: Option<Pasted>) {
    snapshot.source.Remote? && content.None? && snapshot.remoteRequest.Some?
  }

  /** What the download brought, if the update can use it. */
  function Usable(snapshot: UpdateSnapshot, download: Download): Option<Fetched> {
    if download.DownloadFailed? then None
    else if download.fetched.Modified? then (if download.parses then Some(download.fetched) else None)
    else if CacheUsable(snapshot) then Some(download.fetched) else None
  }

  /** What there is to commit: the downloaded text or answer, or the pasted text. */
  function ToCommit(snapshot: UpdateSnapshot, content: Option<Pasted>, download: Download): Option<Fetched> {
    if Downloads(snapshot, content) then Usable(snapshot, download)
    else if snapshot.source.Manual? && content.Some? && content.value.parses
    then Some(Modified(content.value.parsed, NO_METADATA, None))
    else None
  }

  /** The snapshot and time of a download that has finished for any reason but closing. */
  function FinishedDownload(held: Option<AppState>, id: Id, content: Option<Pasted>, env: UpdateEnv):
      Option<(UpdateSnapshot, nat)>
  {
    var begun := Begun(held, id, env);
    if begun.Some? && Downloads(begun.value, content) && !Abandoned(env.download) && env.clock.Some?
    then Some((begun.value, env.clock.value)) else None
  }

  predicate CommitSucceeds(snapshot: UpdateSnapshot, content: Option<Pasted>, env: UpdateEnv, held: Option<AppState>) {
    var fetched := ToCommit(snapshot, content, env.download);
    env.clock.Some? && fetched.Some? && UpdateSaves(snapshot, fetched.value, env.clock.value, env.commit, held)
  }

  function RegisterAfterDownload(snapshot: UpdateSnapshot, content: Option<Pasted>, env: UpdateEnv, held: Option<AppState>):
      Option<AppState>
  {
    var fetched := ToCommit(snapshot, content, env.download);
    if env.clock.None? then held
    else if fetched.Some? then AfterCommit(snapshot, fetched.value, env.clock.value, env.commit, held)
    else if Downloads(snapshot, content) && !Abandoned(env.download)
    then AfterAttempt(snapshot, env.clock.value, env.attempt, held)
    else held
  }

  predicate UpdateSucceeds(held: Option<AppState>, id: Id, content: Option<Pasted>, env: UpdateEnv) {
    var begun := Begun(held, id, env);
    begun.Some? && CommitSucceeds(begun.value, content, env, held)
  }

  function RegisterAfterUpdate(held: Option<AppState>, id: Id, content: Option<Pasted>, env: UpdateEnv): Option<AppState> {
    var begun := Begun(held, id, env);
    if begun.None? then held else RegisterAfterDownload(begun.value, content, env, held)
  }

  /** The attempt an update is remembered as. */
  function AttemptOfUpdate(held: Option<AppState>, id: Id, content: Option<Pasted>, env: UpdateEnv): seq<Attempt> {
    var done := FinishedDownload(held, id, content, env);
    if done.Some? then [Attempt(id, done.value.0.updatePolicy.intervalMinutes, done.value.1)] else []
  }

  // ---- what a scheduler pass does ---------------------------------------------------------------------------

  /** What update k of a pass finds. */
  function HeldAt(held: Option<AppState>, between: Option<Option<AppState>>): Option<AppState> {
    if between.Some? then between.value else held
  }

  function RegisterAfterPass(
      held: Option<AppState>, ids: seq<Id>, between: nat -> Option<Option<AppState>>, envs: nat -> UpdateEnv): Option<AppState>
  {
    if ids == [] then held
    else
      var last := |ids| - 1;
      RegisterAfterUpdate(HeldAt(RegisterAfterPass(held, ids[..last], between, envs), between(last)), ids[last], None, envs(last))
  }

  function AttemptsOfPass(
      held: Option<AppState>, ids: seq<Id>, between: nat -> Option<Option<AppState>>, envs: nat -> UpdateEnv): (r: seq<Attempt>)
    ensures |r| <= |ids| && forall a :: a in r ==> a.id in ids
  {
    if ids == [] then []
    else
      var last := |ids| - 1;
      AttemptsOfPass(held, ids[..last], between, envs)
      + AttemptOfUpdate(HeldAt(RegisterAfterPass(held, ids[..last], between, envs), between(last)), ids[last], None, envs(last))
  }

  /** What a finished update leaves of its row, on top of whatever others did to it meanwhile: the
      answer merged in, or, when the download was of no use, nothing but the attempt's time. */
  lemma UpdateLeavesItsRow(held: Option<AppState>, id: Id, content: Option<Pasted>, env: UpdateEnv)
    requires Begun(held, id, env).Some? && env.clock.Some?
    ensures var snapshot, now := Begun(held, id, env).value, env.clock.value;
      var fetched := ToCommit(snapshot, content, env.download);
      && (UpdateSucceeds(held, id, content, env) ==>
            && fetched.Some? && RegisterAfterUpdate(held, id, content, env).Some?
            && CommitLaws.UpdateStep(Found(env.commit, held).value, RegisterAfterUpdate(held, id, content, env).value,
                                     id, Some(CommitLaws.Answer(fetched.value, now)))
            && RowOf(Found(env.commit, held), id).Some?
            && RowOf(RegisterAfterUpdate(held, id, content, env), id)
                 == Some(CommitLaws.AfterUpdate(RowOf(Found(env.commit, held), id).value, CommitLaws.Answer(fetched.value, now))))
      && (fetched.None? && FinishedDownload(held, id, content, env).Some? && AttemptSaves(snapshot, now, env.attempt, held) ==>
            && RowOf(Found(env.attempt, held), id).Some?
            && RowOf(RegisterAfterUpdate(held, id, content, env), id)
                 == Some(RowOf(Found(env.attempt, held), id).value.(lastAttemptAtMs := Some(now))))
  {
    hide UpdateDelta, CommitLaws.AfterUpdate, TakeSnapshot, AttemptDelta;
    var snapshot, now := Begun(held, id, env).value, env.clock.value;
    SnapshotNamesItsId(held.value, id);
    var fetched := ToCommit(snapshot, content, env.download);
    if UpdateSucceeds(held, id, content, env) {
      CommitLaws.UpdateChangesTheRow(Found(env.commit, held).value, snapshot, CommitLaws.Answer(fetched.value, now));
    }
    if fetched.None? && AttemptSaves(snapshot, now, env.attempt, held) {
      AttemptStampsTheRow(Found(env.attempt, held).value, snapshot, now);
    }
  }

  function RowOf(held: Option<AppState>, id: Id): Option<Subscription> {
    if held.None? then None else CommitLaws.RowOf(held.value, id)
  }

  lemma AttemptStampsTheRow(s: AppState, snapshot: UpdateSnapshot, at: nat)
    requires AttemptDelta(s, snapshot, at).Ok?
    ensures var id := snapshot.subscriptionId;
      && CommitLaws.RowOf(s, id).Some?
      && CommitLaws.RowOf(AttemptDelta(s, snapshot, at).value, id) == Some(CommitLaws.RowOf(s, id).value.(lastAttemptAtMs := Some(at)))
  {
    hide Domain.Valid, NodesOf, ProvidersOf;
    CommitLaws.SamePosition(s.subscriptions, AttemptDelta(s, snapshot, at).value.subscriptions, snapshot.subscriptionId);
  }

  // ---- what an edit does ---------------------------------------------------------------------------------------

  /** The edited row, at its place. */
  function EditBegun(held: Option<AppState>, input: EditInput, env: EditEnv): Option<(nat, Subscription)> {
    if !env.guard || Blank(input.id) || |input.id| > 128 || !env.gateFree || !env.loads || held.None? then None
    else
      var at := Routing.Position(held.value.subscriptions, SubscriptionId, input.id);
      if at.None? then None
      else
        var edited := EditedRow(held.value.subscriptions[at.value], input);
        if edited.Err? then None else Some((at.value, edited.value))
  }

  /** The text that follows a changed source, if the edit can use it. */
  function EditDownload(download: Download, now: nat): Option<Edits.Download> {
    if download.DownloadFailed? || download.fetched.NotModified? || !download.parses then None
    else Some(Edits.Download(download.fetched.parsed, download.fetched.metadata, download.fetched.profileInterval, now))
  }

  /** The attempt a finished download of an edit is remembered as: with the policy that is being
      edited in, unless it brought no text. */
  function EditAttempt(snapshot: UpdateSnapshot, policy: UpdatePolicy, env: EditEnv): Option<Attempt> {
    if Abandoned(env.download) || env.clock.None? then None
    else if env.download.DownloadFailed? || env.download.fetched.NotModified?
    then Some(Attempt(snapshot.subscriptionId, snapshot.updatePolicy.intervalMinutes, env.clock.value))
    else Some(Attempt(snapshot.subscriptionId, Adopted(policy, env.download.fetched.profileInterval).intervalMinutes, env.clock.value))
  }

  /** How far an edit gets before its commit. */
  datatype EditStage =
    | EditRefused
    | EditFailed(snapshot: UpdateSnapshot, attempt: Option<Attempt>)
    | EditReady(attempt: Option<Attempt>, download: Option<Edits.Download>)

  function StageOf(held: Option<AppState>, input: EditInput, env: EditEnv): EditStage {
    var begun := EditBegun(held, input, env);
    if begun.None? then EditRefused
    else if begun.value.1.source == held.value.subscriptions[begun.value.0].source then EditReady(None, None)
    else
      var snapshot := TakeSnapshot(held.value, input.id);
      if snapshot.Err? then EditRefused
      else
        var attempt := EditAttempt(snapshot.value, begun.value.1.updatePolicy, env);
        if attempt.None? then EditFailed(snapshot.value, None)
        else
          var download := EditDownload(env.download, env.clock.value);
          if download.None? then EditFailed(snapshot.value, attempt) else EditReady(attempt, download)
  }

  predicate EditSucceeds(held: Option<AppState>, input: EditInput, env: EditEnv) {
    var stage := StageOf(held, input, env);
    && stage.EditReady? && held.Some? && SaveOpen(env.commit) && Found(env.commit, held) == held
    && EditDelta(held.value, input, stage.download).Ok?
  }

  function AttemptOf(stage: EditStage): seq<Attempt> {
    if !stage.EditRefused? && stage.attempt.Some? then [stage.attempt.value] else []
  }

  class SubscriptionManager {
    var store: Option<AppState>
    var deadlines: map<Id, nat>
    /** Every attempt handed to remember_process_deadline. */
    ghost var attempts: seq<Attempt>

    ghost predicate Valid()
      reads this
    {
      deadlines == DeadlinesAfter(attempts)
    }

    constructor (initial: Option<AppState>)
      ensures Valid() && store == initial && attempts == []
    {
      store, deadlines := initial, map[];
      attempts := [];
    }

    method RememberProcessDeadline(snapshot: UpdateSnapshot, attemptedAt: nat)
      requires Valid()
      modifies this`deadlines, this`attempts
      ensures Valid()
      ensures attempts == old(attempts) + [Attempt(snapshot.subscriptionId, snapshot.updatePolicy.intervalMinutes, attemptedAt)]
    {
      attempts := attempts + [Attempt(snapshot.subscriptionId, snapshot.updatePolicy.intervalMinutes, attemptedAt)];
      assert attempts[..|attempts| - 1] == old(attempts);
      if snapshot.updatePolicy.intervalMinutes.None? { return; }
      var deadline := Deadline(attemptedAt, snapshot.updatePolicy.intervalMinutes.value);
      deadlines := deadlines[snapshot.subscriptionId := deadline];
    }

    /** The due ids in ascending order: exactly the due rows, and never one whose last attempt with
        an unchanged interval is less than that interval old, saved or not. */
    method DueSubscriptionIds(now: nat, gateFree: bool, loads: bool) returns (r: Result<seq<Id>, OpError>)
      requires Valid()
      ensures now > MAX_SAFE_INTEGER ==> r == Err(InvalidInput)
      ensures r.Ok? <==> now <= MAX_SAFE_INTEGER && gateFree && loads
      ensures r.Ok? ==> Ordered(r.value, IdKey)
      ensures r.Ok? && store.Some? && Domain.Valid(store.value) ==> Ascending(r.value, IdKey)
      ensures r.Ok? ==> forall id :: id in r.value <==>
        store.Some? && exists row :: row in store.value.subscriptions && row.id == id && TimeHasCome(row, attempts, now)
      ensures r.Ok? ==> forall id :: id in r.value ==> !TooEarly(attempts, id, now)
    {
      if now > MAX_SAFE_INTEGER { return Err(InvalidInput); }
      if !gateFree { return Err(Busy); }
      if !loads { return Err(StateUnavailable); }
      if store.None? { return Ok([]); }
      var ids := Map(DueRows(store.value.subscriptions, deadlines, now), SubscriptionId);
      DueIdsExactly(store.value.subscriptions, deadlines, now);
      forall row ensures Due(row, deadlines, now) <==> TimeHasCome(row, attempts, now) { DueExactly(row, attempts, now); }
      hide TimeHasCome, Due, DeadlinesAfter;
      SortOrdered(ids, IdKey);
      if Domain.Valid(store.value) {
        DueIdsDistinct(store.value, deadlines, now);
        SortAscending(ids, IdKey);
      }
      forall id | id in ids ensures !TooEarly(attempts, id, now) {
        if TooEarly(attempts, id, now) { NotDueYet(attempts, id, now); }
      }
      r := Ok(Sort(ids, IdKey));
    }

    /** Stamp the attempt on the row if nothing the update depends on has changed. */
    method RecordFailedAttempt(snapshot: UpdateSnapshot, attemptedAt: nat, env: SaveEnv) returns (r: Result<(), OpError>)
      modifies this`store
      ensures r.Ok? <==> AttemptSaves(snapshot, attemptedAt, env, old(store))
      ensures store == AfterAttempt(snapshot, attemptedAt, env, old(store))
    {
      hide AttemptDelta;
      if env.interference.Some? { store := env.interference.value; }
      if !env.gateFree { return Err(Busy); }
      if !env.loads { return Err(StateUnavailable); }
      if store.None? { return Err(NotFound); }
      var next := Stamp(store.value, snapshot, attemptedAt);
      if next.Err? { return Err(next.error); }
      if env.closing { return Err(Busy); }
      if !env.saves { return Err(SaveFailed); }
      store := Some(next.value);
      r := Ok(());
    }

    /** The critical section that ends an update. */
    method CommitUpdate(snapshot: UpdateSnapshot, fetched: Fetched, now: nat, env: SaveEnv) returns (r: Result<(), OpError>)
      modifies this`store
      ensures r.Ok? <==> UpdateSaves(snapshot, fetched, now, env, old(store))
      ensures store == AfterCommit(snapshot, fetched, now, env, old(store))
    {
      hide UpdateDelta;
      if env.interference.Some? { store := env.interference.value; }
      if !env.gateFree { return Err(Busy); }
      if !env.loads { return Err(StateUnavailable); }
      if store.None? { return Err(NotFound); }
      var next := Update(store.value, snapshot, fetched, now);
      if next.Err? { return Err(next.error); }
      if env.closing { return Err(Busy); }
      if !env.saves { return Err(SaveFailed); }
      store := Some(next.value);
      r := Ok(());
    }

    /** Take the snapshot, download, remember the deadline, and only then try to save: a finished
        download is remembered whatever happens to the save, and nothing else is. The register
        ends as other writers left it, or with the update's or the failed attempt's delta applied
        to what they left, exactly when the save of that delta is possible. */
    method UpdateWithRoute(id: Id, content: Option<Pasted>, env: UpdateEnv) returns (r: Result<(), OpError>)
      requires Valid()
      modifies this
      ensures Valid()
      ensures attempts == old(attempts) + AttemptOfUpdate(old(store), id, content, env)
      ensures r.Ok? <==> UpdateSucceeds(old(store), id, content, env)
      ensures store == RegisterAfterUpdate(old(store), id, content, env)
    {
      hide TakeSnapshot, CommitSucceeds, RegisterAfterDownload, DeadlinesAfter;
      if !env.guard { return Err(Busy); }
      if Blank(id) || |id| > 128 { return Err(InvalidInput); }
      if !env.gateFree { return Err(Busy); }
      if !env.loads { return Err(StateUnavailable); }
      if store.None? { return Err(NotFound); }
      var taken := TakeSnapshot(store.value, id);
      if taken.Err? { return Err(taken.error); }
      SnapshotNamesItsId(store.value, id);
      r := UpdateFrom(taken.value, content, env);
    }

    /** An update from its snapshot on. */
    method UpdateFrom(snapshot: UpdateSnapshot, content: Option<Pasted>, env: UpdateEnv) returns (r: Result<(), OpError>)
      requires Valid()
      modifies this
      ensures Valid()
      ensures attempts == old(attempts)
        + (if !Downloads(snapshot, content) || Abandoned(env.download) || env.clock.None? then []
           else [Attempt(snapshot.subscriptionId, snapshot.updatePolicy.intervalMinutes, env.clock.value)])
      ensures r.Ok? <==> CommitSucceeds(snapshot, content, env, old(store))
      ensures store == RegisterAfterDownload(snapshot, content, env, old(store))
    {
      hide UpdateSaves, AttemptSaves, AfterCommit, AfterAttempt, CacheUsable, DeadlinesAfter;
      match (snapshot.source, content) {
        case (Remote(_), None) =>
          if snapshot.remoteRequest.None? { return Err(ValidationFailed); }
          r := FinishRemote(snapshot, env);
        case (Manual, Some(pasted)) =>
          if !pasted.parses { return Err(ParseFailed); }
          if env.clock.None? { return Err(StateUnavailable); }
          r := CommitUpdate(snapshot, Modified(pasted.parsed, NO_METADATA, None), env.clock.value, env.commit);
        case _ => r := Err(InvalidInput);
      }
    }

    /** The part of an update after the download of its source. */
    method FinishRemote(snapshot: UpdateSnapshot, env: UpdateEnv) returns (r: Result<(), OpError>)
      requires Valid()
      modifies this
      ensures Valid()
      ensures attempts == old(attempts)
        + (if Abandoned(env.download) || env.clock.None? then []
           else [Attempt(snapshot.subscriptionId, snapshot.updatePolicy.intervalMinutes, env.clock.value)])
      ensures var usable := Usable(snapshot, env.download);
        && (r.Ok? <==> env.clock.Some? && usable.Some? && UpdateSaves(snapshot, usable.value, env.clock.value, env.commit, old(store)))
        && store ==
             if Abandoned(env.download) || env.clock.None? then old(store)
             else if usable.Some? then AfterCommit(snapshot, usable.value, env.clock.value, env.commit, old(store))
             else AfterAttempt(snapshot, env.clock.value, env.attempt, old(store))
    {
      hide UpdateSaves, AttemptSaves, AfterCommit, AfterAttempt;
      if Abandoned(env.download) { return Err(Busy); }
      if env.clock.None? { return Err(StateUnavailable); }
      var now := env.clock.value;
      RememberProcessDeadline(snapshot, now);
      match env.download {
        case DownloadFailed(error, _) =>
          var recorded := RecordFailedAttempt(snapshot, now, env.attempt);
          r := if recorded.Err? then recorded else Err(error);
        case Received(fetched, parses) =>
          if (fetched.Modified? && !parses) || (fetched.NotModified? && !CacheUsable(snapshot)) {
            var recorded := RecordFailedAttempt(snapshot, now, env.attempt);
            r := if recorded.Err? then recorded else Err(if fetched.Modified? then ParseFailed else CacheUnavailable);
            return;
          }
          r := CommitUpdate(snapshot, fetched, now, env.commit);
      }
    }

    /** commit_import: three rows are appended, then the new provider gets its nodes. */
    method CommitImport(input: ImportInput, expectedEmpty: Option<bool>, env: SaveEnv) returns (r: Result<(), OpError>)
      modifies this`store
      ensures r.Ok? <==>
        && env.gateFree && env.loads && (expectedEmpty.Some? ==> expectedEmpty.value == Found(env, old(store)).None?)
        && ImportDelta(OrEmpty(Found(env, old(store))), input).Ok? && !env.closing && env.saves
      ensures r.Ok? ==> store.Some? && ImportDelta(OrEmpty(Found(env, old(store))), input) == Ok(store.value)
      ensures r.Err? ==> store == Found(env, old(store))
    {
      hide Domain.Valid, ReplaceNodes;
      if env.interference.Some? { store := env.interference.value; }
      if !env.gateFree { return Err(Busy); }
      if !env.loads { return Err(StateUnavailable); }
      if expectedEmpty.Some? && expectedEmpty.value != store.None? { return Err(Busy); }
      var candidate := OrEmpty(store);
      var subscriptionId := "sub-" + input.suffix;
      var providerId := "provider-" + input.suffix;
      var poolId := "pool-" + input.suffix;
      if HasSubscription(candidate, subscriptionId) || HasProvider(candidate, providerId) || HasPool(candidate, poolId) {
        return Err(IdentityFailed);
      }
      candidate := candidate.(subscriptions := candidate.subscriptions + [Subscription(
        subscriptionId, input.name, input.description, input.source, Some(input.now), Some(input.now),
        input.httpMetadata, input.remoteRequest, input.updatePolicy, input.parsed.skipped,
        input.parsed.document, input.textAcceptable)]);
      candidate := candidate.(providers := candidate.providers + [Provider(providerId, subscriptionId, input.name)]);
      candidate := candidate.(pools := candidate.pools + [Pool(
        poolId, input.name, ImplicitProvider, [PoolSource(providerId, DEFAULT_FILTER)], ManualChoice(None), true)]);
      var replaced := ReplaceNodes(candidate, providerId, input.parsed.drafts);
      if replaced.Err? { return Err(replaced.error); }
      if env.closing { return Err(Busy); }
      if !env.saves { return Err(SaveFailed); }
      store := Some(replaced.value.state);
      r := Ok(());
    }

    /** delete: the guards, then the four retain passes. From a valid state what is saved is valid
        again and has lost exactly the subscription and what it owns. */
    method Delete(id: Id, activeRuntimeStopped: bool, guard: bool, env: SaveEnv) returns (r: Result<(), OpError>)
      modifies this`store
      ensures r.Ok? ==>
        && Found(env, old(store)).Some? && store.Some?
        && DeleteDelta(Found(env, old(store)).value, id, activeRuntimeStopped) == Ok(store.value)
      ensures r.Ok? && Domain.Valid(Found(env, old(store)).value) ==>
        Domain.Valid(store.value) && DeleteIntegrity.RemovedExactly(Found(env, old(store)).value, store.value, id)
      ensures r.Err? ==> store == old(store) || store == Found(env, old(store))
      ensures r.Ok? <==>
        && guard && !Blank(id) && |id| <= 128 && SaveOpen(env)
        && Found(env, old(store)).Some? && DeleteDelta(Found(env, old(store)).value, id, activeRuntimeStopped).Ok?
    {
      hide Domain.Valid, DeleteIntegrity.RemovedExactly;
      if !guard { return Err(Busy); }
      if Blank(id) || |id| > 128 { return Err(InvalidInput); }
      if env.interference.Some? { store := env.interference.value; }
      if !env.gateFree { return Err(Busy); }
      if !env.loads { return Err(StateUnavailable); }
      if store.None? { return Err(NotFound); }
      var found := store.value;
      var retained := RetainPasses(found, id, activeRuntimeStopped);
      if retained.Err? { return Err(retained.error); }
      if !Domain.Valid(retained.value) { return Err(ValidationFailed); }
      if env.closing { return Err(Busy); }
      if !env.saves { return Err(SaveFailed); }
      store := Some(retained.value);
      if Domain.Valid(found) { DeleteIntegrity.DeleteRemovesExactly(found, id, activeRuntimeStopped); }
      r := Ok(());
    }

    /** edit: the row is edited on the baseline, a changed URL is downloaded, and the commit insists
        on finding the baseline again. A finished download is remembered, and only its failure
        stamps the attempt; earlier attempts are never forgotten. */
    method Edit(input: EditInput, env: EditEnv) returns (r: Result<(), OpError>)
      requires Valid()
      modifies this
      ensures Valid()
      ensures attempts == old(attempts) + AttemptOf(StageOf(old(store), input, env))
      ensures r.Ok? <==> EditSucceeds(old(store), input, env)
      ensures var stage := StageOf(old(store), input, env);
        match stage
        case EditRefused => store == old(store)
        case EditFailed(snapshot, attempt) =>
          store == if attempt.None? then old(store) else AfterAttempt(snapshot, attempt.value.at, env.attempt, old(store))
        case EditReady(_, download) =>
          if r.Ok? then store.Some? && EditDelta(old(store).value, input, download) == Ok(store.value)
          else store == Found(env.commit, old(store))
    {
      hide TakeSnapshot, AfterAttempt, AttemptSaves, EditCommit, EditedRow, EditAttempt, EditDownload, DeadlinesAfter, Blank;
      if !env.guard { return Err(Busy); }
      if Blank(input.id) || |input.id| > 128 { return Err(InvalidInput); }
      if !env.gateFree { return Err(Busy); }
      if !env.loads { return Err(StateUnavailable); }
      if store.None? { return Err(NotFound); }
      var baseline := store.value;
      var at := Routing.Position(baseline.subscriptions, SubscriptionId, input.id);
      if at.None? { return Err(NotFound); }
      var edited := EditedRow(baseline.subscriptions[at.value], input);
      if edited.Err? { return Err(edited.error); }
      var download: Option<Edits.Download> := None;
      if edited.value.source != baseline.subscriptions[at.value].source {
        var snapshot := TakeSnapshot(baseline, input.id);
        if snapshot.Err? { return Err(snapshot.error); }
        var done := DownloadForEdit(snapshot.value, edited.value.updatePolicy, env);
        if done.Err? { return Err(done.error); }
        download := Some(done.value);
      }
      r := CommitEdit(baseline, input, at.value, edited.value, download, env.commit);
    }

    method CommitEdit(baseline: AppState, input: EditInput, index: nat, edited: Subscription,
                      download: Option<Edits.Download>, env: SaveEnv) returns (r: Result<(), OpError>)
      requires Routing.Position(baseline.subscriptions, SubscriptionId, input.id) == Some(index)
      requires EditedRow(baseline.subscriptions[index], input) == Ok(edited)
      modifies this`store
      ensures r.Ok? <==>
        SaveOpen(env) && Found(env, old(store)) == Some(baseline) && EditDelta(baseline, input, download).Ok?
      ensures if r.Ok? then store.Some? && EditDelta(baseline, input, download) == Ok(store.value)
              else store == Found(env, old(store))
    {
      hide EditCommit, EditedRow;
      if env.interference.Some? { store := env.interference.value; }
      if !env.gateFree { return Err(Busy); }
      if !env.loads { return Err(StateUnavailable); }
      if store.None? { return Err(NotFound); }
      if store.value != baseline { return Err(Busy); }
      var next := EditRows(baseline, index, edited, download);
      if next.Err? { return Err(next.error); }
      if env.closing { return Err(Busy); }
      if !env.saves { return Err(SaveFailed); }
      store := Some(next.value);
      r := Ok(());
    }

    /** The download of an edit. */
    method DownloadForEdit(snapshot: UpdateSnapshot, policy: UpdatePolicy, env: EditEnv)
      returns (r: Result<Edits.Download, OpError>)
      requires Valid()
      modifies this
      ensures Valid()
      ensures var attempt := EditAttempt(snapshot, policy, env);
        && attempts == old(attempts) + (if attempt.Some? then [attempt.value] else [])
        && (attempt.Some? ==> env.clock == Some(attempt.value.at))
        && var download := if attempt.None? then None else EditDownload(env.download, attempt.value.at);
           && (r.Ok? <==> download.Some?) && (r.Ok? ==> r.value == download.value)
           && store == if attempt.None? || r.Ok? then old(store)
                       else AfterAttempt(snapshot, attempt.value.at, env.attempt, old(store))
    {
      hide AfterAttempt, AttemptSaves, Adopted;
      if Abandoned(env.download) { return Err(Busy); }
      if env.clock.None? { return Err(StateUnavailable); }
      var now := env.clock.value;
      if env.download.DownloadFailed? || env.download.fetched.NotModified? {
        RememberProcessDeadline(snapshot, now);
        var recorded := RecordFailedAttempt(snapshot, now, env.attempt);
        if recorded.Err? { return Err(recorded.error); }
        return Err(if env.download.DownloadFailed? then env.download.error else CacheUnavailable);
      }
      var fetched := env.download.fetched;
      RememberProcessDeadline(snapshot.(updatePolicy := Adopted(policy, fetched.profileInterval)), now);
      if !env.download.parses {
        var recorded := RecordFailedAttempt(snapshot, now, env.attempt);
        return Err(if recorded.Err? then recorded.error else ParseFailed);
      }
      r := Ok(Edits.Download(fetched.parsed, fetched.metadata, fetched.profileInterval, now));
    }

    /** One scheduler pass: the due ids in order, until closing; register and remembered attempts end
        as these updates, one after the other, leave them. `between` is what other writers left in
        the register before each update. */
    method RunSchedulerTick(now: nat, gateFree: bool, loads: bool, closing: nat -> bool,
                            between: nat -> Option<Option<AppState>>, envs: nat -> UpdateEnv)
      returns (due: seq<Id>, attempted: seq<Id>, r: Result<(), OpError>)
      requires Valid()
      modifies this
      ensures Valid() && attempted <= due
      ensures r.Ok? <==> now <= MAX_SAFE_INTEGER && gateFree && loads
      ensures r.Ok? ==> forall id :: id in due <==>
        old(store).Some? && exists row :: row in old(store).value.subscriptions && row.id == id && TimeHasCome(row, old(attempts), now)
      ensures forall k :: 0 <= k < |attempted| ==> !closing(k)
      ensures |attempted| == |due| || closing(|attempted|)
      ensures store == RegisterAfterPass(old(store), attempted, between, envs)
      ensures attempts == old(attempts) + AttemptsOfPass(old(store), attempted, between, envs)
      ensures old(store).Some? && Domain.Valid(old(store).value) ==> Ascending(due, IdKey)
      ensures |attempts| <= |old(attempts)| + |attempted|
      ensures r.Err? ==> due == [] && store == old(store) && attempts == old(attempts)
      ensures forall id :: id in due ==> !TooEarly(old(attempts), id, now)
    {
      hide RegisterAfterPass, AttemptsOfPass, TooEarly, DeadlinesAfter, TimeHasCome;
      due, attempted := [], [];
      NothingAttempted(store, between, envs);
      var ids := DueSubscriptionIds(now, gateFree, loads);
      if ids.Err? { return due, attempted, Err(ids.error); }
      due := ids.value;
      attempted := UpdateAll(due, closing, between, envs);
      r := Ok(());
    }

    /** The loop of the pass. */
    method UpdateAll(ids: seq<Id>, closing: nat -> bool, between: nat -> Option<Option<AppState>>, envs: nat -> UpdateEnv)
      returns (attempted: seq<Id>)
      requires Valid()
      modifies this
      ensures Valid() && attempted <= ids
      ensures forall k :: 0 <= k < |attempted| ==> !closing(k)
      ensures |attempted| == |ids| || closing(|attempted|)
      ensures store == RegisterAfterPass(old(store), attempted, between, envs)
      ensures attempts == old(attempts) + AttemptsOfPass(old(store), attempted, between, envs)
    {
      hide RegisterAfterPass, AttemptsOfPass, RegisterAfterUpdate, UpdateSucceeds, AttemptOfUpdate, DeadlinesAfter;
      attempted := [];
      NothingAttempted(store, between, envs);
      var k := 0;
      while k < |ids|
        invariant 0 <= k <= |ids| && attempted == ids[..k] && forall j :: 0 <= j < k ==> !closing(j)
        invariant Valid() && store == RegisterAfterPass(old(store), attempted, between, envs)
        invariant attempts == old(attempts) + AttemptsOfPass(old(store), attempted, between, envs)
      {
        if closing(k) { return; }
        OneMore(old(store), attempted, ids[k], between, envs);
        if between(k).Some? { store := between(k).value; }
        var updated := UpdateWithRoute(ids[k], None, envs(k));
        attempted := attempted + [ids[k]];
        k := k + 1;
      }
    }
  }

  lemma {:induction false} NothingAttempted(held: Option<AppState>, between: nat -> Option<Option<AppState>>, envs: nat -> UpdateEnv)
    ensures RegisterAfterPass(held, [], between, envs) == held && AttemptsOfPass(held, [], between, envs) == []
  {
  }

  lemma {:induction false} OneMore(held: Option<AppState>, ids: seq<Id>, id: Id, between: nat -> Option<Option<AppState>>, envs: nat -> UpdateEnv)
    ensures var found := HeldAt(RegisterAfterPass(held, ids, between, envs), between(|ids|));
      && RegisterAfterPass(held, ids + [id], between, envs) == RegisterAfterUpdate(found, id, None, envs(|ids|))
      && AttemptsOfPass(held, ids + [id], between, envs)
           == AttemptsOfPass(held, ids, between, envs) + AttemptOfUpdate(found, id, None, envs(|ids|))
  {
    hide RegisterAfterUpdate, AttemptOfUpdate;
    assert (ids + [id])[..|ids|] == ids;
  }

  /** Stamp the attempt on the candidate. */
  method Stamp(current: AppState, snapshot: UpdateSnapshot, attemptedAt: nat) returns (r: Result<AppState, OpError>)
    ensures r == AttemptDelta(current, snapshot, attemptedAt)
  {
    hide Domain.Valid, NodesOf, ProvidersOf;
    var seen := TakeSnapshot(current, snapshot.subscriptionId);
    if seen.Err? { return Err(seen.error); }
    if seen.value != snapshot { return Err(Busy); }
    var at := Routing.Find(current.subscriptions, SubscriptionId, snapshot.subscriptionId);
    if at.None? { return Err(NotFound); }
    var rows := current.subscriptions;
    rows := rows[at.value := rows[at.value].(lastAttemptAtMs := Some(attemptedAt))];
    var candidate := current.(subscriptions := rows);
    if !Domain.Valid(candidate) { return Err(ValidationFailed); }
    r := Ok(candidate);
  }

  /** The edits of an update on the candidate, in the program's order: nodes, row, stamps, generation. */
  method Update(current: AppState, snapshot: UpdateSnapshot, fetched: Fetched, now: nat) returns (r: Result<AppState, OpError>)
    ensures r == UpdateDelta(current, snapshot, fetched, now)
  {
    hide Domain.Valid, NodesOf, NodesNotOf, ProvidersOf, NormalizeNodes, MergeMetadata, ReplaceNodes;
    var id := snapshot.subscriptionId;
    var seen := TakeSnapshot(current, id);
    if seen.Err? { return Err(seen.error); }
    if seen.value != snapshot { return Err(Busy); }
    var at := Routing.Find(current.subscriptions, SubscriptionId, id);
    if at.None? { return Err(NotFound); }
    var candidate, contentChanged := current, false;
    var row := current.subscriptions[at.value];
    match fetched {
      case Modified(parsed, metadata, profileInterval) =>
        var replaced := ReplaceNodes(candidate, snapshot.providerId, parsed.drafts);
        if replaced.Err? { return Err(replaced.error); }
        candidate, contentChanged := replaced.value.state, replaced.value.changed;
        row := row.(skipped := parsed.skipped);
        row := row.(httpMetadata := if snapshot.source.Remote? then Some(metadata) else None);
        row := row.(document := parsed.document);
        row := row.(updatePolicy := Adopted(row.updatePolicy, profileInterval));
      case NotModified(metadata, profileInterval, validatorsMatchSource) =>
        var previous := if snapshot.httpMetadata.Some? then snapshot.httpMetadata.value else NO_METADATA;
        row := row.(httpMetadata := Some(MergeMetadata(previous, metadata, validatorsMatchSource)));
        row := row.(updatePolicy := Adopted(row.updatePolicy, profileInterval));
    }
    row := row.(lastSuccessAtMs := Some(now));
    row := row.(lastAttemptAtMs := Some(now));
    ReplacedRows(current, snapshot.providerId);
    candidate := candidate.(subscriptions := candidate.subscriptions[at.value := row]);
    if contentChanged && candidate.activeId == Some(id) {
      var next := NextGeneration(candidate.generation);
      if next.Err? { return Err(next.error); }
      candidate := candidate.(generation := next.value);
    }
    if !Domain.Valid(candidate) { return Err(ValidationFailed); }
    r := Ok(candidate);
  }

  /** A replacement leaves everything but the nodes. */
  lemma ReplacedRows(s: AppState, providerId: Id)
    ensures forall drafts :: ReplaceNodes(s, providerId, drafts).Ok? ==>
      var t := ReplaceNodes(s, providerId, drafts).value.state; t == s.(nodes := t.nodes)
  {
    hide Domain.Valid;
  }

  /** The edits of an edit on the candidate: row, provider, implicit pools one after the other, then
      what was downloaded. */
  method EditRows(baseline: AppState, index: nat, edited: Subscription, download: Option<Edits.Download>)
    returns (r: Result<AppState, OpError>)
    requires index < |baseline.subscriptions|
    ensures r == EditCommit(baseline, index, edited, download)
  {
    hide Domain.Valid, ReplaceNodes;
    var candidate := baseline.(subscriptions := baseline.subscriptions[index := edited]);
    var at := Routing.Find(candidate.providers, (p: Provider) => p.subscriptionId, edited.id);
    if at.None? { return Err(ValidationFailed); }
    var provider := candidate.providers[at.value].(name := edited.name);
    candidate := candidate.(providers := candidate.providers[at.value := provider]);
    var pools := RenamePools(candidate.pools, provider.id, edited.name);
    candidate := candidate.(pools := pools);
    if download.Some? {
      var d := download.value;
      var row := edited.(skipped := d.parsed.skipped);
      candidate := candidate.(subscriptions := candidate.subscriptions[index := row]);
      var replaced := ReplaceNodes(candidate, provider.id, d.parsed.drafts);
      if replaced.Err? { return Err(replaced.error); }
      ReplacedRows(candidate, provider.id);
      candidate := replaced.value.state;
      row := row.(httpMetadata := Some(d.metadata));
      row := row.(document := d.parsed.document);
      row := row.(updatePolicy := Adopted(row.updatePolicy, d.profileInterval));
      row := row.(lastSuccessAtMs := Some(d.now));
      row := row.(lastAttemptAtMs := Some(d.now));
      candidate := candidate.(subscriptions := candidate.subscriptions[index := row]);
      if replaced.value.changed && candidate.activeId == Some(edited.id) {
        var next := NextGeneration(candidate.generation);
        if next.Err? { return Err(next.error); }
        candidate := candidate.(generation := next.value);
      }
    }
    if !Domain.Valid(candidate) { return Err(ValidationFailed); }
    r := Ok(candidate);
  }

  /** The loop over all pools that renames the implicit pools of one provider. */
  method RenamePools(pools: seq<Pool>, providerId: Id, name: string) returns (r: seq<Pool>)
    ensures r == Renamed(pools, providerId, name)
  {
    r := pools;
    var k := 0;
    while k < |r|
      invariant 0 <= k <= |r| == |pools|
      invariant forall j :: 0 <= j < k ==> r[j] == Renamed(pools, providerId, name)[j]
      invariant forall j :: k <= j < |r| ==> r[j] == pools[j]
    {
      var pool := r[k];
      if pool.kind == ImplicitProvider && |pool.sources| == 1 && pool.sources[0].providerId == providerId {
        r := r[k := pool.(name := name)];
      }
      k := k + 1;
    }
  }

  /** The guards of a deletion and its retain passes, one list after the other. */
  method RetainPasses(found: AppState, id: Id, activeRuntimeStopped: bool) returns (r: Result<AppState, OpError>)
    ensures r == DeleteCandidate(found, id, activeRuntimeStopped)
  {
    if !HasSubscription(found, id) { return Err(NotFound); }
    var isActive := found.activeId == Some(id);
    if isActive && !activeRuntimeStopped { return Err(ReferenceConflict); }
    var providerIds := ProviderIdsOf(found, id);
    if providerIds == {} { return Err(ValidationFailed); }
    var ownedPoolIds := OwnedPoolIds(found, providerIds);
    if DeleteConflicts(found, providerIds, ownedPoolIds) { return Err(ReferenceConflict); }
    var candidate := found;
    candidate := candidate.(nodes := Filter(candidate.nodes, (n: Node) => n.providerId !in providerIds));
    candidate := candidate.(pools := Filter(candidate.pools, (p: Pool) => p.id !in ownedPoolIds));
    candidate := candidate.(providers := Filter(candidate.providers, (p: Provider) => p.id !in providerIds));
    candidate := candidate.(subscriptions := Filter(candidate.subscriptions, (row: Subscription) => row.id != id));
    if isActive {
      candidate := candidate.(activeId := None);
      var next := NextGeneration(candidate.generation);
      if next.Err? { return Err(next.error); }
      candidate := candidate.(generation := next.value);
    }
    r := Ok(candidate);
  }

  lemma SnapshotNamesItsId(s: AppState, id: Id)
    requires TakeSnapshot(s, id).Ok?
    ensures TakeSnapshot(s, id).value.subscriptionId == id
  {
  }

  lemma DueIdsDistinct(s: AppState, deadlines: map<Id, nat>, now: nat)
    requires Domain.Valid(s)
    ensures Distinct(Map(DueRows(s.subscriptions, deadlines, now), SubscriptionId), IdKey)
  {
    UniqueIsDistinct(s.subscriptions, SubscriptionId);
    FilterDistinct(s.subscriptions, (row: Subscription) => Due(row, deadlines, now), SubscriptionId);
    var due := DueRows(s.subscriptions, deadlines, now);
    var ids := Map(due, SubscriptionId);
    forall i, j | 0 <= i < j < |ids| ensures IdKey(ids[i]) != IdKey(ids[j]) {
      assert SubscriptionId(due[i]) != SubscriptionId(due[j]);
    }
  }

  lemma DueIdsExactly(rows: seq<Subscription>, deadlines: map<Id, nat>, now: nat)
    ensures var ids := Map(DueRows(rows, deadlines, now), SubscriptionId);
      forall id :: id in ids <==> exists row :: row in rows && row.id == id && Due(row, deadlines, now)
  {
    var due := DueRows(rows, deadlines, now);
    var ids := Map(due, SubscriptionId);
    forall id ensures id in ids <==> exists row :: row in rows && row.id == id && Due(row, deadlines, now) {
      if id in ids {
        var i :| 0 <= i < |ids| && ids[i] == id;
        assert due[i] in due;
      }
      if row :| row in rows && row.id == id && Due(row, deadlines, now) {
        var i :| 0 <= i < |due| && due[i] == row;
        assert ids[i] == id;
      }
    }
  }
}
