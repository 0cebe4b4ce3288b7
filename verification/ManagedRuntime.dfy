/** The worker that owns the core, and its two prepare / persist / commit protocols
    (src-tauri/src/application/managed_observation_runtime.rs). Outcomes of the gate, the file, the
    core and of deadlines are parameters; what other writers save before the commit's gate is one
    of them. */
module ManagedRuntime {
  import opened Common
  import opened Domain
  import opened Projection
  import opened Sidecar
  import CommitLaws
  import CommitMeaning
  import Edits
  import Observations

  datatype ActivationError =
    | Busy | StateUnavailable | InvalidInput | NotFound | SelectionConflict | ConfigurationFailed
    | SaveFailed | StopFailed | StartFailed | RecoveryRequired | StateChanged

  datatype ActivationResult =
    | Activated(generation: nat)
    | Reactivated(generation: nat)
    | AlreadyCurrent(generation: nat)
    | Pending
    | ActivationFailed(error: ActivationError)

  datatype ActivationRequest = ActivationRequest(
    operationId: string, expected: AppState, candidate: AppState, projection: Projected, config: Config,
    reactivation: bool)

  /** What the preflight establishes about a request it sends to the worker. */
  predicate RequestSound(request: ActivationRequest) {
    && request.operationId != ""
    && request.candidate.activeId.Some?
    && Edits.ActivateDelta(request.expected, request.candidate.activeId.value) == Ok(request.candidate)
    && Project(request.candidate) == Ok(request.projection)
    && request.config.projection == request.projection
  }

  /** `cancelled` after the prepare, `cancelledInGate` once more inside the commit's gate: the
      request was cancelled or the program is shutting down. `interference` is what other writers
      left in the register by then. */
  datatype ActivationEnv = ActivationEnv(
    createsRuntime: bool, prepare: PrepareOutcome, cancelled: bool, interference: Option<Option<AppState>>,
    gateFree: bool, loads: bool, cancelledInGate: bool, saves: bool, cancels: bool, commit: CommitOutcome)

  datatype DocumentSaveError =
    | DocInvalidInput | DocNotFound | DocumentUnavailable | DocumentConflict | ParseFailed
    | NormalizationFailed | ValidationFailed | DocConfigurationFailed | DocSaveFailed | DocStateUnavailable
    | IdentityFailed | DocBusy | DocRecoveryRequired | OperationTimedOut

  datatype ApplyError = ApplyStopFailed | ApplyStartFailed | ApplyRecoveryRequired | ApplyTimedOut

  datatype DocumentApply =
    | NotRequired
    | AppliedReady(appliedGeneration: nat)
    | ApplyFailed(failedGeneration: nat, applyError: ApplyError)

  datatype DocumentSaveResult = DocumentSaved(apply: DocumentApply) | DocumentRefused(error: DocumentSaveError)

  datatype PreflightEnv = PreflightEnv(shuttingDown: bool, guards: bool, gateFree: bool, loads: bool, compiles: bool, secret: nat)

  datatype Preflighted = Send(request: ActivationRequest) | Answer(result: ActivationResult)

  /** `refusal` is any failure before the stored document is looked at: text that does not parse,
      no write guard, no gate, no readable file. */
  datatype DocumentEnv = DocumentEnv(
    refusal: Option<DocumentSaveError>, expiredAtStart: bool, compiles: bool, secret: nat, createsRuntime: bool,
    prepare: PrepareOutcome, expiredBeforeCommit: bool, shutdown: bool, shutdownAfterCancel: bool, cancels: bool,
    interference: Option<Option<AppState>>, gateFree: bool, loads: bool, closing: bool, saves: bool,
    expiredAfterCommit: bool, commit: CommitOutcome)

  datatype StopResult = CoreStopped | AlreadyStopped | CoreStopFailed

  datatype StartResult = Started | AlreadyRunning | StartConfigurationFailed | CoreStartFailed

  datatype RunningConfiguration =
    | RunningConfig(config: Config, id: string, generation: nat)
    | NoRunningConfig(needsRecovery: bool, tooLarge: bool)

  class Clock {
    var now: nat

    constructor () { now := 0; }

    method Read() returns (t: nat)
      modifies this
      ensures t == now >= old(now)
    {
      var later: nat :| later >= now;
      now := later;
      t := later;
    }
  }

  // ---- error tables --------------------------------------------------------------------------------

  /** activation_runtime_failure: the answer, the switch code and the log entry. */
  function ActivationFailureOf(error: SidecarError, lifecycle: Observations.Lifecycle):
      (ActivationError, Observations.SwitchError, Observations.Failure)
  {
    if error == ActiveStop then (StopFailed, Observations.StopFailed, Observations.StopFailure)
    else if lifecycle == Observations.RecoveryRequired then
      (ActivationError.RecoveryRequired, Observations.RecoveryNeeded, Observations.StopFailure)
    else if error == CandidateCheck || error == CandidatePrepare then
      (ActivationError.ConfigurationFailed, Observations.ConfigurationFailed, Observations.ConfigurationFailure)
    else (StartFailed, Observations.StartFailed, Observations.StartFailure)
  }

  /** document_runtime_error. */
  function DocumentFailureOf(error: SidecarError, lifecycle: Observations.Lifecycle):
      (ApplyError, Observations.SwitchError, Observations.Failure)
  {
    if error == ActiveStop then (ApplyStopFailed, Observations.StopFailed, Observations.StopFailure)
    else if lifecycle == Observations.RecoveryRequired then
      (ApplyRecoveryRequired, Observations.RecoveryNeeded, Observations.StopFailure)
    else (ApplyStartFailed, Observations.StartFailed, Observations.StartFailure)
  }

  function DocumentSwitchError(error: DocumentSaveError): (code: Observations.SwitchError)
    ensures code != Observations.CancelledCode
  {
    match error
    case DocumentConflict => Observations.Busy
    case DocBusy => Observations.Busy
    case DocSaveFailed => Observations.SaveFailed
    case DocNotFound => Observations.StateUnavailable
    case DocumentUnavailable => Observations.StateUnavailable
    case DocStateUnavailable => Observations.StateUnavailable
    case IdentityFailed => Observations.StateUnavailable
    case DocRecoveryRequired => Observations.RecoveryNeeded
    case OperationTimedOut => Observations.OperationTimedOut
    case _ => Observations.ConfigurationFailed
  }

  /** How the observed operation ends, given what its caller is told. */
  function ActivationEnd(operationId: string, r: ActivationResult): Observations.Switch {
    match r
    case Pending => Observations.Switch(operationId, Observations.Cancelled, Some(Observations.CancelledCode))
    case ActivationFailed(error) => Observations.Switch(operationId, Observations.Failed, Some(ActivationCode(error)))
    case _ => Observations.Switch(operationId, Observations.SwitchReady, None)
  }

  function ActivationCode(error: ActivationError): Observations.SwitchError {
    match error
    case Busy => Observations.Busy
    case SaveFailed => Observations.SaveFailed
    case StopFailed => Observations.StopFailed
    case StartFailed => Observations.StartFailed
    case RecoveryRequired => Observations.RecoveryNeeded
    case ConfigurationFailed => Observations.ConfigurationFailed
    case _ => Observations.StateUnavailable
  }

  function DocumentEnd(operationId: string, r: DocumentSaveResult): Observations.Switch {
    match r
    case DocumentRefused(error) => Observations.Switch(operationId, Observations.Failed, Some(DocumentSwitchError(error)))
    case DocumentSaved(ApplyFailed(_, ApplyStopFailed)) =>
      Observations.Switch(operationId, Observations.Failed, Some(Observations.StopFailed))
    case DocumentSaved(ApplyFailed(_, ApplyStartFailed)) =>
      Observations.Switch(operationId, Observations.Failed, Some(Observations.StartFailed))
    case DocumentSaved(ApplyFailed(_, ApplyRecoveryRequired)) =>
      Observations.Switch(operationId, Observations.Failed, Some(Observations.RecoveryNeeded))
    case DocumentSaved(ApplyFailed(_, ApplyTimedOut)) =>
      Observations.Switch(operationId, Observations.Failed, Some(Observations.OperationTimedOut))
    case _ => Observations.Switch(operationId, Observations.SwitchReady, None)
  }

  function ActivationErrorOf(error: Edits.OpError): ActivationError {
    match error
    case SelectionConflict => ActivationError.SelectionConflict
    case ConfigurationFailed => ActivationError.ConfigurationFailed
    case _ => ActivationError.NotFound
  }

  function DocumentErrorOf(error: Edits.OpError): DocumentSaveError {
    match error
    case NotFound => DocNotFound
    case DocumentUnavailable => DocumentUnavailable
    case DocumentConflict => DocumentConflict
    case ParseFailed => ParseFailed
    case NormalizationFailed => NormalizationFailed
    case Busy => DocBusy
    case SaveFailed => DocSaveFailed
    case StateUnavailable => DocStateUnavailable
    case InvalidInput => DocInvalidInput
    case _ => ValidationFailed
  }

  // ---- when an activation reaches its commit point -------------------------------------------------------

  predicate ReachesCommitPoint(
      request: ActivationRequest, env: ActivationEnv, recoveryRequired: bool, store: Option<AppState>)
  {
    && !recoveryRequired && PrepareWorks(env.prepare) && !env.cancelled
    && env.gateFree && env.loads && !env.cancelledInGate
    && (if env.interference.Some? then env.interference.value else store) == Some(request.expected)
    && (request.candidate != request.expected ==> env.saves)
  }

  predicate PreflightOpen(store: Option<AppState>, id: Id, expectedGeneration: Option<nat>, env: PreflightEnv) {
    && !env.shuttingDown && !Blank(id) && |id| <= 128 && env.guards && env.gateFree && env.loads && store.Some?
    && (expectedGeneration.Some? ==> store.value.generation == expectedGeneration.value && store.value.activeId == Some(id))
    && Edits.ActivateDelta(store.value, id).Ok?
  }

  predicate PrepareWorks(o: PrepareOutcome) { !o.pendingBefore && o.checks && o.prepares }

  /** The old core, if there is one, stops, and the new one runs and becomes ready. */
  predicate CommitWorks(o: CommitOutcome, hasCore: bool) {
    (hasCore ==> o.stopsOld) && o.runs.Some? && o.becomesReady
  }

  /** Why a replacement failed after its commit point, in terms of what happened to the two cores. */
  datatype CommitFailure = OldStays | NewFails | Unclear

  function CommitFailureOf(o: CommitOutcome, hasCore: bool): CommitFailure {
    if hasCore && !o.stopsOld then (if o.cancels then OldStays else Unclear)
    else if o.runs.None? then (if o.pendingAfterRun then Unclear else NewFails)
    else if o.stopsNew then NewFails else Unclear
  }

  /** A preparation left something behind that has to be cleaned up first. */
  predicate PrepareUnclear(o: PrepareOutcome, recoveryRequired: bool) {
    recoveryRequired || o.pendingBefore || (if !o.checks then o.pendingAfterCheck else !o.cancels)
  }

  /** What the caller of an activation is told. */
  function ActivationAnswer(request: ActivationRequest, env: ActivationEnv, recoveryRequired: bool, hasCore: bool,
                            store: Option<AppState>): ActivationResult
  {
    var found := if env.interference.Some? then env.interference.value else store;
    if recoveryRequired || !PrepareWorks(env.prepare) then
      ActivationFailed(if PrepareUnclear(env.prepare, recoveryRequired) then ActivationError.RecoveryRequired
                       else ActivationError.ConfigurationFailed)
    else if !ReachesCommitPoint(request, env, recoveryRequired, store) && !env.cancels then
      ActivationFailed(ActivationError.RecoveryRequired)
    else if env.cancelled then Pending
    else if !env.gateFree then ActivationFailed(ActivationError.Busy)
    else if !env.loads || found.None? then ActivationFailed(ActivationError.StateUnavailable)
    else if found != Some(request.expected) then ActivationFailed(ActivationError.Busy)
    else if env.cancelledInGate then Pending
    else if request.candidate != request.expected && !env.saves then ActivationFailed(ActivationError.SaveFailed)
    else if !CommitWorks(env.commit, hasCore) then
      match CommitFailureOf(env.commit, hasCore)
      case OldStays => ActivationFailed(ActivationError.StopFailed)
      case NewFails => ActivationFailed(ActivationError.StartFailed)
      case Unclear => ActivationFailed(ActivationError.RecoveryRequired)
    else if request.reactivation then Reactivated(request.candidate.generation)
    else Activated(request.candidate.generation)
  }

  // ---- when a document save is accepted ----------------------------------------------------------------

  function FoundAtCommit(before: AppState, interference: Option<Option<AppState>>): Option<AppState> {
    if interference.Some? then interference.value else Some(before)
  }

  predicate CommitOpen(p: Edits.Prepared, env: DocumentEnv) {
    && env.gateFree && env.loads && !env.closing
    && FoundAtCommit(p.before, env.interference) == Some(p.before)
    && (p.StateChanged() ==> env.saves)
  }


  /** What the worker knows when the save starts. */
  datatype Context = Context(readyWithNext: bool, hasRuntime: bool, recoveryRequired: bool)

  predicate NeedsNoApply(p: Edits.Prepared, id: Id, ctx: Context) {
    !p.requiresApply && (p.next.activeId != Some(id) || ctx.readyWithNext)
  }

  predicate CandidateMade(p: Edits.Prepared, ctx: Context, env: DocumentEnv) {
    Project(p.next).Ok? && env.compiles && (ctx.hasRuntime || env.createsRuntime)
  }

  predicate SaveAccepted(p: Edits.Prepared, id: Id, ctx: Context, env: DocumentEnv) {
    && !env.expiredAtStart
    && (NeedsNoApply(p, id, ctx)
        || (CandidateMade(p, ctx, env) && !ctx.recoveryRequired && PrepareWorks(env.prepare)
            && !env.expiredBeforeCommit && !env.shutdown))
    && CommitOpen(p, env)
  }

  function CommitRefusal(p: Edits.Prepared, env: DocumentEnv): DocumentSaveError
    requires !CommitOpen(p, env)
  {
    var found := FoundAtCommit(p.before, env.interference);
    if !env.gateFree then DocBusy
    else if !env.loads then DocStateUnavailable
    else if found.None? then DocNotFound
    else if found != Some(p.before) then DocumentConflict
    else if env.closing then DocBusy
    else DocSaveFailed
  }

  /** What the caller of a save through the runtime is told. */
  function RuntimeSaveAnswer(p: Edits.Prepared, ctx: Context, hasCore: bool, env: DocumentEnv): DocumentSaveResult {
    if !CandidateMade(p, ctx, env) then DocumentRefused(DocConfigurationFailed)
    else if ctx.recoveryRequired || !PrepareWorks(env.prepare) then
      DocumentRefused(if PrepareUnclear(env.prepare, ctx.recoveryRequired) then DocRecoveryRequired else DocConfigurationFailed)
    else if env.expiredBeforeCommit || env.shutdown then
      DocumentRefused(if !env.cancels then DocRecoveryRequired
                      else if env.shutdownAfterCancel then DocBusy else DocumentSaveError.OperationTimedOut)
    else if !CommitOpen(p, env) then
      DocumentRefused(if !env.cancels then DocRecoveryRequired else CommitRefusal(p, env))
    else DocumentSaved(ApplyAnswer(p.next.generation, hasCore, env))
  }

  /** What becomes of a committed document that has to be applied. */
  function ApplyAnswer(generation: nat, hasCore: bool, env: DocumentEnv): DocumentApply {
    if env.expiredAfterCommit then ApplyFailed(generation, if env.cancels then ApplyTimedOut else ApplyRecoveryRequired)
    else if CommitWorks(env.commit, hasCore) then AppliedReady(generation)
    else
      match CommitFailureOf(env.commit, hasCore)
      case OldStays => ApplyFailed(generation, ApplyStopFailed)
      case NewFails => ApplyFailed(generation, ApplyStartFailed)
      case Unclear => ApplyFailed(generation, ApplyRecoveryRequired)
  }

  function SaveAnswer(p: Edits.Prepared, id: Id, ctx: Context, hasCore: bool, env: DocumentEnv): DocumentSaveResult {
    if env.expiredAtStart then DocumentRefused(DocumentSaveError.OperationTimedOut)
    else if !NeedsNoApply(p, id, ctx) then RuntimeSaveAnswer(p, ctx, hasCore, env)
    else if CommitOpen(p, env) then DocumentSaved(NotRequired)
    else DocumentRefused(CommitRefusal(p, env))
  }

  /** The register after the operation. */
  function RegisterAfter(p: Edits.Prepared, id: Id, ctx: Context, env: DocumentEnv): Option<AppState> {
    if SaveAccepted(p, id, ctx, env) then Some(p.next)
    else if ReachesCommit(p, id, ctx, env) then FoundAtCommit(p.before, env.interference)
    else Some(p.before)
  }

  predicate ReachesCommit(p: Edits.Prepared, id: Id, ctx: Context, env: DocumentEnv) {
    && !env.expiredAtStart
    && (NeedsNoApply(p, id, ctx)
        || (CandidateMade(p, ctx, env) && !ctx.recoveryRequired && PrepareWorks(env.prepare)
            && !env.expiredBeforeCommit && !env.shutdown))
  }

  /** What other writers can have done meanwhile: the save holds the write guard throughout, so they
      have left subscriptions and nodes alone (History.GuardHolderKeepsRows), or the file is gone. */
  predicate OnlyRoutedMeanwhile(p: Edits.Prepared, env: DocumentEnv) {
    var found := FoundAtCommit(p.before, env.interference);
    found.Some? ==> Edits.SameRows(p.before, found.value)
  }

  /** Ok means that the register holds the new state, and a refusal that it does not. */
  predicate OkMeansPersisted(p: Edits.Prepared, id: Id, ctx: Context, env: DocumentEnv) {
    SaveAccepted(p, id, ctx, env) <==> RegisterAfter(p, id, ctx, env) == Some(p.next)
  }

  /** A save whose gate is taken when it wants to commit. */
  const GATE_TAKEN: DocumentEnv :=
    DocumentEnv(None, false, true, 0, true, PrepareOutcome(false, true, false, true, true), false, false, false, true,
                None, false, true, false, true, false, CommitOutcome(true, true, Some(0), false, true, true))

  /** Whatever happens to gate, file, core, deadlines and shutdown, and whatever other writers do
      under the write guard: Ok and "the register holds the new state" agree in every such
      environment exactly when the save changes the state. A save that changes nothing can be
      refused (here: the gate is taken) although the register holds what it wanted. */
  lemma OkMeansPersistedExactlyWhenStateChanges(s: AppState, input: Edits.DocumentInput)
    requires Edits.PrepareDocument(s, input).Ok?
    ensures var p := Edits.PrepareDocument(s, input).value;
      (forall ctx, env :: OnlyRoutedMeanwhile(p, env) ==> OkMeansPersisted(p, input.id, ctx, env)) <==> p.StateChanged()
  {
    CommitLaws.ChangingSaveChangesRows(s, input);
    var p := Edits.PrepareDocument(s, input).value;
    hide Edits.PrepareDocument, Project;
    if p.StateChanged() {
      forall ctx, env | OnlyRoutedMeanwhile(p, env) ensures OkMeansPersisted(p, input.id, ctx, env) {
        assert FoundAtCommit(p.before, env.interference) != Some(p.next);
      }
    } else {
      var ctx := Context(true, true, false);
      assert OnlyRoutedMeanwhile(p, GATE_TAKEN) && !OkMeansPersisted(p, input.id, ctx, GATE_TAKEN);
    }
  }

  // ---- a save that changes nothing ------------------------------------------------------------------------

  const SAVED_TEXT: Document := Document(Json, "{}", false)

  const SAVED_ONCE: AppState := AppState(
    Unconfigured, None, 0,
    [Subscription("s", "name", "", Manual, None, None, None, None, UpdatePolicy(false, None), 0, Some(SAVED_TEXT), true)],
    [Provider("p", "s", "name")], [SAMPLE_NODE], [], [])

  const SAVED_AGAIN: Edits.DocumentInput := Edits.DocumentInput(
    "s", Json, "{}", Edits.Revision(Json, "{}"),
    [Edits.Draft("n", "node", Trojan, "", true, true)])

  /** Such saves exist: the stored text is saved again, unchanged. It is then refused when the gate is
      taken, and the register holds exactly the state it asked for. */
  lemma SavingTheSameTextChangesNothing()
    ensures Domain.Valid(SAVED_ONCE) && Edits.PrepareDocument(SAVED_ONCE, SAVED_AGAIN).Ok?
    ensures !Edits.PrepareDocument(SAVED_ONCE, SAVED_AGAIN).value.StateChanged()
  {
    SavedOnceIsValid();
    hide Domain.Valid;
    var row := SAVED_ONCE.subscriptions[0];
    var provider := SAVED_ONCE.providers[0];
    assert provider in SAVED_ONCE.providers;
    assert Edits.ProvidersOf(SAVED_ONCE, "s") == [provider];
    assert Edits.WithRow(SAVED_ONCE, 0, row) == SAVED_ONCE;
    SavedNodesComeBack();
  }

  lemma SavedNodesComeBack()
    ensures Edits.ReplaceNodes(SAVED_ONCE, "p", SAVED_AGAIN.drafts) == Ok(Edits.Replacement(SAVED_ONCE, false))
  {
    SavedOnceIsValid();
    hide Domain.Valid;
    var normalized := Edits.NormalizeNodes("p", SAVED_AGAIN.drafts);
    assert SAVED_AGAIN.drafts == [Edits.Draft("n", "node", Trojan, "", true, true)];
    assert normalized.Ok?;
    assert normalized.value == [SAMPLE_NODE];
    assert SAVED_ONCE.providers[0] in SAVED_ONCE.providers;
    assert HasProvider(SAVED_ONCE, "p");
    assert Edits.NodesNotOf(SAVED_ONCE, "p") == [];
    assert Edits.NodesOf(SAVED_ONCE, "p") == [SAMPLE_NODE];
    assert Edits.NodesNotOf(SAVED_ONCE, "p") + normalized.value == SAVED_ONCE.nodes;
  }

  lemma SavedOnceIsValid()
    ensures Domain.Valid(SAVED_ONCE)
  {
    assert SAVED_ONCE.subscriptions[0] in SAVED_ONCE.subscriptions && SAVED_ONCE.providers[0] in SAVED_ONCE.providers;
    assert !Blank("s") by { assert "s"[0] == 's'; }
    assert !Blank("p") by { assert "p"[0] == 'p'; }
    assert !Blank("n") by { assert "n"[0] == 'n'; }
  }

  lemma ProjectedIdNotEmpty(s: AppState)
    requires Project(s).Ok?
    ensures Project(s).value.subscriptionId != ""
    ensures s.activeId == Some(Project(s).value.subscriptionId) && s.generation == Project(s).value.generation
  {
    var sub := s.activeId.value;
    var row :| row in s.subscriptions && row.id == sub;
    UniqueIsDistinct(s.subscriptions, SubscriptionId);
    assert !Blank(SubscriptionId(row));
  }

  /** The code shown for a failed activation is that of the answer. */
  lemma ActivationCodesAgree(operationId: string, error: SidecarError, lifecycle: Observations.Lifecycle)
    ensures var (wire, code, log) := ActivationFailureOf(error, lifecycle);
      && ActivationEnd(operationId, ActivationFailed(wire)) == Observations.Switch(operationId, Observations.Failed, Some(code))
      && code != Observations.CancelledCode
  {
  }

  lemma DocumentCodesAgree(operationId: string, generation: nat, error: SidecarError, lifecycle: Observations.Lifecycle)
    ensures var (wire, code, log) := DocumentFailureOf(error, lifecycle);
      && DocumentEnd(operationId, DocumentSaved(ApplyFailed(generation, wire)))
           == Observations.Switch(operationId, Observations.Failed, Some(code))
      && code != Observations.CancelledCode
  {
  }

  class RuntimeWorker {
    const clock: Clock
    const observations: Observations.RuntimeObservations
    var runtime: SidecarRuntime?
    /** The register; None when no file exists. */
    var store: Option<AppState>
    /** What this worker saved, and what the register held at each of its commit points. */
    ghost var saves: seq<AppState>
    ghost var committed: seq<AppState>

    /** What the observation says is applied is what a Ready core runs. This holds at every moment,
        also between a change of the core and the report of it. */
    ghost predicate Base()
      reads this, observations, runtime
    {
      && Observations.AppliedConsistent(observations.snapshot)
      && (runtime == null ==> observations.snapshot.appliedId.None?)
      && (runtime != null ==> runtime.Valid())
      && (runtime != null && runtime.Lifecycle() == Observations.Ready && observations.snapshot.appliedId.Some? ==>
            Runs(observations.snapshot.appliedId.value, observations.snapshot.appliedGeneration.value))
    }

    /** Every change of the core has been reported: Ready is observed only while the core is Ready. */
    ghost predicate Steady()
      reads this, observations, runtime
    {
      && Base()
      && (observations.snapshot.lifecycle == Observations.Ready ==>
            runtime != null && runtime.Lifecycle() == Observations.Ready)
    }

    ghost predicate Runs(id: Id, generation: nat)
      reads this, runtime
    {
      && runtime != null && runtime.active.Some?
      && runtime.active.value.projection.subscriptionId == id
      && runtime.active.value.projection.generation == generation
    }

    /** The operation observed is this one, and it has not ended well yet. */
    predicate Follows(operationId: string)
      reads this, observations
    {
      && observations.snapshot.switch.Some? && observations.snapshot.switch.value.operationId == operationId
      && observations.snapshot.switch.value.status != Observations.SwitchReady
    }

    predicate Shows(end: Observations.Switch)
      reads this, observations
    {
      observations.snapshot.switch == Some(end)
    }

    /** Between requests no candidate is left over. */
    ghost predicate Valid()
      reads this, observations, runtime
    {
      Steady() && (runtime != null ==> runtime.candidate.None?)
    }

    constructor (initial: Option<AppState>)
      ensures Valid() && store == initial && saves == [] && committed == [] && runtime == null
    {
      clock := new Clock();
      observations := new Observations.RuntimeObservations();
      runtime, store := null, initial;
      saves, committed := [], [];
    }

    // ---- observation calls -------------------------------------------------------------------------

    method SwitchPhase(operationId: string, status: Observations.SwitchStatus, error: Option<Observations.SwitchError>)
      requires Steady()
      requires Observations.IsSwitch(Observations.Switch(operationId, status, error)) && status != Observations.SwitchReady
      modifies clock, observations
      ensures Steady()
      ensures observations.snapshot.appliedId == old(observations.snapshot.appliedId)
      ensures observations.snapshot.appliedGeneration == old(observations.snapshot.appliedGeneration)
      ensures observations.snapshot.lifecycle == old(observations.snapshot.lifecycle)
      ensures status == Observations.Queued || old(Follows(operationId)) ==>
        Shows(Observations.Switch(operationId, status, error)) && Follows(operationId)
    {
      var now := clock.Read();
      var change := Observations.Switch(operationId, status, error);
      Observations.ChangeKeepsApplied(observations.snapshot, Observations.SwitchChanged(change));
      observations.RecordSubscriptionSwitch(change, now);
    }

    /** A failure that reports the core's lifecycle catches up with the core. */
    method RecordFailure(lifecycle: Option<Observations.Lifecycle>, failure: Observations.Failure)
      requires Base() && (lifecycle.None? ==> Steady())
      requires lifecycle == Some(Observations.Ready) ==> runtime != null && runtime.Lifecycle() == Observations.Ready
      modifies clock, observations
      ensures Steady()
      ensures lifecycle.Some? && lifecycle.value != Observations.Ready ==> observations.snapshot.appliedId.None?
      ensures lifecycle.Some? ==> observations.snapshot.lifecycle == lifecycle.value
      ensures forall operationId :: old(Follows(operationId)) ==> Follows(operationId)
    {
      var now := clock.Read();
      Observations.ChangeKeepsApplied(observations.snapshot, Observations.ManagedFailure(lifecycle, failure));
      observations.RecordManagedFailure(lifecycle, failure, now);
    }

    /** Publish a core that has just become Ready together with what it runs. */
    method PublishReady(projection: Projected, operationId: Option<string>)
      requires Observations.AppliedConsistent(observations.snapshot)
      requires runtime != null && runtime.Valid() && runtime.Lifecycle() == Observations.Ready
      requires runtime.active.Some? && runtime.active.value.projection == projection
      requires projection.subscriptionId != "" && operationId != Some("")
      modifies clock, observations
      ensures Steady()
      ensures observations.snapshot.lifecycle == Observations.Ready
      ensures observations.snapshot.appliedId == Some(projection.subscriptionId)
      ensures observations.snapshot.appliedGeneration == Some(projection.generation)
      ensures operationId.Some? ==>
        observations.snapshot.switch == Some(Observations.Switch(operationId.value, Observations.SwitchReady, None))
    {
      var now := clock.Read();
      var e := Observations.SubscriptionReady(projection.subscriptionId, projection.generation, operationId, false);
      Observations.ChangeKeepsApplied(observations.snapshot, e);
      observations.RecordSubscriptionReady(projection.subscriptionId, projection.generation, operationId, false, now);
    }

    method RuntimeFailure(operationId: string, error: SidecarError) returns (r: ActivationResult)
      requires runtime != null && Base() && operationId != ""
      modifies clock, observations
      ensures Steady()
      ensures r == ActivationFailed(ActivationFailureOf(error, runtime.Lifecycle()).0)
      ensures observations.snapshot.lifecycle == runtime.Lifecycle()
      ensures old(Follows(operationId)) ==> Shows(ActivationEnd(operationId, r))
    {
      var lifecycle := runtime.Lifecycle();
      ActivationCodesAgree(operationId, error, lifecycle);
      hide ActivationFailureOf, ActivationEnd, ActivationCode, Follows;
      var (wire, code, log) := ActivationFailureOf(error, lifecycle);
      RecordFailure(Some(lifecycle), log);
      SwitchPhase(operationId, Observations.Failed, Some(code));
      r := ActivationFailed(wire);
    }

    // ---- activation ----------------------------------------------------------------------------------

    /** The critical section: load, compare with what the preflight read, save. */
    method PersistActivation(request: ActivationRequest, env: ActivationEnv) returns (r: Result<bool, ActivationError>)
      modifies this`store, this`saves, this`committed
      ensures r == Ok(true) <==>
        env.gateFree && env.loads && old(store) == Some(request.expected) && !env.cancelledInGate
        && (request.candidate != request.expected ==> env.saves)
      ensures r == Ok(true) ==>
        && store == Some(request.candidate) && committed == old(committed) + [request.candidate]
        && saves == old(saves) + (if request.candidate != request.expected then [request.candidate] else [])
      ensures r != Ok(true) ==> store == old(store) && saves == old(saves) && committed == old(committed)
      ensures r.Ok? <==>
        && env.gateFree && env.loads && old(store) == Some(request.expected)
        && (env.cancelledInGate || (request.candidate != request.expected ==> env.saves))
      ensures r == Ok(false) <==>
        env.gateFree && env.loads && old(store) == Some(request.expected) && env.cancelledInGate
      ensures r.Err? ==>
        r.error ==
          if !env.gateFree then ActivationError.Busy
          else if !env.loads || old(store).None? then ActivationError.StateUnavailable
          else if old(store) != Some(request.expected) then ActivationError.Busy else ActivationError.SaveFailed
    {
      if !env.gateFree { return Err(ActivationError.Busy); }
      if !env.loads || store.None? { return Err(ActivationError.StateUnavailable); }
      if store.value != request.expected { return Err(ActivationError.Busy); }
      if env.cancelledInGate { return Ok(false); }
      if request.candidate != request.expected {
        if !env.saves { return Err(ActivationError.SaveFailed); }
        store := Some(request.candidate);
        saves := saves + [request.candidate];
      }
      committed := committed + [request.candidate];
      r := Ok(true);
    }

    /** Every exit between a successful prepare and the commit point cancels once. */
    method LeaveCancelled(operationId: string, cancels: bool, failure: Option<ActivationError>) returns (r: ActivationResult)
      requires runtime != null && Steady() && operationId != ""
      requires failure.Some? ==> failure.value in {ActivationError.Busy, ActivationError.StateUnavailable, ActivationError.SaveFailed}
      modifies clock, observations, runtime
      ensures Valid() && runtime.calls == old(runtime.calls) + [Cancel(cancels)]
      ensures r == if !cancels then ActivationFailed(ActivationError.RecoveryRequired)
                   else if failure.None? then Pending else ActivationFailed(failure.value)
      ensures old(Follows(operationId)) ==> Shows(ActivationEnd(operationId, r))
      ensures runtime.active == old(runtime.active) && runtime.child == old(runtime.child)
    {
      var cancelled := runtime.CancelPrepared(cancels);
      if cancelled.Err? {
        r := RuntimeFailure(operationId, cancelled.error);
        return;
      }
      match failure {
        case None =>
          SwitchPhase(operationId, Observations.Cancelled, Some(Observations.CancelledCode));
          r := Pending;
        case Some(error) =>
          var code := match error
            case Busy => Observations.Busy
            case SaveFailed => Observations.SaveFailed
            case _ => Observations.StateUnavailable;
          RecordFailure(None, Observations.ConfigurationFailure);
          SwitchPhase(operationId, Observations.Failed, Some(code));
          r := ActivationFailed(error);
      }
    }

    /** Up to and including the commit point; None when the commit point was reached. */
    method PrepareAndPersist(request: ActivationRequest, env: ActivationEnv) returns (early: Option<ActivationResult>)
      requires Valid() && runtime != null && request.operationId != ""
      modifies this`store, this`saves, this`committed, clock, observations, runtime
      ensures old(Follows(request.operationId)) ==>
        if early.Some? then Shows(ActivationEnd(request.operationId, early.value)) else Follows(request.operationId)
      ensures early.Some? ==> Valid() && (early.value.Pending? || early.value.ActivationFailed?)
      ensures early.Some? ==> early.value == ActivationAnswer(request, env, old(runtime.recoveryRequired), old(runtime.child.Some?), old(store))
      ensures early.None? ==> !runtime.recoveryRequired
      ensures early.None? ==>
        Steady() && runtime.candidate == Some(request.config) && runtime.calls == old(runtime.calls) + [Prepare(true)]
      ensures early.Some? ==>
        || runtime.calls == old(runtime.calls) + [Prepare(false)]
        || runtime.calls == old(runtime.calls) + [Prepare(true), Cancel(env.cancels)]
      ensures early == Some(Pending) ==> runtime.calls == old(runtime.calls) + [Prepare(true), Cancel(true)]
      ensures runtime.active == old(runtime.active) && runtime.child == old(runtime.child)
      ensures early.Some? ==>
        && saves == old(saves) && committed == old(committed)
        && (store == old(store) || (env.interference.Some? && store == env.interference.value))
      ensures early.None? ==>
        && store == Some(request.candidate) && committed == old(committed) + [request.candidate]
        && saves == old(saves) + (if request.candidate != request.expected then [request.candidate] else [])
      ensures early.None? <==> ReachesCommitPoint(request, env, old(runtime.recoveryRequired), old(store))
    {
      hide ActivationAnswer, PrepareWorks;
      ghost var recovery, core := runtime.recoveryRequired, runtime.child.Some?;
      early := PrepareCandidate(request, env);
      if early.Some? { return; }
      assert !recovery && !runtime.recoveryRequired && core == runtime.child.Some?;
      early := PersistOrLeave(request, env);
    }

    method PersistOrLeave(request: ActivationRequest, env: ActivationEnv) returns (early: Option<ActivationResult>)
      requires Steady() && runtime != null && request.operationId != ""
      requires !runtime.recoveryRequired && PrepareWorks(env.prepare) && !env.cancelled
      modifies this`store, this`saves, this`committed, clock, observations, runtime
      ensures old(Follows(request.operationId)) ==>
        if early.Some? then Shows(ActivationEnd(request.operationId, early.value)) else Follows(request.operationId)
      ensures early.Some? ==> early.value == ActivationAnswer(request, env, old(runtime.recoveryRequired), old(runtime.child.Some?), old(store))
      ensures early.None? ==> !runtime.recoveryRequired
      ensures early.None? <==>
        && env.gateFree && env.loads && !env.cancelledInGate
        && (if env.interference.Some? then env.interference.value else old(store)) == Some(request.expected)
        && (request.candidate != request.expected ==> env.saves)
      ensures early.None? ==>
        && Steady() && runtime.candidate == old(runtime.candidate) && runtime.calls == old(runtime.calls)
        && store == Some(request.candidate) && committed == old(committed) + [request.candidate]
        && saves == old(saves) + (if request.candidate != request.expected then [request.candidate] else [])
      ensures early.Some? ==>
        && Valid() && (early.value.Pending? || early.value.ActivationFailed?)
        && runtime.calls == old(runtime.calls) + [Cancel(env.cancels)]
        && saves == old(saves) && committed == old(committed)
        && (store == old(store) || (env.interference.Some? && store == env.interference.value))
      ensures early == Some(Pending) ==> env.cancels
      ensures runtime.active == old(runtime.active) && runtime.child == old(runtime.child)
    {
      if env.interference.Some? { store := env.interference.value; }
      var persisted := PersistActivation(request, env);
      if persisted == Ok(true) { return None; }
      var left := LeaveCancelled(request.operationId, env.cancels, if persisted.Err? then Some(persisted.error) else None);
      early := Some(left);
    }

    /** Check and prepare the candidate; leave again if the request was cancelled meanwhile. */
    method PrepareCandidate(request: ActivationRequest, env: ActivationEnv) returns (early: Option<ActivationResult>)
      requires Valid() && runtime != null && request.operationId != ""
      modifies clock, observations, runtime
      ensures old(Follows(request.operationId)) ==>
        if early.Some? then Shows(ActivationEnd(request.operationId, early.value)) else Follows(request.operationId)
      ensures early.Some? ==> Valid() && (early.value.Pending? || early.value.ActivationFailed?)
      ensures early.Some? ==> early.value == ActivationAnswer(request, env, old(runtime.recoveryRequired), old(runtime.child.Some?), store)
      ensures early.None? ==> !runtime.recoveryRequired
      ensures early.None? ==>
        Steady() && runtime.candidate == Some(request.config) && runtime.calls == old(runtime.calls) + [Prepare(true)]
      ensures early.Some? ==>
        || runtime.calls == old(runtime.calls) + [Prepare(false)]
        || runtime.calls == old(runtime.calls) + [Prepare(true), Cancel(env.cancels)]
      ensures early == Some(Pending) ==> runtime.calls == old(runtime.calls) + [Prepare(true), Cancel(true)]
      ensures runtime.active == old(runtime.active) && runtime.child == old(runtime.child)
      ensures early.None? <==> !old(runtime.recoveryRequired) && PrepareWorks(env.prepare) && !env.cancelled
    {
      SwitchPhase(request.operationId, Observations.Checking, None);
      var prepared := runtime.PrepareReplacement(request.config, env.prepare);
      if prepared.Err? {
        var failed := RuntimeFailure(request.operationId, prepared.error);
        return Some(failed);
      }
      SwitchPhase(request.operationId, Observations.Prepared, None);
      if env.cancelled {
        var left := LeaveCancelled(request.operationId, env.cancels, None);
        return Some(left);
      }
      early := None;
    }

    /** After the commit point: replace the core and publish what it runs. */
    method CommitAndPublish(operationId: string, projection: Projected, commit: CommitOutcome)
      returns (applied: Result<(), SidecarError>)
      requires Steady() && runtime != null && operationId != "" && projection.subscriptionId != ""
      requires runtime.candidate.Some? && runtime.candidate.value.projection == projection && !runtime.recoveryRequired
      modifies clock, observations, runtime
      ensures applied.Err? && old(Follows(operationId)) ==> Follows(operationId)
      ensures applied.Err? ==>
        && applied.error != CandidateCheck && applied.error != CandidatePrepare
        && (applied.error == ActiveStop <==> CommitFailureOf(commit, old(runtime.child.Some?)) == OldStays)
        && (runtime.Lifecycle() == Observations.RecoveryRequired <==> CommitFailureOf(commit, old(runtime.child.Some?)) != NewFails)
      ensures runtime.calls == old(runtime.calls) + [Commit(applied.Ok?)] && runtime.candidate.None?
      ensures applied.Ok? <==> CommitWorks(commit, old(runtime.child.Some?))
      ensures applied.Ok? ==>
        && Valid()
        && runtime.Lifecycle() == Observations.Ready && runtime.active == old(runtime.candidate)
        && observations.snapshot.lifecycle == Observations.Ready
        && observations.snapshot.appliedId == Some(projection.subscriptionId)
        && observations.snapshot.appliedGeneration == Some(projection.generation)
        && observations.snapshot.switch == Some(Observations.Switch(operationId, Observations.SwitchReady, None))
      ensures applied.Err? ==> Base() && runtime.Lifecycle() != Observations.Ready
    {
      SwitchPhase(operationId, Observations.Applying, None);
      applied := runtime.CommitPrepared(commit);
      if applied.Ok? { PublishReady(projection, Some(operationId)); }
    }

    /** The activation protocol. It saves only after a successful prepare and a match with the
        expected state inside the gate; the core is replaced only after that; every other exit
        leaves the register alone and cancels the candidate exactly once if there is one; a
        pending answer means that nothing was saved; success publishes the pair persisted at the
        commit point, and that is what the core runs. */
    method ApplyActivation(request: ActivationRequest, env: ActivationEnv) returns (r: ActivationResult)
      requires Valid() && runtime != null && RequestSound(request)
      modifies this`store, this`saves, this`committed, clock, observations, runtime
      ensures Valid() && !r.AlreadyCurrent?
      ensures old(Follows(request.operationId)) ==> Shows(ActivationEnd(request.operationId, r))
      ensures r == ActivationAnswer(request, env, old(runtime.recoveryRequired), old(runtime.child.Some?), old(store))
      ensures committed != old(committed) <==>
        ReachesCommitPoint(request, env, old(runtime.recoveryRequired), old(store))
      ensures committed == old(committed) ==>
        && saves == old(saves) && runtime.active == old(runtime.active) && runtime.child == old(runtime.child)
        && (store == old(store) || (env.interference.Some? && store == env.interference.value))
        && (r.Pending? || r.ActivationFailed?)
        && (|| runtime.calls == old(runtime.calls) + [Prepare(false)]
            || runtime.calls == old(runtime.calls) + [Prepare(true), Cancel(env.cancels)])
      ensures committed != old(committed) ==>
        && committed == old(committed) + [request.candidate] && store == Some(request.candidate)
        && saves == old(saves) + (if request.candidate != request.expected then [request.candidate] else [])
        && !r.Pending? && (r.Activated? || r.Reactivated? <==> CommitWorks(env.commit, old(runtime.child.Some?)))
        && runtime.calls == old(runtime.calls) + [Prepare(true), Commit(r.Activated? || r.Reactivated?)]
      ensures r.Activated? || r.Reactivated? ==>
        && observations.snapshot.appliedId == request.candidate.activeId
        && observations.snapshot.appliedGeneration == Some(request.candidate.generation) == Some(r.generation)
        && observations.snapshot.switch == Some(Observations.Switch(request.operationId, Observations.SwitchReady, None))
        && observations.snapshot.lifecycle == Observations.Ready
        && runtime.Lifecycle() == Observations.Ready && runtime.active == Some(request.config)
        && r.Reactivated? == request.reactivation
    {
      hide Project, Edits.ActivateDelta;
      ProjectedIdNotEmpty(request.candidate);
      var early := PrepareAndPersist(request, env);
      if early.Some? { return early.value; }
      SwitchPhase(request.operationId, Observations.Persisted, None);
      var applied := CommitAndPublish(request.operationId, request.projection, env.commit);
      if applied.Err? {
        r := RuntimeFailure(request.operationId, applied.error);
        return;
      }
      r := if request.reactivation then Reactivated(request.projection.generation) else Activated(request.projection.generation);
    }

    /** The observation shows this subscription as applied in the generation its activation leads to. */
    predicate ShowsApplied(id: Id)
      reads this, observations
    {
      && store.Some? && Edits.ActivateDelta(store.value, id).Ok?
      && observations.snapshot.lifecycle == Observations.Ready && observations.snapshot.appliedId == Some(id)
      && observations.snapshot.appliedGeneration == Some(Edits.ActivateDelta(store.value, id).value.generation)
    }

    /** activate_with_expected_generation up to the request: everything the worker will rely on. */
    method Preflight(id: Id, force: bool, expectedGeneration: Option<nat>, operationId: string, env: PreflightEnv)
      returns (r: Preflighted)
      requires Valid() && operationId != ""
      ensures r.Send? <==> PreflightOpen(store, id, expectedGeneration, env) && !(!force && ShowsApplied(id)) && env.compiles
      ensures r.Answer? && r.result.AlreadyCurrent? <==>
        PreflightOpen(store, id, expectedGeneration, env) && !force && ShowsApplied(id)
      ensures r.Send? ==>
        && RequestSound(r.request) && store == Some(r.request.expected)
        && r.request.operationId == operationId && r.request.candidate.activeId == Some(id)
        && r.request.reactivation == (force && r.request.expected.activeId == Some(id))
      ensures r.Send? && expectedGeneration.Some? ==>
        r.request.candidate == r.request.expected && r.request.expected.generation == expectedGeneration.value
      ensures r.Answer? && r.result.AlreadyCurrent? ==>
        && !force && store.Some? && Edits.ActivateDelta(store.value, id).Ok?
        && Edits.ActivateDelta(store.value, id).value.generation == r.result.generation
        && runtime != null && runtime.Lifecycle() == Observations.Ready && Runs(id, r.result.generation)
      ensures
        && !env.shuttingDown && !Blank(id) && |id| <= 128
        && env.guards && env.gateFree && env.loads && store.Some? && expectedGeneration.Some?
        && (store.value.activeId != Some(id) || store.value.generation != expectedGeneration.value)
        ==> r == Answer(ActivationFailed(StateChanged))
      ensures r.Answer? ==> r.result.AlreadyCurrent? || r.result.ActivationFailed?
      ensures r.Answer? && r.result.ActivationFailed? ==>
        r.result.error ==
          if env.shuttingDown then ActivationError.Busy
          else if Blank(id) || |id| > 128 then InvalidInput
          else if !env.guards || !env.gateFree then ActivationError.Busy
          else if !env.loads || store.None? then ActivationError.StateUnavailable
          else if expectedGeneration.Some? && (store.value.generation != expectedGeneration.value || store.value.activeId != Some(id))
          then StateChanged
          else if Edits.ActivateDelta(store.value, id) == Err(Edits.OpError.NotFound) then ActivationError.NotFound
          else if Edits.ActivateDelta(store.value, id) == Err(Edits.OpError.SelectionConflict) then ActivationError.SelectionConflict
          else ActivationError.ConfigurationFailed
    {
      hide Project, Domain.Valid;
      if env.shuttingDown { return Answer(ActivationFailed(ActivationError.Busy)); }
      if Blank(id) || |id| > 128 { return Answer(ActivationFailed(InvalidInput)); }
      if !env.guards { return Answer(ActivationFailed(ActivationError.Busy)); }
      if !env.gateFree { return Answer(ActivationFailed(ActivationError.Busy)); }
      if !env.loads || store.None? { return Answer(ActivationFailed(ActivationError.StateUnavailable)); }
      var expected := store.value;
      if expectedGeneration.Some? && (expected.generation != expectedGeneration.value || expected.activeId != Some(id)) {
        return Answer(ActivationFailed(StateChanged));
      }
      var moved := Edits.ActivateDelta(expected, id);
      if moved.Err? { return Answer(ActivationFailed(ActivationErrorOf(moved.error))); }
      var candidate := moved.value;
      var projection := Project(candidate).value;
      var snapshot := observations.snapshot;
      if !force && snapshot.lifecycle == Observations.Ready
         && snapshot.appliedId == Some(id) && snapshot.appliedGeneration == Some(candidate.generation) {
        return Answer(AlreadyCurrent(candidate.generation));
      }
      if !env.compiles { return Answer(ActivationFailed(ActivationError.ConfigurationFailed)); }
      r := Send(ActivationRequest(operationId, expected, candidate, projection, Config(projection, env.secret),
                                  force && expected.activeId == Some(id)));
    }

    /** No call, a failed prepare, or a successful prepare followed by one cancel. */
    ghost predicate CallsBeforeCommit(earlier: seq<Call>, later: seq<Call>, cancels: bool) {
      || later == earlier
      || later == earlier + [Prepare(false)]
      || later == earlier + [Prepare(true), Cancel(cancels)]
    }

    /** The worker's branch for an activation: announce it, create the runtime if there is none. */
    method HandleActivate(request: ActivationRequest, env: ActivationEnv) returns (r: ActivationResult)
      requires Valid() && RequestSound(request)
      modifies this, clock, observations, runtime
      ensures Valid()
      ensures Shows(ActivationEnd(request.operationId, r))
      ensures r ==
        if old(runtime) == null && !env.createsRuntime then ActivationFailed(ActivationError.StartFailed)
        else ActivationAnswer(request, env, old(runtime != null && runtime.recoveryRequired),
                              old(runtime != null && runtime.child.Some?), old(store))
      ensures committed != old(committed) <==>
        && (old(runtime) != null || env.createsRuntime)
        && ReachesCommitPoint(request, env, old(runtime != null && runtime.recoveryRequired), old(store))
      ensures committed == old(committed) ==>
        && saves == old(saves) && (store == old(store) || (env.interference.Some? && store == env.interference.value))
        && (r.Pending? || r.ActivationFailed?)
        && (runtime != null ==> CallsBeforeCommit(old(if runtime == null then [] else runtime.calls), runtime.calls, env.cancels))
      ensures committed != old(committed) ==>
        && committed == old(committed) + [request.candidate] && store == Some(request.candidate)
        && saves == old(saves) + (if request.candidate != request.expected then [request.candidate] else [])
        && !r.Pending? && runtime != null
        && (r.Activated? || r.Reactivated? <==> CommitWorks(env.commit, old(runtime != null && runtime.child.Some?)))
        && runtime.calls == old(if runtime == null then [] else runtime.calls) + [Prepare(true), Commit(r.Activated? || r.Reactivated?)]
      ensures r.Activated? || r.Reactivated? ==>
        && committed != old(committed) && request.candidate.activeId.Some? && r.generation == request.candidate.generation
        && Runs(request.candidate.activeId.value, request.candidate.generation)
        && ReadyWith(request.candidate.activeId.value, request.candidate.generation)
        && r.Reactivated? == request.reactivation
    {
      hide Project, Edits.ActivateDelta, ReachesCommitPoint;
      SwitchPhase(request.operationId, Observations.Queued, None);
      if runtime == null {
        if !env.createsRuntime {
          SwitchPhase(request.operationId, Observations.Failed, Some(Observations.StartFailed));
          return ActivationFailed(StartFailed);
        }
        runtime := new SidecarRuntime();
      }
      ProjectedIdNotEmpty(request.candidate);
      r := ApplyActivation(request, env);
    }

    // ---- starting, stopping, sampling, reading --------------------------------------------------------

    method StartStopped(config: Config, prepare: PrepareOutcome, commit: CommitOutcome) returns (r: StartResult)
      requires Valid() && runtime != null && config.projection.subscriptionId != ""
      modifies clock, observations, runtime
      ensures Valid()
      ensures r == Started <==>
        !old(runtime.recoveryRequired) && PrepareWorks(prepare) && CommitWorks(commit, old(runtime.child.Some?))
      ensures r == Started ==>
        && runtime.active == Some(config) && runtime.Lifecycle() == Observations.Ready
        && observations.snapshot.lifecycle == Observations.Ready
        && observations.snapshot.appliedId == Some(config.projection.subscriptionId)
        && observations.snapshot.appliedGeneration == Some(config.projection.generation)
      ensures r == Started || r == StartConfigurationFailed || r == CoreStartFailed
    {
      var done := runtime.PrepareReplacement(config, prepare);
      if done.Ok? { done := runtime.CommitPrepared(commit); }
      if done.Err? {
        var lifecycle := runtime.Lifecycle();
        var configuration := (done.error == CandidateCheck || done.error == CandidatePrepare)
          && lifecycle != Observations.RecoveryRequired;
        RecordFailure(Some(lifecycle), if configuration then Observations.ConfigurationFailure else Observations.StartFailure);
        return if configuration then StartConfigurationFailed else CoreStartFailed;
      }
      PublishReady(config.projection, None);
      r := Started;
    }

    method StopRuntime(stopsChild: bool, cancels: bool) returns (r: StopResult)
      requires Valid()
      modifies clock, observations, runtime
      ensures Valid() && observations.snapshot.appliedId.None?
      ensures r == AlreadyStopped <==> old(runtime == null || runtime.Lifecycle() == Observations.Stopped)
      ensures r == CoreStopFailed <==>
        old(runtime != null && runtime.Lifecycle() != Observations.Stopped) && ((old(runtime.child.Some?) && !stopsChild) || !cancels)
      ensures r != CoreStopFailed ==> runtime == null || runtime.child.None?
      ensures r == CoreStopFailed ==> runtime != null && runtime.recoveryRequired
    {
      if runtime == null || runtime.Lifecycle() == Observations.Stopped {
        var now := clock.Read();
        observations.RecordManagedStopped(now);
        return AlreadyStopped;
      }
      var stopped := runtime.StopCore(stopsChild, cancels);
      if stopped.Ok? {
        var now := clock.Read();
        observations.RecordManagedStopped(now);
        return CoreStopped;
      }
      RecordFailure(Some(Observations.RecoveryRequired), Observations.StopFailure);
      r := CoreStopFailed;
    }

    /** One second's sample; a core that cannot be read is stopped. */
    method SampleRuntime(reading: Option<Observations.CoreReading>, memory: Option<nat>, stopsChild: bool, cancels: bool)
      requires Valid()
      modifies clock, observations, runtime
      ensures Valid()
      ensures runtime != null && old(runtime.Lifecycle()) == Observations.Ready && reading.None? ==>
        observations.snapshot.appliedId.None? && runtime.Lifecycle() != Observations.Ready
      ensures !(runtime != null && old(runtime.Lifecycle()) == Observations.Ready && reading.None?) && runtime != null ==>
        && runtime.active == old(runtime.active) && runtime.child == old(runtime.child) && runtime.calls == old(runtime.calls)
        && observations.snapshot.appliedId == old(observations.snapshot.appliedId)
        && observations.snapshot.lifecycle ==
             old(if runtime.Lifecycle() == Observations.Ready then Observations.Ready else observations.snapshot.lifecycle)
    {
      if runtime == null || runtime.Lifecycle() != Observations.Ready { return; }
      if reading.Some? {
        var now := clock.Read();
        var shown := if memory.Some? && memory.value <= MAX_SAFE_INTEGER then memory else None;
        Observations.ChangeKeepsApplied(observations.snapshot, Observations.ManagedSample(reading.value, shown));
        observations.RecordManagedSample(reading.value, shown, now);
      } else {
        var stopped := runtime.StopCore(stopsChild, cancels);
        var lifecycle := if stopped.Ok? then runtime.Lifecycle() else Observations.RecoveryRequired;
        RecordFailure(Some(lifecycle), Observations.ObservationFailure);
      }
    }

    /** The running configuration is never shown under the name of another subscription or
        generation. */
    method ReadRunningConfiguration(tooLarge: bool) returns (r: RunningConfiguration)
      requires Valid()
      modifies clock, observations
      ensures Valid()
      ensures r.RunningConfig? ==>
        && runtime != null && runtime.Lifecycle() == Observations.Ready && runtime.active == Some(r.config)
        && r.config.projection.subscriptionId == r.id && r.config.projection.generation == r.generation
      ensures r.RunningConfig? <==>
        && runtime != null && runtime.Lifecycle() == Observations.Ready && !tooLarge
        && old(observations.snapshot.lifecycle) == Observations.Ready && old(observations.snapshot.appliedId.Some?)
      ensures runtime == null ==> r == NoRunningConfig(false, false)
    {
      var now := clock.Read();
      var seen := observations.Snapshot(now);
      if runtime == null || runtime.Lifecycle() == Observations.Stopped { return NoRunningConfig(false, false); }
      if runtime.Lifecycle() == Observations.RecoveryRequired || seen.lifecycle != Observations.Ready {
        return NoRunningConfig(true, false);
      }
      if tooLarge { return NoRunningConfig(false, true); }
      if seen.appliedId.None? || seen.appliedGeneration.None? { return NoRunningConfig(true, false); }
      r := RunningConfig(runtime.active.value, seen.appliedId.value, seen.appliedGeneration.value);
    }

    // ---- document save ---------------------------------------------------------------------------------

    ghost function ContextFor(p: Edits.Prepared, id: Id): Context
      reads this, observations, runtime
    {
      Context(ReadyWith(id, p.next.generation), runtime != null, runtime != null && runtime.recoveryRequired)
    }

    predicate ReadyWith(id: Id, generation: nat)
      reads this, observations, runtime
    {
      && runtime != null && runtime.Lifecycle() == Observations.Ready
      && observations.snapshot.lifecycle == Observations.Ready
      && observations.snapshot.appliedId == Some(id)
      && observations.snapshot.appliedGeneration == Some(generation)
    }

    /** commit_prepared_document: compare with the state the save was computed from, then save. */
    method CommitDocument(p: Edits.Prepared, env: DocumentEnv) returns (r: Result<(), DocumentSaveError>)
      requires store == Some(p.before)
      modifies this`store, this`saves, this`committed
      ensures r.Ok? <==> CommitOpen(p, env)
      ensures r.Ok? ==>
        && store == Some(p.next) && committed == old(committed) + [p.next]
        && saves == old(saves) + (if p.StateChanged() then [p.next] else [])
      ensures r.Err? ==>
        && r.error == CommitRefusal(p, env)
        && store == FoundAtCommit(p.before, env.interference) && saves == old(saves) && committed == old(committed)
    {
      if env.interference.Some? { store := env.interference.value; }
      if !env.gateFree { return Err(DocBusy); }
      if !env.loads { return Err(DocStateUnavailable); }
      if store.None? { return Err(DocNotFound); }
      if store.value != p.before { return Err(DocumentConflict); }
      if env.closing { return Err(DocBusy); }
      if p.StateChanged() {
        if !env.saves { return Err(DocSaveFailed); }
        store := Some(p.next);
        saves := saves + [p.next];
      }
      committed := committed + [p.next];
      r := Ok(());
    }

    method RefuseSwitch(operationId: string, error: DocumentSaveError) returns (r: DocumentSaveResult)
      requires Steady() && operationId != ""
      modifies clock, observations
      ensures old(Follows(operationId)) ==> Shows(DocumentEnd(operationId, r))
      ensures Steady() && r == DocumentRefused(error)
    {
      SwitchPhase(operationId, Observations.Failed, Some(DocumentSwitchError(error)));
      r := DocumentRefused(error);
    }

    /** Give up a prepared candidate before the commit point. */
    method CancelDocument(operationId: string, cancels: bool, error: DocumentSaveError) returns (r: DocumentSaveResult)
      requires Steady() && runtime != null && operationId != ""
      modifies clock, observations, runtime
      ensures Valid() && runtime.calls == old(runtime.calls) + [Cancel(cancels)]
      ensures old(Follows(operationId)) ==> Shows(DocumentEnd(operationId, r))
      ensures r == DocumentRefused(if cancels then error else DocRecoveryRequired)
      ensures runtime.active == old(runtime.active) && runtime.child == old(runtime.child)
    {
      var cancelled := runtime.CancelPrepared(cancels);
      if cancelled.Err? {
        RecordFailure(Some(Observations.RecoveryRequired), Observations.StopFailure);
        SwitchPhase(operationId, Observations.Failed, Some(DocumentSwitchError(DocRecoveryRequired)));
        return DocumentRefused(DocRecoveryRequired);
      }
      SwitchPhase(operationId, Observations.Failed, Some(DocumentSwitchError(error)));
      r := DocumentRefused(error);
    }

    /** Compile the new state and prepare it as the candidate; None when it is prepared. */
    method PrepareDocumentCandidate(p: Edits.Prepared, operationId: string, env: DocumentEnv)
      returns (early: Option<DocumentSaveResult>)
      requires Valid() && operationId != ""
      modifies this`runtime, clock, observations, runtime
      ensures if early.Some? then Shows(DocumentEnd(operationId, early.value)) else Follows(operationId)
      ensures early.None? <==>
        CandidateMade(p, Context(false, old(runtime != null), false), env)
        && !(old(runtime != null && runtime.recoveryRequired)) && PrepareWorks(env.prepare)
      ensures early.Some? ==> Valid() && early.value == RuntimeSaveAnswer(p, Context(false, old(runtime != null), old(runtime != null && runtime.recoveryRequired)), old(runtime != null && runtime.child.Some?), env)
      ensures early.None? ==>
        && Steady() && runtime != null && !runtime.recoveryRequired && Project(p.next).Ok?
        && runtime.child == old(if runtime == null then None else runtime.child)
        && runtime.candidate == Some(Config(Project(p.next).value, env.secret))
        && runtime.calls == old(if runtime == null then [] else runtime.calls) + [Prepare(true)]
      ensures early.Some? && runtime != null ==>
        || runtime.calls == old(if runtime == null then [] else runtime.calls)
        || runtime.calls == old(if runtime == null then [] else runtime.calls) + [Prepare(false)]
      ensures old(runtime) != null ==> runtime == old(runtime)
      ensures old(runtime) == null && runtime != null ==> fresh(runtime)
    {
      hide Project;
      SwitchPhase(operationId, Observations.Queued, None);
      SwitchPhase(operationId, Observations.Checking, None);
      var projection := Project(p.next);
      if projection.Err? || !env.compiles || (runtime == null && !env.createsRuntime) {
        var refused := RefuseSwitch(operationId, DocConfigurationFailed);
        return Some(refused);
      }
      if runtime == null { runtime := new SidecarRuntime(); }
      early := PrepareConfig(Config(projection.value, env.secret), operationId, env.prepare);
    }

    method PrepareConfig(config: Config, operationId: string, o: PrepareOutcome) returns (early: Option<DocumentSaveResult>)
      requires Valid() && runtime != null && operationId != ""
      modifies clock, observations, runtime
      ensures old(Follows(operationId)) ==>
        if early.Some? then Shows(DocumentEnd(operationId, early.value)) else Follows(operationId)
      ensures early.None? <==> !old(runtime.recoveryRequired) && PrepareWorks(o)
      ensures early.Some? ==>
        early.value == DocumentRefused(if PrepareUnclear(o, old(runtime.recoveryRequired)) then DocRecoveryRequired else DocConfigurationFailed)
      ensures early.None? ==> !runtime.recoveryRequired
      ensures early.None? ==> Steady() && runtime.candidate == Some(config) && runtime.child == old(runtime.child)
      ensures early.Some? ==> Valid() && early.value.DocumentRefused?
      ensures runtime.calls == old(runtime.calls) + [Prepare(early.None?)]
    {
      var prepared := runtime.PrepareReplacement(config, o);
      if prepared.Err? {
        var recovery := runtime.Lifecycle() == Observations.RecoveryRequired;
        if recovery { RecordFailure(Some(Observations.RecoveryRequired), Observations.StopFailure); }
        var refused := RefuseSwitch(operationId, if recovery then DocRecoveryRequired else DocConfigurationFailed);
        return Some(refused);
      }
      early := None;
    }

    /** The prepared candidate up to the commit point; None when the document is committed. */
    method PersistDocument(p: Edits.Prepared, operationId: string, env: DocumentEnv)
      returns (early: Option<DocumentSaveResult>)
      requires Steady() && runtime != null && operationId != "" && store == Some(p.before) && !runtime.recoveryRequired
      modifies this`store, this`saves, this`committed, clock, observations, runtime
      ensures old(Follows(operationId)) ==>
        if early.Some? then Shows(DocumentEnd(operationId, early.value)) else Follows(operationId)
      ensures early.None? <==> !env.expiredBeforeCommit && !env.shutdown && CommitOpen(p, env)
      ensures early.None? ==>
        && Steady() && runtime.candidate == old(runtime.candidate) && runtime.calls == old(runtime.calls)
        && runtime.child == old(runtime.child) && !runtime.recoveryRequired
        && store == Some(p.next) && committed == old(committed) + [p.next]
        && saves == old(saves) + (if p.StateChanged() then [p.next] else [])
      ensures early.Some? ==>
        && early.value == DocumentRefused(
             if !env.cancels then DocRecoveryRequired
             else if env.expiredBeforeCommit || env.shutdown then
               if env.shutdownAfterCancel then DocBusy else DocumentSaveError.OperationTimedOut
             else CommitRefusal(p, env))
        && Valid() && runtime.calls == old(runtime.calls) + [Cancel(env.cancels)]
        && saves == old(saves) && committed == old(committed)
        && store == if env.expiredBeforeCommit || env.shutdown then old(store) else FoundAtCommit(p.before, env.interference)
    {
      SwitchPhase(operationId, Observations.Prepared, None);
      if env.expiredBeforeCommit || env.shutdown {
        var left := CancelDocument(operationId, env.cancels, if env.shutdownAfterCancel then DocBusy else OperationTimedOut);
        return Some(left);
      }
      var commit := CommitDocument(p, env);
      if commit.Err? {
        var left := CancelDocument(operationId, env.cancels, commit.error);
        return Some(left);
      }
      SwitchPhase(operationId, Observations.Persisted, None);
      early := None;
    }

    /** After the commit point: replace the core, or give the candidate up at the deadline. */
    method ApplyDocument(projection: Projected, operationId: string, env: DocumentEnv) returns (apply: DocumentApply)
      requires Steady() && runtime != null && operationId != "" && projection.subscriptionId != ""
      requires runtime.candidate == Some(Config(projection, env.secret)) && !runtime.recoveryRequired
      modifies clock, observations, runtime
      ensures old(Follows(operationId)) ==> Shows(DocumentEnd(operationId, DocumentSaved(apply)))
      ensures apply == ApplyAnswer(projection.generation, old(runtime.child.Some?), env)
      ensures Valid() && apply != NotRequired
      ensures apply.AppliedReady? <==> !env.expiredAfterCommit && CommitWorks(env.commit, old(runtime.child.Some?))
      ensures
        || (env.expiredAfterCommit && runtime.calls == old(runtime.calls) + [Cancel(env.cancels)] && apply.ApplyFailed?)
        || (!env.expiredAfterCommit && runtime.calls == old(runtime.calls) + [Commit(apply.AppliedReady?)])
      ensures apply.AppliedReady? ==>
        && apply.appliedGeneration == projection.generation
        && Runs(projection.subscriptionId, projection.generation)
        && ReadyWith(projection.subscriptionId, projection.generation)
      ensures apply.ApplyFailed? ==> apply.failedGeneration == projection.generation
    {
      var generation := projection.generation;
      if env.expiredAfterCommit {
        apply := ExpireApply(operationId, generation, env.cancels);
        return;
      }
      var applied := CommitAndPublish(operationId, projection, env.commit);
      if applied.Err? {
        apply := ReportApplyFailure(operationId, generation, applied.error);
        return;
      }
      apply := AppliedReady(generation);
    }

    /** The deadline has passed: give the prepared candidate up. */
    method ExpireApply(operationId: string, generation: nat, cancels: bool) returns (apply: DocumentApply)
      requires Steady() && runtime != null && operationId != ""
      modifies clock, observations, runtime
      ensures Valid() && runtime.calls == old(runtime.calls) + [Cancel(cancels)]
      ensures apply == ApplyFailed(generation, if cancels then ApplyTimedOut else ApplyRecoveryRequired)
      ensures old(Follows(operationId)) ==> Shows(DocumentEnd(operationId, DocumentSaved(apply)))
    {
      var cancelled := runtime.CancelPrepared(cancels);
      if cancelled.Err? {
        RecordFailure(Some(Observations.RecoveryRequired), Observations.StopFailure);
        SwitchPhase(operationId, Observations.Failed, Some(Observations.RecoveryNeeded));
        return ApplyFailed(generation, ApplyRecoveryRequired);
      }
      SwitchPhase(operationId, Observations.Failed, Some(Observations.OperationTimedOut));
      apply := ApplyFailed(generation, ApplyTimedOut);
    }

    method ReportApplyFailure(operationId: string, generation: nat, error: SidecarError) returns (apply: DocumentApply)
      requires runtime != null && Base() && operationId != ""
      modifies clock, observations
      ensures Steady()
      ensures apply == ApplyFailed(generation, DocumentFailureOf(error, runtime.Lifecycle()).0)
      ensures old(Follows(operationId)) ==> Shows(DocumentEnd(operationId, DocumentSaved(apply)))
    {
      var lifecycle := runtime.Lifecycle();
      DocumentCodesAgree(operationId, generation, error, lifecycle);
      hide DocumentFailureOf, DocumentEnd, Follows;
      var (wire, code, log) := DocumentFailureOf(error, lifecycle);
      RecordFailure(Some(lifecycle), log);
      SwitchPhase(operationId, Observations.Failed, Some(code));
      apply := ApplyFailed(generation, wire);
    }

    /** What the transaction calls of one save look like: none, a failed prepare, or a successful
        prepare followed by exactly one commit or cancel. */
    ghost predicate CallsOfOneSave(earlier: seq<Call>, later: seq<Call>) {
      || later == earlier
      || later == earlier + [Prepare(false)]
      || later == earlier + [Prepare(true), Cancel(true)] || later == earlier + [Prepare(true), Cancel(false)]
      || later == earlier + [Prepare(true), Commit(true)] || later == earlier + [Prepare(true), Commit(false)]
    }

    /** Prepare, persist, commit. */
    method SaveThroughRuntime(p: Edits.Prepared, operationId: string, env: DocumentEnv) returns (r: DocumentSaveResult)
      requires Valid() && operationId != "" && store == Some(p.before)
      modifies this, clock, observations, runtime
      ensures Valid()
      ensures Shows(DocumentEnd(operationId, r))
      ensures r == RuntimeSaveAnswer(p, Context(false, old(runtime != null), old(runtime != null && runtime.recoveryRequired)), old(runtime != null && runtime.child.Some?), env)
      ensures r.DocumentSaved? <==>
        && CandidateMade(p, Context(false, old(runtime != null), false), env)
        && !(old(runtime != null && runtime.recoveryRequired)) && PrepareWorks(env.prepare)
        && !env.expiredBeforeCommit && !env.shutdown && CommitOpen(p, env)
      ensures r.DocumentSaved? ==>
        && store == Some(p.next) && committed == old(committed) + [p.next]
        && saves == old(saves) + (if p.StateChanged() then [p.next] else [])
        && r.apply != NotRequired
        && (r.apply.AppliedReady? <==> !env.expiredAfterCommit && CommitWorks(env.commit, old(runtime != null && runtime.child.Some?)))
      ensures r.DocumentRefused? ==>
        && saves == old(saves) && committed == old(committed)
        && store == if CandidateMade(p, Context(false, old(runtime != null), false), env)
             && !(old(runtime != null && runtime.recoveryRequired)) && PrepareWorks(env.prepare)
             && !env.expiredBeforeCommit && !env.shutdown
           then FoundAtCommit(p.before, env.interference) else old(store)
      ensures runtime != null ==> CallsOfOneSave(old(if runtime == null then [] else runtime.calls), runtime.calls)
      ensures r.DocumentSaved? && r.apply.AppliedReady? ==>
        && p.next.generation == r.apply.appliedGeneration && p.next.activeId.Some?
        && Runs(p.next.activeId.value, r.apply.appliedGeneration)
        && ReadyWith(p.next.activeId.value, r.apply.appliedGeneration)
    {
      hide Project, CommitOpen, PrepareWorks, DocumentEnd, ApplyAnswer, PrepareUnclear, CommitRefusal, CommitWorks;
      ghost var calls := if runtime == null then [] else runtime.calls;
      var early := PrepareDocumentCandidate(p, operationId, env);
      if early.Some? { return early.value; }
      assert runtime.calls == calls + [Prepare(true)];
      ProjectedIdNotEmpty(p.next);
      early := PersistDocument(p, operationId, env);
      if early.Some? {
        assert runtime.calls == calls + [Prepare(true), Cancel(env.cancels)];
        return early.value;
      }
      var apply := ApplyDocument(Project(p.next).value, operationId, env);
      assert runtime.calls == calls + [Prepare(true), Cancel(env.cancels)]
        || runtime.calls == calls + [Prepare(true), Commit(apply.AppliedReady?)];
      r := DocumentSaved(apply);
    }

    /** The document protocol. Ok is given exactly when the new state was committed, and then the
        register holds it; every refusal leaves the register as other writers left it; a prepared
        candidate is committed or cancelled exactly once; and when nothing had to be applied for the
        selected subscription, the Ready core runs exactly that subscription and generation. */
    method ApplyDocumentSave(input: Edits.DocumentInput, operationId: string, env: DocumentEnv)
      returns (r: DocumentSaveResult)
      requires Valid() && operationId != ""
      modifies this, clock, observations, runtime
      ensures Valid()
      ensures
        if env.refusal.None? && old(store).Some? && Edits.PrepareDocument(old(store).value, input).Ok? && !env.expiredAtStart
           && (var p := Edits.PrepareDocument(old(store).value, input).value; !NeedsNoApply(p, input.id, old(ContextFor(p, input.id))))
        then Shows(DocumentEnd(operationId, r)) else observations.snapshot == old(observations.snapshot)
      ensures r ==
        if env.refusal.Some? then DocumentRefused(env.refusal.value)
        else if old(store).None? then DocumentRefused(DocNotFound)
        else
          var prepared := Edits.PrepareDocument(old(store).value, input);
          if prepared.Err? then DocumentRefused(DocumentErrorOf(prepared.error))
          else SaveAnswer(prepared.value, input.id, old(ContextFor(prepared.value, input.id)),
                          old(runtime != null && runtime.child.Some?), env)
      ensures r.DocumentSaved? <==>
        && env.refusal.None? && old(store).Some? && Edits.PrepareDocument(old(store).value, input).Ok?
        && var p := Edits.PrepareDocument(old(store).value, input).value;
           SaveAccepted(p, input.id, old(ContextFor(p, input.id)), env)
      ensures r.DocumentSaved? ==>
        && var p := Edits.PrepareDocument(old(store).value, input).value;
        && store == Some(p.next) && committed == old(committed) + [p.next]
        && saves == old(saves) + (if p.StateChanged() then [p.next] else [])
        && (r.apply.NotRequired? <==> NeedsNoApply(p, input.id, old(ContextFor(p, input.id))))
        && (r.apply.AppliedReady? <==>
              && !NeedsNoApply(p, input.id, old(ContextFor(p, input.id)))
              && !env.expiredAfterCommit && CommitWorks(env.commit, old(runtime != null && runtime.child.Some?)))
      ensures r.DocumentRefused? ==>
        && saves == old(saves) && committed == old(committed)
        && (store == old(store) || (env.interference.Some? && store == env.interference.value))
      ensures env.refusal.None? && old(store).Some? && Edits.PrepareDocument(old(store).value, input).Ok? ==>
        var p := Edits.PrepareDocument(old(store).value, input).value;
        store == RegisterAfter(p, input.id, old(ContextFor(p, input.id)), env)
      ensures runtime != null ==> CallsOfOneSave(old(if runtime == null then [] else runtime.calls), runtime.calls)
      ensures r.DocumentSaved? && r.apply == NotRequired && store.Some? && store.value.activeId == Some(input.id) ==>
        runtime != null && runtime.Lifecycle() == Observations.Ready && Runs(input.id, store.value.generation)
      ensures r.DocumentSaved? && r.apply == NotRequired && old(store).value.activeId == Some(input.id) ==>
        && CommitMeaning.NothingNew(old(store).value, input) && store.value.generation == old(store).value.generation
        && (Domain.Valid(old(store).value) ==> Project(store.value) == Project(old(store).value))
      ensures r.DocumentSaved? && r.apply.AppliedReady? ==>
        && store.Some? && store.value.generation == r.apply.appliedGeneration && store.value.activeId.Some?
        && Runs(store.value.activeId.value, r.apply.appliedGeneration)
        && ReadyWith(store.value.activeId.value, r.apply.appliedGeneration)
    {
      hide Project, Edits.PrepareDocument, CommitOpen, PrepareWorks, Domain.Valid, CommitMeaning.NothingNew,
        RuntimeSaveAnswer, DocumentEnd, ApplyAnswer;
      if env.refusal.Some? { return DocumentRefused(env.refusal.value); }
      if store.None? { return DocumentRefused(DocNotFound); }
      var prepared := Edits.PrepareDocument(store.value, input);
      if prepared.Err? { return DocumentRefused(DocumentErrorOf(prepared.error)); }
      var p := prepared.value;
      PreparedFromBefore(store.value, input);
      if env.expiredAtStart { return DocumentRefused(OperationTimedOut); }
      var selected := p.next.activeId == Some(input.id);
      if !p.requiresApply && (!selected || ReadyWith(input.id, p.next.generation)) {
        var commit := CommitDocument(p, env);
        NoApplyNeeded(old(store).value, input);
        return if commit.Ok? then DocumentSaved(NotRequired) else DocumentRefused(commit.error);
      }
      ReadyMattersNot(p, old(ContextFor(p, input.id)), old(runtime != null && runtime.child.Some?), env);
      r := SaveThroughRuntime(p, operationId, env);
    }
  }

  /** Through the runtime it makes no difference what was observed before. */
  lemma ReadyMattersNot(p: Edits.Prepared, ctx: Context, hasCore: bool, env: DocumentEnv)
    ensures RuntimeSaveAnswer(p, ctx, hasCore, env) == RuntimeSaveAnswer(p, ctx.(readyWithNext := false), hasCore, env)
  {
  }

  lemma NoApplyNeeded(s: AppState, input: Edits.DocumentInput)
    requires Edits.PrepareDocument(s, input).Ok? && !Edits.PrepareDocument(s, input).value.requiresApply
    ensures Edits.PrepareDocument(s, input).value.next.activeId == s.activeId
    ensures Edits.PrepareDocument(s, input).value.next.generation == s.generation
    ensures s.activeId == Some(input.id) ==>
      && CommitMeaning.NothingNew(s, input)
      && (Domain.Valid(s) ==> Project(Edits.PrepareDocument(s, input).value.next) == Project(s))
  {
    hide Project, Edits.PrepareDocument, Domain.Valid, CommitMeaning.NothingNew;
    CommitLaws.DocumentTouchesOnlyItsOwn(s, input);
    if s.activeId == Some(input.id) {
      CommitMeaning.NotAppliedMeansNothingNew(s, input);
      if Domain.Valid(s) { CommitMeaning.NothingToApply(s, input); }
    }
  }

  lemma PreparedFromBefore(s: AppState, input: Edits.DocumentInput)
    requires Edits.PrepareDocument(s, input).Ok?
    ensures Edits.PrepareDocument(s, input).value.before == s
  {
  }
}
