/** When the subscription writers save at all: each operation of module Edits on a valid state succeeds
    exactly when its input is usable and what it leaves is valid
    (src-tauri/src/application/subscription_management.rs, provider_replacement.rs). */
module CommitSuccess {
  import opened Common
  import opened Domain
  import opened Edits
  import CommitLaws
  import CommitMeaning
  import Projection
  import Routing

  /** A parsed batch the program takes: not empty, every node acceptable, no id twice. */
  ghost predicate BatchUsable(drafts: seq<Draft>) {
    && drafts != [] && (forall d :: d in drafts ==> d.acceptable)
    && forall i, j :: 0 <= i < j < |drafts| ==> drafts[i].id != drafts[j].id
  }

  function NodesFor(providerId: Id, drafts: seq<Draft>): (r: seq<Node>)
    ensures |r| == |drafts|
  {
    seq(|drafts|, k requires 0 <= k < |drafts| => AsNode(providerId, drafts[k]))
  }

  /** The provider's nodes behind all the others. */
  function Swapped(s: AppState, providerId: Id, drafts: seq<Draft>): AppState {
    s.(nodes := NodesNotOf(s, providerId) + NodesFor(providerId, drafts))
  }

  lemma BatchExactly(providerId: Id, drafts: seq<Draft>)
    ensures drafts != [] ==>
      (NormalizeNodes(providerId, drafts).Ok? <==> BatchUsable(drafts))
      && (NormalizeNodes(providerId, drafts).Ok? ==> NormalizeNodes(providerId, drafts).value == NodesFor(providerId, drafts))
  {
  }

  lemma ReplacementExactly(s: AppState, providerId: Id, drafts: seq<Draft>)
    ensures ReplaceNodes(s, providerId, drafts).Ok? <==>
      BatchUsable(drafts) && HasProvider(s, providerId) && Valid(Swapped(s, providerId, drafts))
    ensures ReplaceNodes(s, providerId, drafts).Ok? ==>
      ReplaceNodes(s, providerId, drafts) ==
        Ok(Replacement(Swapped(s, providerId, drafts), NodesOf(s, providerId) != NodesFor(providerId, drafts)))
  {
    BatchExactly(providerId, drafts);
    hide Valid, NodesOf, NodesNotOf, NormalizeNodes, NodesFor;
  }

  // ---- activation -----------------------------------------------------------------------------------------

  /** An activation selects the subscription in the next generation, or leaves everything alone if it
      is selected already; it is possible exactly when the result can be compiled. */
  lemma ActivationExactly(s: AppState, id: Id)
    ensures var t := s.(activeId := Some(id), generation := s.generation + if s.activeId == Some(id) then 0 else 1);
      && (ActivateDelta(s, id).Ok? <==>
            && HasSubscription(s, id) && (s.activeId != Some(id) ==> s.generation < MAX_SAFE_INTEGER)
            && Projection.Project(t).Ok?)
      && (ActivateDelta(s, id).Ok? ==> ActivateDelta(s, id) == Ok(t))
    ensures ActivateDelta(s, id) == Err(SelectionConflict) ==> s.activeId == Some(id) || s.generation < MAX_SAFE_INTEGER
    ensures !HasSubscription(s, id) ==> ActivateDelta(s, id) == Err(OpError.NotFound)
  {
    hide Valid, Projection.Project;
    if s.activeId == Some(id) { assert s == s.(activeId := Some(id), generation := s.generation); }
  }

  // ---- update -----------------------------------------------------------------------------------------------

  /** The state after an update, by its parts. */
  function Updated(s: AppState, at: nat, snapshot: UpdateSnapshot, fetched: Fetched, now: nat): AppState
    requires at < |s.subscriptions|
  {
    var row := CommitLaws.AfterUpdate(s.subscriptions[at], CommitLaws.Answer(fetched, now));
    var pid := snapshot.providerId;
    if fetched.NotModified? then s.(subscriptions := s.subscriptions[at := row])
    else
      var moves := s.activeId == Some(snapshot.subscriptionId) && NodesOf(s, pid) != NodesFor(pid, fetched.parsed.drafts);
      Swapped(s, pid, fetched.parsed.drafts).(
        subscriptions := s.subscriptions[at := row], generation := s.generation + if moves then 1 else 0)
  }

  /** Two states give the same snapshot of a subscription exactly when they agree on everything an
      update depends on. */
  lemma SnapshotNamesItsInputs(s: AppState, t: AppState, id: Id, i: nat, j: nat)
    requires CommitMeaning.RowFor(s, id, i) && CommitMeaning.RowFor(t, id, j)
    requires |ProvidersOf(s, id)| == 1 && |ProvidersOf(t, id)| == 1
    ensures TakeSnapshot(s, id).Ok? && TakeSnapshot(t, id).Ok?
    ensures TakeSnapshot(s, id) == TakeSnapshot(t, id) <==>
      var a, b, p, q := s.subscriptions[i], t.subscriptions[j], ProvidersOf(s, id)[0].id, ProvidersOf(t, id)[0].id;
      && a.source == b.source && a.httpMetadata == b.httpMetadata && a.remoteRequest == b.remoteRequest
      && a.updatePolicy == b.updatePolicy && a.document == b.document && p == q && NodesOf(s, p) == NodesOf(t, q)
  {
    CommitMeaning.FirstPosition(s, id, i);
    CommitMeaning.FirstPosition(t, id, j);
    hide NodesOf, ProvidersOf;
  }

  lemma SnapshotSees(s: AppState, snapshot: UpdateSnapshot)
    requires TakeSnapshot(s, snapshot.subscriptionId) == Ok(snapshot)
    ensures var at := Routing.Position(s.subscriptions, SubscriptionId, snapshot.subscriptionId);
      && at.Some? && HasProvider(s, snapshot.providerId)
      && forall fetched, now :: UpdatedRow(s.subscriptions[at.value], snapshot, fetched, now)
           == CommitLaws.AfterUpdate(s.subscriptions[at.value], CommitLaws.Answer(fetched, now))
  {
    hide NodesOf, MergeMetadata, Adopted;
    assert ProvidersOf(s, snapshot.subscriptionId)[0] in ProvidersOf(s, snapshot.subscriptionId);
  }

  /** Valid rows, ids and references carry over to a state with the same parts. */
  lemma ValidParts(s: AppState, t: AppState, u: AppState)
    requires Valid(s) && Valid(t) && u == t.(subscriptions := s.subscriptions, generation := s.generation)
    requires |s.subscriptions| == |t.subscriptions|
    requires forall i :: 0 <= i < |s.subscriptions| ==> s.subscriptions[i].id == t.subscriptions[i].id
    requires t.providers == s.providers && t.activeId == s.activeId
    ensures Valid(u)
  {
    hide PoolValid, RowValid, UniqueIds, TargetResolves;
    forall p | p in t.pools ensures PoolValid(u, p) { SamePoolValid(t, u, p); }
    forall target ensures TargetResolves(t, target) == TargetResolves(u, target) { SameTarget(t, u, target); }
  }

  lemma SamePoolValid(t: AppState, u: AppState, p: Pool)
    requires PoolValid(t, p) && t.nodes == u.nodes && t.providers == u.providers
    ensures PoolValid(u, p)
  {
    hide ResolveMembers;
  }

  lemma SameTarget(t: AppState, u: AppState, target: Target)
    requires t.pools == u.pools
    ensures TargetResolves(t, target) == TargetResolves(u, target)
  {
  }

  /** An update of a valid state is saved exactly when nothing it depends on has changed since its
      snapshot, the batch is usable and the result valid. */
  lemma UpdateExactly(s: AppState, snapshot: UpdateSnapshot, fetched: Fetched, now: nat, at: nat)
    requires Valid(s) && CommitMeaning.RowFor(s, snapshot.subscriptionId, at)
    ensures UpdateDelta(s, snapshot, fetched, now).Ok? <==>
      && TakeSnapshot(s, snapshot.subscriptionId) == Ok(snapshot) && (fetched.Modified? ==> BatchUsable(fetched.parsed.drafts))
      && Valid(Updated(s, at, snapshot, fetched, now))
    ensures UpdateDelta(s, snapshot, fetched, now).Ok? ==>
      UpdateDelta(s, snapshot, fetched, now) == Ok(Updated(s, at, snapshot, fetched, now))
  {
    CommitMeaning.FirstPosition(s, snapshot.subscriptionId, at);
    if TakeSnapshot(s, snapshot.subscriptionId) != Ok(snapshot) { WrongSnapshot(s, snapshot, fetched, now); return; }
    SnapshotSees(s, snapshot);
    if fetched.NotModified? {
      UnmodifiedCandidate(s, snapshot, fetched, now, at);
      hide TakeSnapshot, Valid, UpdateCandidate, CommitLaws.AfterUpdate, WithRow;
    } else {
      ModifiedUpdate(s, snapshot, fetched, now, at);
    }
  }

  lemma WrongSnapshot(s: AppState, snapshot: UpdateSnapshot, fetched: Fetched, now: nat)
    requires TakeSnapshot(s, snapshot.subscriptionId) != Ok(snapshot)
    ensures UpdateDelta(s, snapshot, fetched, now).Err?
  {
    hide TakeSnapshot, Valid, ReplaceNodes;
  }

  lemma UnmodifiedCandidate(s: AppState, snapshot: UpdateSnapshot, fetched: Fetched, now: nat, at: nat)
    requires TakeSnapshot(s, snapshot.subscriptionId) == Ok(snapshot) && fetched.NotModified?
    requires Routing.Position(s.subscriptions, SubscriptionId, snapshot.subscriptionId) == Some(at)
    ensures UpdateCandidate(s, snapshot, fetched, now)
         == Ok(s.(subscriptions := s.subscriptions[at := CommitLaws.AfterUpdate(s.subscriptions[at], CommitLaws.Answer(fetched, now))]))
  {
    SnapshotSees(s, snapshot);
    hide TakeSnapshot, UpdatedRow, CommitLaws.AfterUpdate;
  }

  lemma ModifiedCandidate(s: AppState, snapshot: UpdateSnapshot, fetched: Fetched, now: nat, at: nat)
    requires TakeSnapshot(s, snapshot.subscriptionId) == Ok(snapshot) && fetched.Modified?
    requires Routing.Position(s.subscriptions, SubscriptionId, snapshot.subscriptionId) == Some(at)
    ensures var replaced := ReplaceNodes(s, snapshot.providerId, fetched.parsed.drafts);
      && (replaced.Ok? ==> |replaced.value.state.subscriptions| == |s.subscriptions|)
      && UpdateCandidate(s, snapshot, fetched, now) ==
        if replaced.Err? then Err(replaced.error)
        else Bumped(WithRow(replaced.value.state, at, CommitLaws.AfterUpdate(s.subscriptions[at], CommitLaws.Answer(fetched, now))),
                    replaced.value.changed && s.activeId == Some(snapshot.subscriptionId))
  {
    SnapshotSees(s, snapshot);
    ReplacementExactly(s, snapshot.providerId, fetched.parsed.drafts);
    hide TakeSnapshot, UpdatedRow, CommitLaws.AfterUpdate, Valid, ReplaceNodes, NodesOf, NodesNotOf, NodesFor, BatchUsable, Bumped;
  }

  lemma ModifiedUpdate(s: AppState, snapshot: UpdateSnapshot, fetched: Fetched, now: nat, at: nat)
    requires Valid(s) && TakeSnapshot(s, snapshot.subscriptionId) == Ok(snapshot) && fetched.Modified?
    requires Routing.Position(s.subscriptions, SubscriptionId, snapshot.subscriptionId) == Some(at)
    ensures UpdateDelta(s, snapshot, fetched, now).Ok? <==>
      BatchUsable(fetched.parsed.drafts) && Valid(Updated(s, at, snapshot, fetched, now))
    ensures UpdateDelta(s, snapshot, fetched, now).Ok? ==>
      UpdateDelta(s, snapshot, fetched, now) == Ok(Updated(s, at, snapshot, fetched, now))
  {
    hide TakeSnapshot, UpdateCandidate, CommitLaws.AfterUpdate, Valid, ReplaceNodes, NodesOf, NodesNotOf, NodesFor, BatchUsable, Bumped;
    SnapshotSees(s, snapshot);
    ModifiedCandidate(s, snapshot, fetched, now, at);
    ReplacementExactly(s, snapshot.providerId, fetched.parsed.drafts);
    var swapped, t := Swapped(s, snapshot.providerId, fetched.parsed.drafts), Updated(s, at, snapshot, fetched, now);
    var row := CommitLaws.AfterUpdate(s.subscriptions[at], CommitLaws.Answer(fetched, now));
    RowKeepsId(s.subscriptions[at], fetched, now);
    CheckedBumped(WithRow(swapped, at, row),
                  s.activeId == Some(snapshot.subscriptionId) && NodesOf(s, snapshot.providerId) != NodesFor(snapshot.providerId, fetched.parsed.drafts));
    if Valid(t) { ValidParts(s, t, swapped); }
  }

  lemma CheckedBumped(s: AppState, when: bool)
    ensures var t := s.(generation := s.generation + if when then 1 else 0);
      && (Checked(Bumped(s, when)).Ok? <==> Valid(t)) && (Valid(t) ==> Checked(Bumped(s, when)) == Ok(t))
  {
    var t := s.(generation := s.generation + if when then 1 else 0);
    hide Valid;
    if Valid(t) { SafeGeneration(t); }
  }

  lemma SafeGeneration(s: AppState)
    requires Valid(s)
    ensures s.generation <= MAX_SAFE_INTEGER
  {
  }

  lemma RowKeepsId(row: Subscription, fetched: Fetched, now: nat)
    ensures CommitLaws.AfterUpdate(row, CommitLaws.Answer(fetched, now)).id == row.id
  {
  }

  // ---- document save --------------------------------------------------------------------------------------

  /** The row a document save makes of the stored one. */
  function SavedRow(input: DocumentInput, row: Subscription): Subscription
    requires row.document.Some?
  {
    var overridden := CommitMeaning.TextDiffers(input, row) && row.source.Remote?;
    row.(document := Some(Document(input.format, input.content, overridden || row.document.value.localOverride)), skipped := 0,
         httpMetadata := if overridden && row.httpMetadata.Some?
                         then Some(row.httpMetadata.value.(etag := None, lastModified := None)) else row.httpMetadata)
  }

  function SavedState(s: AppState, input: DocumentInput, at: nat, providerId: Id): AppState
    requires at < |s.subscriptions| && s.subscriptions[at].document.Some?
  {
    Swapped(s, providerId, input.drafts).(
      subscriptions := s.subscriptions[at := SavedRow(input, s.subscriptions[at])],
      generation := s.generation + if Applies(s, input, at, providerId) then 1 else 0)
  }

  /** The active subscription gets another text or other nodes. */
  predicate Applies(s: AppState, input: DocumentInput, at: nat, providerId: Id)
    requires at < |s.subscriptions|
  {
    && s.activeId == Some(input.id)
    && (CommitMeaning.TextDiffers(input, s.subscriptions[at]) || NodesOf(s, providerId) != NodesFor(providerId, input.drafts))
  }

  /** A document save of a valid state is prepared exactly when the stored text is the expected one,
      the subscription has one provider, the batch is usable and the result valid. */
  lemma DocumentExactly(s: AppState, input: DocumentInput, at: nat)
    requires CommitMeaning.RowFor(s, input.id, at)
    ensures PrepareDocument(s, input).Ok? <==>
      && s.subscriptions[at].document.Some? && RevisionOf(s.subscriptions[at].document.value) == input.expected
      && |ProvidersOf(s, input.id)| == 1 && BatchUsable(input.drafts)
      && Valid(SavedState(s, input, at, ProvidersOf(s, input.id)[0].id))
    ensures PrepareDocument(s, input).Ok? ==>
      PrepareDocument(s, input).value.next == SavedState(s, input, at, ProvidersOf(s, input.id)[0].id)
  {
    CommitMeaning.FirstPosition(s, input.id, at);
    hide Valid, NodesOf, NodesNotOf, NodesFor, ProvidersOf, BatchUsable, PrepareDocument, SavedState;
    var row := s.subscriptions[at];
    if row.document.Some? && RevisionOf(row.document.value) == input.expected && |ProvidersOf(s, input.id)| == 1 {
      PreparedExactly(s, input, at, ProvidersOf(s, input.id)[0].id);
    } else {
      NotPrepared(s, input, at);
    }
  }

  lemma PreparedExactly(s: AppState, input: DocumentInput, at: nat, pid: Id)
    requires Routing.Position(s.subscriptions, SubscriptionId, input.id) == Some(at)
    requires s.subscriptions[at].document.Some? && RevisionOf(s.subscriptions[at].document.value) == input.expected
    requires |ProvidersOf(s, input.id)| == 1 && ProvidersOf(s, input.id)[0].id == pid
    ensures PrepareDocument(s, input).Ok? <==> BatchUsable(input.drafts) && Valid(SavedState(s, input, at, pid))
    ensures PrepareDocument(s, input).Ok? ==> PrepareDocument(s, input).value.next == SavedState(s, input, at, pid)
  {
    hide Valid, NodesOf, NodesNotOf, NodesFor, ProvidersOf, BatchUsable, PrepareDocument, SavedRow, Applies, SavedState, Swapped, WithRow;
    PreparedIff(s, input, at, pid);
    SavedIs(s, input, at, pid);
    var swapped := Swapped(WithRow(s, at, SavedRow(input, s.subscriptions[at])), pid, input.drafts);
    GenerationAside(SavedState(s, input, at, pid), swapped);
  }

  lemma PreparedIff(s: AppState, input: DocumentInput, at: nat, pid: Id)
    requires Routing.Position(s.subscriptions, SubscriptionId, input.id) == Some(at)
    requires s.subscriptions[at].document.Some? && RevisionOf(s.subscriptions[at].document.value) == input.expected
    requires |ProvidersOf(s, input.id)| == 1 && ProvidersOf(s, input.id)[0].id == pid
    ensures var swapped := Swapped(WithRow(s, at, SavedRow(input, s.subscriptions[at])), pid, input.drafts);
      var next := swapped.(generation := swapped.generation + if Applies(s, input, at, pid) then 1 else 0);
      && (PrepareDocument(s, input).Ok? <==> BatchUsable(input.drafts) && Valid(swapped) && Valid(next))
      && (PrepareDocument(s, input).Ok? ==> PrepareDocument(s, input).value.next == next)
  {
    hide Valid, NodesOf, NodesNotOf, NodesFor, ProvidersOf, BatchUsable, PrepareDocument, SavedRow, ReplaceNodes, Checked, Bumped,
      Swapped, WithRow, HasProvider, CommitMeaning.TextDiffers;
    OwnProviderOf(s, input, at);
    PreparedFrom(s, input, at);
    var edited := WithRow(s, at, SavedRow(input, s.subscriptions[at]));
    ReplacementExactly(edited, pid, input.drafts);
    SameNodesInRow(s, at, SavedRow(input, s.subscriptions[at]), pid);
    CheckedBumped(Swapped(edited, pid, input.drafts), Applies(s, input, at, pid));
  }

  lemma SameNodesInRow(s: AppState, at: nat, row: Subscription, pid: Id)
    requires at < |s.subscriptions|
    ensures NodesOf(WithRow(s, at, row), pid) == NodesOf(s, pid)
  {
    SameNodesOf(WithRow(s, at, row), s, pid);
  }

  lemma OwnProviderOf(s: AppState, input: DocumentInput, at: nat)
    requires at < |s.subscriptions| && s.subscriptions[at].document.Some? && |ProvidersOf(s, input.id)| == 1
    ensures HasProvider(WithRow(s, at, SavedRow(input, s.subscriptions[at])), ProvidersOf(s, input.id)[0].id)
  {
    assert ProvidersOf(s, input.id)[0] in ProvidersOf(s, input.id);
    assert WithRow(s, at, SavedRow(input, s.subscriptions[at])).providers == s.providers;
  }

  lemma SavedIs(s: AppState, input: DocumentInput, at: nat, pid: Id)
    requires at < |s.subscriptions| && s.subscriptions[at].document.Some?
    ensures var swapped := Swapped(WithRow(s, at, SavedRow(input, s.subscriptions[at])), pid, input.drafts);
      && swapped.activeId == s.activeId
      && SavedState(s, input, at, pid)
           == swapped.(generation := swapped.generation + if Applies(s, input, at, pid) then 1 else 0)
  {
    SameNodesOf(WithRow(s, at, SavedRow(input, s.subscriptions[at])), s, pid);
    hide NodesOf, NodesNotOf, NodesFor, SavedRow, Applies;
  }

  lemma NotPrepared(s: AppState, input: DocumentInput, at: nat)
    requires Routing.Position(s.subscriptions, SubscriptionId, input.id) == Some(at)
    requires !(s.subscriptions[at].document.Some? && RevisionOf(s.subscriptions[at].document.value) == input.expected
               && |ProvidersOf(s, input.id)| == 1)
    ensures PrepareDocument(s, input).Err?
  {
    hide Valid, ReplaceNodes, ProvidersOf;
  }

  lemma PreparedFrom(s: AppState, input: DocumentInput, at: nat)
    requires Routing.Position(s.subscriptions, SubscriptionId, input.id) == Some(at)
    requires s.subscriptions[at].document.Some? && RevisionOf(s.subscriptions[at].document.value) == input.expected
    requires |ProvidersOf(s, input.id)| == 1
    ensures var replaced := ReplaceNodes(WithRow(s, at, SavedRow(input, s.subscriptions[at])), ProvidersOf(s, input.id)[0].id, input.drafts);
      if replaced.Err? then PrepareDocument(s, input).Err?
      else
        var applies := s.activeId == Some(input.id)
          && (CommitMeaning.TextDiffers(input, s.subscriptions[at]) || replaced.value.changed);
        var next := Checked(Bumped(replaced.value.state, applies));
        && (PrepareDocument(s, input).Ok? <==> next.Ok?) && (next.Ok? ==> PrepareDocument(s, input).value.next == next.value)
  {
    hide Valid, ReplaceNodes, ProvidersOf, Checked, Bumped;
  }

  lemma SameNodesOf(a: AppState, b: AppState, providerId: Id)
    requires a.nodes == b.nodes
    ensures NodesOf(a, providerId) == NodesOf(b, providerId) && NodesNotOf(a, providerId) == NodesNotOf(b, providerId)
  {
  }

  /** A generation that is safe does not make a state invalid. */
  lemma GenerationAside(t: AppState, u: AppState)
    requires u == t.(generation := u.generation) && u.generation <= t.generation
    ensures Valid(t) ==> Valid(u)
    ensures Valid(t) ==> t.generation <= MAX_SAFE_INTEGER
    ensures Valid(u) && t.generation <= MAX_SAFE_INTEGER ==> Valid(t)
  {
    hide PoolValid, RowValid, UniqueIds;
    if Valid(t) || Valid(u) {
      forall p ensures PoolValid(t, p) == PoolValid(u, p) { SamePools(t, u, p); }
    }
  }

  lemma SamePools(t: AppState, u: AppState, p: Pool)
    requires t.nodes == u.nodes && t.providers == u.providers
    ensures PoolValid(t, p) == PoolValid(u, p)
  {
    hide ResolveMembers;
  }

  // ---- failed attempt, import and edit ------------------------------------------------------------------------

  lemma AttemptExactly(s: AppState, snapshot: UpdateSnapshot, attemptedAt: nat, at: nat)
    requires CommitMeaning.RowFor(s, snapshot.subscriptionId, at)
    ensures var t := s.(subscriptions := s.subscriptions[at := s.subscriptions[at].(lastAttemptAtMs := Some(attemptedAt))]);
      && (AttemptDelta(s, snapshot, attemptedAt).Ok? <==> TakeSnapshot(s, snapshot.subscriptionId) == Ok(snapshot) && Valid(t))
      && (AttemptDelta(s, snapshot, attemptedAt).Ok? ==> AttemptDelta(s, snapshot, attemptedAt) == Ok(t))
  {
    CommitMeaning.FirstPosition(s, snapshot.subscriptionId, at);
    hide Valid, TakeSnapshot;
  }

  /** An import succeeds exactly when its ids are new, the batch is usable and the grown state valid. */
  lemma ImportExactly(s: AppState, input: ImportInput)
    ensures ImportDelta(s, input).Ok? <==>
      && CommitLaws.Fresh(s, input) && BatchUsable(input.parsed.drafts)
      && Valid(Swapped(CommitLaws.Grown(s, input).(nodes := s.nodes), CommitLaws.NewProvider(input), input.parsed.drafts))
    ensures !CommitLaws.Fresh(s, input) ==> ImportDelta(s, input) == Err(IdentityFailed)
  {
    var pid := CommitLaws.NewProvider(input);
    var grown := CommitLaws.Grown(s, input).(nodes := s.nodes);
    NewProviderIsThere(s, input);
    ReplacementExactly(grown, pid, input.parsed.drafts);
    hide Valid, NodesOf, NodesNotOf, NodesFor, BatchUsable, ReplaceNodes, HasProvider, HasSubscription, HasPool, Swapped;
  }

  lemma NewProviderIsThere(s: AppState, input: ImportInput)
    ensures HasProvider(CommitLaws.Grown(s, input).(nodes := s.nodes), CommitLaws.NewProvider(input))
  {
    var p := Provider(CommitLaws.NewProvider(input), CommitLaws.NewId(input), input.name);
    assert p in CommitLaws.Grown(s, input).providers;
  }

  /** The state with the edited row and the new name on provider and implicit pools. */
  function Named(s: AppState, at: nat, edited: Subscription, place: nat): AppState
    requires at < |s.subscriptions| && place < |s.providers|
  {
    s.(subscriptions := s.subscriptions[at := edited],
       providers := s.providers[place := s.providers[place].(name := edited.name)],
       pools := Renamed(s.pools, s.providers[place].id, edited.name))
  }

  /** The state an edit leaves. */
  function EditedState(s: AppState, at: nat, edited: Subscription, place: nat, download: Option<Download>): AppState
    requires at < |s.subscriptions| && place < |s.providers|
  {
    if download.None? then Named(s, at, edited, place)
    else
      var pid, drafts := s.providers[place].id, download.value.parsed.drafts;
      var moves := s.activeId == Some(edited.id) && NodesOf(s, pid) != NodesFor(pid, drafts);
      Swapped(Named(s, at, CommitMeaning.Stamped(edited, download), place), pid, drafts).(
        generation := s.generation + if moves then 1 else 0)
  }

  /** An edit succeeds exactly when its input fits the row, the subscription has a provider, a
      downloaded batch is usable, and what it leaves is valid, before and after the download's stamps. */
  lemma EditExactly(s: AppState, input: EditInput, download: Option<Download>, at: nat)
    requires CommitMeaning.RowFor(s, input.id, at)
    ensures var edited := EditedRow(s.subscriptions[at], input);
      EditDelta(s, input, download).Ok? <==>
        && edited.Ok?
        && var place := Routing.Position(s.providers, (p: Provider) => p.subscriptionId, input.id);
           && place.Some? && Valid(EditedState(s, at, edited.value, place.value, download))
           && (download.Some? ==>
                 && BatchUsable(download.value.parsed.drafts)
                 && Valid(Swapped(Named(s, at, edited.value.(skipped := download.value.parsed.skipped), place.value),
                                  s.providers[place.value].id, download.value.parsed.drafts)))
  {
    CommitMeaning.FirstPosition(s, input.id, at);
    CommitMeaning.EditedKeepsId(s.subscriptions[at], input);
    hide Valid, EditedRow, EditCommit, BatchUsable, Swapped, Named, EditedState;
    var edited := EditedRow(s.subscriptions[at], input);
    if edited.Ok? { EditCommitExactly(s, at, edited.value, download); }
  }

  lemma EditCommitExactly(s: AppState, at: nat, edited: Subscription, download: Option<Download>)
    requires at < |s.subscriptions|
    ensures var place := Routing.Position(s.providers, (p: Provider) => p.subscriptionId, edited.id);
      EditCommit(s, at, edited, download).Ok? <==>
        && place.Some? && Valid(EditedState(s, at, edited, place.value, download))
        && (download.Some? ==>
              && BatchUsable(download.value.parsed.drafts)
              && Valid(Swapped(Named(s, at, edited.(skipped := download.value.parsed.skipped), place.value),
                               s.providers[place.value].id, download.value.parsed.drafts)))
  {
    var place := Routing.Position(s.providers, (p: Provider) => p.subscriptionId, edited.id);
    if place.Some? {
      NamedIs(s, at, edited, place.value);
      if download.Some? { DownloadedExactly(s, at, edited, download, place.value); }
    }
    hide Valid, ReplaceNodes, Swapped;
  }

  lemma NamedIs(s: AppState, at: nat, edited: Subscription, place: nat)
    requires at < |s.subscriptions| && place < |s.providers|
    ensures WithRow(s, at, edited).(providers := s.providers[place := s.providers[place].(name := edited.name)],
              pools := Renamed(s.pools, s.providers[place].id, edited.name)) == Named(s, at, edited, place)
  {
  }

  lemma DownloadedExactly(s: AppState, at: nat, edited: Subscription, download: Option<Download>, place: nat)
    requires at < |s.subscriptions| && download.Some?
    requires Routing.Position(s.providers, (p: Provider) => p.subscriptionId, edited.id) == Some(place)
    ensures EditCommit(s, at, edited, download).Ok? <==>
      && BatchUsable(download.value.parsed.drafts)
      && Valid(Swapped(Named(s, at, edited.(skipped := download.value.parsed.skipped), place), s.providers[place].id,
                       download.value.parsed.drafts))
      && Valid(EditedState(s, at, edited, place, download))
  {
    hide Valid, NodesOf, NodesNotOf, NodesFor, BatchUsable, ReplaceNodes, Checked, Bumped, Renamed, Adopted;
    var pid, drafts := s.providers[place].id, download.value.parsed.drafts;
    var skipped := edited.(skipped := download.value.parsed.skipped);
    var named := Named(s, at, skipped, place);
    CommitFrom(s, at, edited, download, place);
    RenamedProviderIsThere(s, at, skipped, place);
    ReplacementExactly(named, pid, drafts);
    SameNodesOf(named, s, pid);
    var moves := s.activeId == Some(edited.id) && NodesOf(s, pid) != NodesFor(pid, drafts);
    CheckedBumped(WithRow(Swapped(named, pid, drafts), at, CommitMeaning.Stamped(edited, download)), moves);
    StampedIs(s, at, edited, download, place);
    hide HasProvider, EditCommit, EditedState, Named, Swapped, WithRow;
  }

  /** The stamped row takes the place of the edited one. */
  lemma StampedIs(s: AppState, at: nat, edited: Subscription, download: Option<Download>, place: nat)
    requires at < |s.subscriptions| && place < |s.providers| && download.Some?
    ensures var pid, drafts := s.providers[place].id, download.value.parsed.drafts;
      var stamped := WithRow(Swapped(Named(s, at, edited.(skipped := download.value.parsed.skipped), place), pid, drafts), at,
                             CommitMeaning.Stamped(edited, download));
      var moves := s.activeId == Some(edited.id) && NodesOf(s, pid) != NodesFor(pid, drafts);
      && stamped.activeId == s.activeId
      && EditedState(s, at, edited, place, download)
           == stamped.(generation := stamped.generation + if moves then 1 else 0)
  {
    var pid := s.providers[place].id;
    SameNodesOf(Named(s, at, edited.(skipped := download.value.parsed.skipped), place), s, pid);
    SameNodesOf(Named(s, at, CommitMeaning.Stamped(edited, download), place), s, pid);
    hide NodesOf, NodesNotOf, NodesFor, Renamed, Adopted;
  }

  lemma RenamedProviderIsThere(s: AppState, at: nat, edited: Subscription, place: nat)
    requires at < |s.subscriptions| && place < |s.providers|
    ensures HasProvider(Named(s, at, edited, place), s.providers[place].id)
  {
    assert Named(s, at, edited, place).providers[place] in Named(s, at, edited, place).providers;
  }

  lemma CommitFrom(s: AppState, at: nat, edited: Subscription, download: Option<Download>, place: nat)
    requires at < |s.subscriptions| && download.Some?
    requires Routing.Position(s.providers, (p: Provider) => p.subscriptionId, edited.id) == Some(place)
    ensures var named := Named(s, at, edited.(skipped := download.value.parsed.skipped), place);
      var replaced := ReplaceNodes(named, s.providers[place].id, download.value.parsed.drafts);
      && (replaced.Ok? ==> |replaced.value.state.subscriptions| == |s.subscriptions|)
      && (EditCommit(s, at, edited, download).Ok? <==>
            && replaced.Ok?
            && Checked(Bumped(WithRow(replaced.value.state, at, CommitMeaning.Stamped(edited, download)),
                              replaced.value.changed && s.activeId == Some(edited.id))).Ok?)
  {
    hide Valid, NodesOf, NodesNotOf, NodesFor, BatchUsable, ReplaceNodes, Checked, Bumped, Renamed, Adopted, HasProvider;
    var named := Named(s, at, edited.(skipped := download.value.parsed.skipped), place);
    assert named == WithRow(WithRow(s, at, edited).(
      providers := s.providers[place := s.providers[place].(name := edited.name)],
      pools := Renamed(s.pools, s.providers[place].id, edited.name)), at, edited.(skipped := download.value.parsed.skipped));
    ReplacementExactly(named, s.providers[place].id, download.value.parsed.drafts);
    var replaced := ReplaceNodes(named, s.providers[place].id, download.value.parsed.drafts);
    if replaced.Ok? {
      assert EditCommit(s, at, edited, download) ==
        Checked(Bumped(WithRow(replaced.value.state, at, CommitMeaning.Stamped(edited, download)),
                       replaced.value.changed && s.activeId == Some(edited.id)));
    } else {
      assert EditCommit(s, at, edited, download).Err?;
    }
  }
}
