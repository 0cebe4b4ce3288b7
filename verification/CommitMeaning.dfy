/** What a document save, an edit and an activation leave, field by field, and when each is refused
    (src-tauri/src/application/subscription_management.rs, managed_observation_runtime.rs). */
module CommitMeaning {
  import opened Common
  import opened Domain
  import opened Edits
  import CommitLaws
  import Projection
  import ProjectionMeaning
  import Routing

  // ---- a document save ---------------------------------------------------------------------------------

  /** The row at this place belongs to the subscription, holds a document, and is the first to. */
  ghost predicate RowFor(s: AppState, id: Id, at: nat) {
    && at < |s.subscriptions| && s.subscriptions[at].id == id
    && forall i :: 0 <= i < at ==> s.subscriptions[i].id != id
  }

  predicate TextDiffers(input: DocumentInput, row: Subscription) {
    row.document.Some? ==> input.format != row.document.value.format || input.content != row.document.value.content
  }

  /** The nodes of this provider are the drafts, in their order. */
  ghost predicate HoldsDrafts(s: AppState, providerId: Id, drafts: seq<Draft>) {
    && |NodesOf(s, providerId)| == |drafts|
    && forall k :: 0 <= k < |drafts| ==> NodesOf(s, providerId)[k] == AsNode(providerId, drafts[k])
  }

  /** The saved row: the text sent, no skipped nodes; other text in place of a remote subscription's
      makes a local override and drops its validators. Nothing else is different. */
  ghost predicate RowSaved(input: DocumentInput, before: Subscription, after: Subscription) {
    var overridden := TextDiffers(input, before) && before.source.Remote?;
    && before.document.Some? && after.document.Some?
    && after.document.value.format == input.format && after.document.value.content == input.content
    && (after.document.value.localOverride <==> overridden || before.document.value.localOverride)
    && after.skipped == 0
    && (after.httpMetadata.Some? <==> before.httpMetadata.Some?)
    && (after.httpMetadata.Some? ==>
          && after.httpMetadata.value.userinfo == before.httpMetadata.value.userinfo
          && after.httpMetadata.value.disposition == before.httpMetadata.value.disposition
          && after.httpMetadata.value.etag == (if overridden then None else before.httpMetadata.value.etag)
          && after.httpMetadata.value.lastModified == (if overridden then None else before.httpMetadata.value.lastModified))
    && after == before.(document := after.document, skipped := after.skipped, httpMetadata := after.httpMetadata)
  }

  /** It asks to be applied exactly when the subscription is the active one and its text or its nodes
      are others than before; the generation moves exactly then. */
  lemma DocumentSaveMeans(s: AppState, input: DocumentInput, at: nat, provider: Provider)
    requires PrepareDocument(s, input).Ok? && RowFor(s, input.id, at)
    requires provider in s.providers && provider.subscriptionId == input.id
    ensures var p := PrepareDocument(s, input).value;
      && p.before == s && |p.next.subscriptions| == |s.subscriptions|
      && RowSaved(input, s.subscriptions[at], p.next.subscriptions[at])
      && p.next == s.(subscriptions := s.subscriptions[at := p.next.subscriptions[at]], nodes := p.next.nodes,
                      generation := s.generation + if p.requiresApply then 1 else 0)
      && HoldsDrafts(p.next, provider.id, input.drafts)
      && (forall pid :: pid != provider.id ==> NodesOf(p.next, pid) == NodesOf(s, pid))
      && (p.requiresApply <==>
            s.activeId == Some(input.id) && (TextDiffers(input, s.subscriptions[at]) || !HoldsDrafts(s, provider.id, input.drafts)))
  {
    FirstPosition(s, input.id, at);
    OnlyProvider(s, input.id, provider);
    DocumentRow(s, input, at);
    DocumentNodes(s, input, provider.id);
    DocumentApplies(s, input, at, provider.id);
    hide PrepareDocument, NodesOf, HoldsDrafts, RowSaved, RowFor;
  }

  lemma {:induction false} FirstPosition(s: AppState, id: Id, at: nat)
    requires RowFor(s, id, at)
    ensures Routing.Position(s.subscriptions, SubscriptionId, id) == Some(at)
  {
    Routing.FirstPosition(s.subscriptions, SubscriptionId, id, at);
  }

  lemma OnlyProvider(s: AppState, id: Id, provider: Provider)
    requires provider in s.providers && provider.subscriptionId == id
    ensures provider in ProvidersOf(s, id)
    ensures |ProvidersOf(s, id)| == 1 ==> ProvidersOf(s, id)[0] == provider
  {
  }

  lemma DocumentRow(s: AppState, input: DocumentInput, at: nat)
    requires PrepareDocument(s, input).Ok? && Routing.Position(s.subscriptions, SubscriptionId, input.id) == Some(at)
    ensures var p := PrepareDocument(s, input).value;
      && p.before == s && |p.next.subscriptions| == |s.subscriptions|
      && RowSaved(input, s.subscriptions[at], p.next.subscriptions[at])
      && p.next == s.(subscriptions := s.subscriptions[at := p.next.subscriptions[at]], nodes := p.next.nodes,
                      generation := s.generation + if p.requiresApply then 1 else 0)
  {
    hide Valid, NormalizeNodes, NodesOf, NodesNotOf, ProvidersOf;
  }

  lemma DocumentNodes(s: AppState, input: DocumentInput, providerId: Id)
    requires PrepareDocument(s, input).Ok? && ProvidersOf(s, input.id)[0].id == providerId
    ensures var next := PrepareDocument(s, input).value.next;
      HoldsDrafts(next, providerId, input.drafts) && forall pid :: pid != providerId ==> NodesOf(next, pid) == NodesOf(s, pid)
  {
    CommitLaws.SavedNodes(s, input);
    hide Valid, PrepareDocument, NodesOf, NodesNotOf;
    var nodes := NormalizeNodes(providerId, input.drafts).value;
    var next := PrepareDocument(s, input).value.next;
    assert |nodes| == |input.drafts| && forall k :: 0 <= k < |nodes| ==> nodes[k] == AsNode(providerId, input.drafts[k]);
    hide NormalizeNodes;
    NodesAfterReplacement(s, next, providerId, nodes, providerId);
    forall pid | pid != providerId ensures NodesOf(next, pid) == NodesOf(s, pid) {
      NodesAfterReplacement(s, next, providerId, nodes, pid);
    }
  }

  lemma DocumentApplies(s: AppState, input: DocumentInput, at: nat, providerId: Id)
    requires PrepareDocument(s, input).Ok? && ProvidersOf(s, input.id)[0].id == providerId
    requires Routing.Position(s.subscriptions, SubscriptionId, input.id) == Some(at)
    ensures PrepareDocument(s, input).value.requiresApply <==>
      s.activeId == Some(input.id) && (TextDiffers(input, s.subscriptions[at]) || !HoldsDrafts(s, providerId, input.drafts))
  {
    CommitLaws.SavedNodes(s, input);
    var nodes := NormalizeNodes(providerId, input.drafts).value;
    assert NodesOf(s, providerId) == nodes <==> HoldsDrafts(s, providerId, input.drafts);
    hide Valid, NormalizeNodes, HoldsDrafts, NodesNotOf;
    forall row ensures NodesOf(WithRow(s, at, row), providerId) == NodesOf(s, providerId) {
      SameNodes(WithRow(s, at, row), s);
    }
    hide NodesOf;
  }

  /** A save of the active subscription that does not ask to be applied leaves what the core has to
      run as it was. */
  lemma NothingToApply(s: AppState, input: DocumentInput)
    requires Valid(s) && PrepareDocument(s, input).Ok? && !PrepareDocument(s, input).value.requiresApply
    requires s.activeId == Some(input.id)
    ensures Projection.Project(PrepareDocument(s, input).value.next) == Projection.Project(s)
  {
    var t := PrepareDocument(s, input).value.next;
    CommitLaws.SavedNodes(s, input);
    var pid := ProvidersOf(s, input.id)[0].id;
    var at := Routing.Position(s.subscriptions, SubscriptionId, input.id).value;
    DocumentRow(s, input, at);
    DocumentApplies(s, input, at, pid);
    CommitLaws.SavedRow(s, input);
    var nodes := NormalizeNodes(pid, input.drafts).value;
    assert NodesOf(s, pid) == nodes;
    PreparedIsValid(s, input);
    hide PrepareDocument, Valid, NormalizeNodes;
    forall n ensures n in s.nodes <==> n in t.nodes {
      assert n in NodesOf(s, pid) <==> n in s.nodes && n.providerId == pid;
      assert n in NodesNotOf(s, pid) <==> n in s.nodes && n.providerId != pid;
    }
    ProjectionMeaning.SameRowsSameProjection(s, t);
  }

  /** Text and nodes are those of before. */
  ghost predicate NothingNew(s: AppState, input: DocumentInput) {
    && (forall at: nat :: RowFor(s, input.id, at) ==> !TextDiffers(input, s.subscriptions[at]))
    && (forall provider :: provider in s.providers && provider.subscriptionId == input.id ==>
          HoldsDrafts(s, provider.id, input.drafts))
  }

  lemma NotAppliedMeansNothingNew(s: AppState, input: DocumentInput)
    requires PrepareDocument(s, input).Ok? && !PrepareDocument(s, input).value.requiresApply && s.activeId == Some(input.id)
    ensures NothingNew(s, input)
  {
    hide PrepareDocument, NodesOf, HoldsDrafts, RowSaved;
    var at := FoundRow(s, input);
    forall provider | provider in s.providers && provider.subscriptionId == input.id
      ensures HoldsDrafts(s, provider.id, input.drafts)
    {
      DocumentSaveMeans(s, input, at, provider);
    }
    forall i: nat | RowFor(s, input.id, i) ensures !TextDiffers(input, s.subscriptions[i]) {
      var provider := FoundProvider(s, input);
      DocumentSaveMeans(s, input, i, provider);
    }
  }

  lemma FoundRow(s: AppState, input: DocumentInput) returns (at: nat)
    requires PrepareDocument(s, input).Ok?
    ensures RowFor(s, input.id, at)
  {
    hide Valid, ReplaceNodes;
    at := Routing.Position(s.subscriptions, SubscriptionId, input.id).value;
    NoneBefore(s.subscriptions, input.id);
  }

  lemma {:induction false} NoneBefore(rows: seq<Subscription>, id: Id)
    ensures var at := Routing.Position(rows, SubscriptionId, id);
      at.Some? ==> forall i :: 0 <= i < at.value ==> rows[i].id != id
  {
    if rows != [] { NoneBefore(rows[1..], id); }
  }

  lemma FoundProvider(s: AppState, input: DocumentInput) returns (provider: Provider)
    requires PrepareDocument(s, input).Ok?
    ensures provider in s.providers && provider.subscriptionId == input.id
  {
    hide Valid, ReplaceNodes;
    provider := ProvidersOf(s, input.id)[0];
    assert provider in ProvidersOf(s, input.id);
  }

  /** Which saves are turned away before the text is looked at. */
  lemma DocumentRefusals(s: AppState, input: DocumentInput)
    ensures PrepareDocument(s, input) == Err(OpError.NotFound) <==> !HasSubscription(s, input.id)
    ensures PrepareDocument(s, input) == Err(DocumentUnavailable) <==>
      exists at: nat :: RowFor(s, input.id, at) && s.subscriptions[at].document.None?
    ensures PrepareDocument(s, input) == Err(DocumentConflict) <==>
      exists at: nat :: RowFor(s, input.id, at) && s.subscriptions[at].document.Some?
                   && RevisionOf(s.subscriptions[at].document.value) != input.expected
  {
    hide Valid, ReplaceNodes;
    CommitLaws.ReplacementErrors();
    var found := Routing.Position(s.subscriptions, SubscriptionId, input.id);
    NoneBefore(s.subscriptions, input.id);
    if found.Some? {
      assert RowFor(s, input.id, found.value) && s.subscriptions[found.value] in s.subscriptions;
    }
    forall row | row in s.subscriptions && row.id == input.id ensures found.Some? { assert SubscriptionId(row) == input.id; }
    forall at: nat | RowFor(s, input.id, at) ensures found == Some(at) { FirstPosition(s, input.id, at); }
  }

  lemma PreparedIsValid(s: AppState, input: DocumentInput)
    requires PrepareDocument(s, input).Ok?
    ensures Valid(PrepareDocument(s, input).value.next)
  {
    hide Valid;
  }

  // ---- an edit ------------------------------------------------------------------------------------------

  /** The row after an edit: what was given is taken, what was not is kept; with a download, text,
      skipped count, metadata and stamps are the download's, and its interval is adopted where the
      edited policy asks for one. */
  ghost predicate RowEdited(input: EditInput, download: Option<Download>, before: Subscription, after: Subscription) {
    var policy := if input.updatePolicy.Some? then input.updatePolicy.value else before.updatePolicy;
    && after.id == before.id
    && after.name == (if input.name.Some? then input.name.value else before.name)
    && after.description == (if input.description.Some? then input.description.value else before.description)
    && (before.source.Manual? ==>
          && after.source == before.source && after.remoteRequest == before.remoteRequest
          && input.url.None? && input.remoteRequest.None? && input.updatePolicy.None?)
    && (before.source.Remote? ==>
          && after.source == Remote(if input.url.Some? then input.url.value else before.source.url)
          && after.remoteRequest == (if input.remoteRequest.Some? then input.remoteRequest else before.remoteRequest)
          && after.remoteRequest.Some?)
    && after.updatePolicy.allowAutoUpdate == policy.allowAutoUpdate
    && after.textAcceptable == before.textAcceptable
    && match download
       case None =>
         && after.updatePolicy == policy && after.document == before.document && after.skipped == before.skipped
         && after.httpMetadata == before.httpMetadata
         && after.lastSuccessAtMs == before.lastSuccessAtMs && after.lastAttemptAtMs == before.lastAttemptAtMs
       case Some(d) =>
         && after.updatePolicy.intervalMinutes
              == (if policy.allowAutoUpdate && policy.intervalMinutes.None? then d.profileInterval else policy.intervalMinutes)
         && after.document == d.parsed.document && after.skipped == d.parsed.skipped
         && after.httpMetadata == Some(d.metadata)
         && after.lastSuccessAtMs == Some(d.now) && after.lastAttemptAtMs == Some(d.now)
  }

  /** The row of the edit, in its place. */
  lemma RowOfEdit(s: AppState, input: EditInput, download: Option<Download>, at: nat)
    requires EditDelta(s, input, download).Ok? && RowFor(s, input.id, at)
    ensures var t := EditDelta(s, input, download).value;
      && |t.subscriptions| == |s.subscriptions| && RowEdited(input, download, s.subscriptions[at], t.subscriptions[at])
      && t == s.(subscriptions := s.subscriptions[at := t.subscriptions[at]], providers := t.providers, pools := t.pools,
                 nodes := t.nodes, generation := t.generation)
  {
    FirstPosition(s, input.id, at);
    EditedFields(s.subscriptions[at], input);
    hide EditedRow, EditCommit, RowEdited;
    var edited := EditedRow(s.subscriptions[at], input).value;
    RowOfCommit(s, at, edited, download);
    EditedThenStamped(input, download, s.subscriptions[at], edited, EditDelta(s, input, download).value.subscriptions[at]);
  }

  lemma EditedFields(row: Subscription, input: EditInput)
    requires EditedRow(row, input).Ok?
    ensures RowEdited(input, None, row, EditedRow(row, input).value)
  {
  }

  function Stamped(edited: Subscription, download: Option<Download>): Subscription {
    if download.None? then edited
    else
      var d := download.value;
      edited.(skipped := d.parsed.skipped, httpMetadata := Some(d.metadata), document := d.parsed.document,
              updatePolicy := Adopted(edited.updatePolicy, d.profileInterval),
              lastSuccessAtMs := Some(d.now), lastAttemptAtMs := Some(d.now))
  }

  lemma EditedThenStamped(input: EditInput, download: Option<Download>, before: Subscription, edited: Subscription, after: Subscription)
    requires RowEdited(input, None, before, edited) && after == Stamped(edited, download)
    ensures RowEdited(input, download, before, after)
  {
  }

  lemma RowOfCommit(s: AppState, at: nat, edited: Subscription, download: Option<Download>)
    requires at < |s.subscriptions| && EditCommit(s, at, edited, download).Ok?
    ensures var t := EditCommit(s, at, edited, download).value;
      && |t.subscriptions| == |s.subscriptions| && t.subscriptions[at] == Stamped(edited, download)
      && t == s.(subscriptions := s.subscriptions[at := t.subscriptions[at]], providers := t.providers, pools := t.pools,
                 nodes := t.nodes, generation := t.generation)
  {
    hide Valid, NormalizeNodes, NodesOf, NodesNotOf, Renamed, Adopted;
  }

  /** Which edits are turned away for what was given. */
  lemma EditRefusals(s: AppState, input: EditInput, download: Option<Download>)
    ensures EditDelta(s, input, download) == Err(OpError.NotFound) <==> !HasSubscription(s, input.id)
    ensures EditDelta(s, input, download) == Err(InvalidInput) <==> HasSubscription(s, input.id) && !input.acceptable
    ensures EditDelta(s, input, download) == Err(InvalidOptions) <==>
      && input.acceptable && (input.url.Some? || input.remoteRequest.Some? || input.updatePolicy.Some?)
      && exists at: nat :: RowFor(s, input.id, at) && s.subscriptions[at].source.Manual?
  {
    hide Valid, ReplaceNodes, Renamed;
    CommitLaws.ReplacementErrors();
    var found := Routing.Position(s.subscriptions, SubscriptionId, input.id);
    NoneBefore(s.subscriptions, input.id);
    if found.Some? {
      assert RowFor(s, input.id, found.value) && s.subscriptions[found.value] in s.subscriptions;
    }
    forall row | row in s.subscriptions && row.id == input.id ensures found.Some? { assert SubscriptionId(row) == input.id; }
    forall at: nat | RowFor(s, input.id, at) ensures found == Some(at) { FirstPosition(s, input.id, at); }
  }

  /** Without a download the nodes stay; with one the provider's nodes are the drafts, all others
      stay, and the generation moves by one exactly when the nodes of the active subscription are
      others than before. */
  lemma NodesOfEdit(s: AppState, input: EditInput, download: Option<Download>)
    requires EditDelta(s, input, download).Ok?
    ensures exists q ::
      && q in s.providers && q.subscriptionId == input.id
      && NodesEdited(s, EditDelta(s, input, download).value, input.id, q.id, download)
  {
    var at := Routing.Position(s.subscriptions, SubscriptionId, input.id).value;
    EditedKeepsId(s.subscriptions[at], input);
    hide Valid, NodesOf, NormalizeNodes, NodesNotOf, Renamed, EditedRow;
    var q := s.providers[Routing.Position(s.providers, (p: Provider) => p.subscriptionId, input.id).value];
    EditCommitNodes(s, at, EditedRow(s.subscriptions[at], input).value, download, q.id);
  }

  lemma EditedKeepsId(row: Subscription, input: EditInput)
    ensures EditedRow(row, input).Ok? ==> EditedRow(row, input).value.id == row.id
  {
  }

  ghost predicate NodesEdited(s: AppState, t: AppState, id: Id, providerId: Id, download: Option<Download>) {
    && (download.None? ==> t.nodes == s.nodes && t.generation == s.generation)
    && (download.Some? ==>
          && HoldsDrafts(t, providerId, download.value.parsed.drafts)
          && (forall pid :: pid != providerId ==> NodesOf(t, pid) == NodesOf(s, pid))
          && t.generation == s.generation
               + (if s.activeId == Some(id) && !HoldsDrafts(s, providerId, download.value.parsed.drafts) then 1 else 0))
  }

  lemma EditCommitNodes(s: AppState, at: nat, edited: Subscription, download: Option<Download>, providerId: Id)
    requires at < |s.subscriptions| && EditCommit(s, at, edited, download).Ok?
    requires var place := Routing.Position(s.providers, (p: Provider) => p.subscriptionId, edited.id);
      place.Some? && s.providers[place.value].id == providerId
    ensures NodesEdited(s, EditCommit(s, at, edited, download).value, edited.id, providerId, download)
  {
    hide Valid, NodesOf, NormalizeNodes, NodesNotOf, Renamed, HoldsDrafts;
    if download.Some? {
      var drafts := download.value.parsed.drafts;
      var t := EditCommit(s, at, edited, download).value;
      var place := Routing.Position(s.providers, (p: Provider) => p.subscriptionId, edited.id).value;
      var named := WithRow(WithRow(s, at, edited).(
        providers := s.providers[place := s.providers[place].(name := edited.name)],
        pools := Renamed(s.pools, providerId, edited.name)), at, edited.(skipped := download.value.parsed.skipped));
      ReplacementTouchesOneProvider(named, providerId, drafts);
      DraftsHeld(named, providerId, drafts);
      SameNodes(named, s);
      SameNodes(ReplaceNodes(named, providerId, drafts).value.state, t);
      SameDraftsHeld(named, s, providerId, drafts);
      SameDraftsHeld(ReplaceNodes(named, providerId, drafts).value.state, t, providerId, drafts);
    }
  }

  lemma DraftsHeld(s: AppState, providerId: Id, drafts: seq<Draft>)
    requires ReplaceNodes(s, providerId, drafts).Ok?
    ensures HoldsDrafts(ReplaceNodes(s, providerId, drafts).value.state, providerId, drafts)
    ensures ReplaceNodes(s, providerId, drafts).value.changed <==> !HoldsDrafts(s, providerId, drafts)
  {
    ReplacementTouchesOneProvider(s, providerId, drafts);
    hide Valid, NodesOf;
  }

  lemma SameDraftsHeld(s: AppState, t: AppState, providerId: Id, drafts: seq<Draft>)
    requires NodesOf(s, providerId) == NodesOf(t, providerId)
    ensures HoldsDrafts(s, providerId, drafts) <==> HoldsDrafts(t, providerId, drafts)
  {
  }
}
