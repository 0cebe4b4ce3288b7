/** What each writer computes from a state: the candidate it would save
    (src-tauri/src/application/subscription_management.rs, provider_replacement.rs, and the
    candidate of an activation in managed_observation_runtime.rs). */
module Edits {
  import opened Common
  import opened Domain
  import Projection
  import Routing

  datatype OpError =
    | InvalidInput | Busy | ParseFailed | NormalizationFailed | ValidationFailed | SaveFailed
    | StateUnavailable | NotFound | CacheUnavailable | IdentityFailed | InvalidOptions
    | ReferenceConflict | DocumentConflict | DocumentUnavailable | ConfigurationFailed | SelectionConflict

  /** A parsed node before it belongs to a provider; `id` is its stable hash and `acceptable` the
      outcome of the checks on its name, server and port. */
  datatype Draft = Draft(id: Id, name: string, protocol: Protocol, connection: string, compatible: bool, acceptable: bool)

  /** A parsed document body. */
  datatype Parsed = Parsed(drafts: seq<Draft>, skipped: nat, document: Option<Document>)

  function NextGeneration(current: nat): Result<nat, OpError> {
    if current + 1 <= MAX_SAFE_INTEGER then Ok(current + 1) else Err(ValidationFailed)
  }

  // ---- provider replacement -------------------------------------------------------------------

  function NodesOf(s: AppState, providerId: Id): seq<Node> {
    Filter(s.nodes, (n: Node) => n.providerId == providerId)
  }

  function NodesNotOf(s: AppState, providerId: Id): seq<Node> {
    Filter(s.nodes, (n: Node) => n.providerId != providerId)
  }

  function AsNode(providerId: Id, d: Draft): Node {
    Node(d.id, providerId, d.name, d.protocol, d.connection, d.compatible)
  }

  function NormalizeNodes(providerId: Id, drafts: seq<Draft>): Result<seq<Node>, OpError> {
    if (exists d | d in drafts :: !d.acceptable)
       || (exists i, j | 0 <= i < j < |drafts| :: drafts[i].id == drafts[j].id)
    then Err(NormalizationFailed)
    else Ok(seq(|drafts|, i requires 0 <= i < |drafts| => AsNode(providerId, drafts[i])))
  }

  datatype Replacement = Replacement(state: AppState, changed: bool)

  /** Swaps the nodes of one provider for a freshly parsed batch. */
  function ReplaceNodes(s: AppState, providerId: Id, drafts: seq<Draft>): Result<Replacement, OpError> {
    if drafts == [] then Err(ParseFailed)
    else if !HasProvider(s, providerId) then Err(ValidationFailed)
    else
      var nodes := NormalizeNodes(providerId, drafts);
      if nodes.Err? then Err(nodes.error)
      else
        var next := s.(nodes := NodesNotOf(s, providerId) + nodes.value);
        if !Valid(next) then Err(ValidationFailed)
        else Ok(Replacement(next, NodesOf(s, providerId) != nodes.value))
  }

  lemma ReplacementTouchesOneProvider(s: AppState, providerId: Id, drafts: seq<Draft>)
    requires ReplaceNodes(s, providerId, drafts).Ok?
    ensures var t := ReplaceNodes(s, providerId, drafts).value.state;
      && t == s.(nodes := t.nodes)
      && (forall p :: p != providerId ==> NodesOf(t, p) == NodesOf(s, p))
      && NodesOf(t, providerId) == NormalizeNodes(providerId, drafts).value
  {
    var nodes := NormalizeNodes(providerId, drafts).value;
    var t := ReplaceNodes(s, providerId, drafts).value.state;
    forall p ensures NodesOf(t, p) == if p == providerId then nodes else NodesOf(s, p) {
      NodesAfterReplacement(s, t, providerId, nodes, p);
    }
  }

  lemma NodesAfterReplacement(s: AppState, t: AppState, providerId: Id, nodes: seq<Node>, p: Id)
    requires t.nodes == NodesNotOf(s, providerId) + nodes
    requires forall n :: n in nodes ==> n.providerId == providerId
    ensures NodesOf(t, p) == if p == providerId then nodes else NodesOf(s, p)
  {
    var mine := (n: Node) => n.providerId == p;
    FilterConcat(NodesNotOf(s, providerId), nodes, mine);
    FilterTwice(s.nodes, providerId, p);
    if p == providerId {
      FilterAll(nodes, mine);
    } else {
      FilterNone(nodes, mine);
    }
    FilterSame(t.nodes, mine, (n: Node) => n.providerId == p);
    FilterSame(NodesNotOf(s, providerId), mine, (n: Node) => n.providerId == p);
  }

  lemma {:induction false} FilterTwice(nodes: seq<Node>, out: Id, p: Id)
    ensures Filter(Filter(nodes, (n: Node) => n.providerId != out), (n: Node) => n.providerId == p)
         == if p == out then [] else Filter(nodes, (n: Node) => n.providerId == p)
  {
    if nodes != [] {
      FilterTwice(nodes[1..], out, p);
      FilterConcat(if nodes[0].providerId != out then [nodes[0]] else [],
                   Filter(nodes[1..], (n: Node) => n.providerId != out), (n: Node) => n.providerId == p);
    }
  }

  // ---- import ---------------------------------------------------------------------------------

  datatype ImportInput = ImportInput(
    suffix: string, name: string, description: string, source: Source, remoteRequest: Option<RemoteOptions>,
    updatePolicy: UpdatePolicy, parsed: Parsed, httpMetadata: Option<Metadata>, now: nat, textAcceptable: bool)

  function ImportDelta(s: AppState, input: ImportInput): Result<AppState, OpError> {
    var subscriptionId := "sub-" + input.suffix;
    var providerId := "provider-" + input.suffix;
    var poolId := "pool-" + input.suffix;
    if HasSubscription(s, subscriptionId) || HasProvider(s, providerId) || HasPool(s, poolId) then Err(IdentityFailed)
    else
      var row := Subscription(
        subscriptionId, input.name, input.description, input.source, Some(input.now), Some(input.now),
        input.httpMetadata, input.remoteRequest, input.updatePolicy, input.parsed.skipped,
        input.parsed.document, input.textAcceptable);
      var pool := Pool(poolId, input.name, ImplicitProvider, [PoolSource(providerId, DEFAULT_FILTER)],
                       ManualChoice(None), true);
      var grown := s.(
        subscriptions := s.subscriptions + [row],
        providers := s.providers + [Provider(providerId, subscriptionId, input.name)],
        pools := s.pools + [pool]);
      var replaced := ReplaceNodes(grown, providerId, input.parsed.drafts);
      if replaced.Err? then Err(replaced.error) else Ok(replaced.value.state)
  }

  // ---- update ---------------------------------------------------------------------------------

  datatype UpdateSnapshot = UpdateSnapshot(
    subscriptionId: Id, source: Source, httpMetadata: Option<Metadata>, remoteRequest: Option<RemoteOptions>,
    updatePolicy: UpdatePolicy, document: Option<Document>, providerId: Id, nodes: seq<Node>)

  function ProvidersOf(s: AppState, subscriptionId: Id): seq<Provider> {
    Filter(s.providers, (p: Provider) => p.subscriptionId == subscriptionId)
  }

  function TakeSnapshot(s: AppState, id: Id): Result<UpdateSnapshot, OpError> {
    var at := Routing.Position(s.subscriptions, SubscriptionId, id);
    if at.None? then Err(NotFound)
    else
      var row := s.subscriptions[at.value];
      var providers := ProvidersOf(s, id);
      if |providers| != 1 then Err(ValidationFailed)
      else Ok(UpdateSnapshot(id, row.source, row.httpMetadata, row.remoteRequest, row.updatePolicy,
                             row.document, providers[0].id, NodesOf(s, providers[0].id)))
  }

  datatype Fetched =
    | Modified(parsed: Parsed, metadata: Metadata, profileInterval: Option<nat>)
    | NotModified(metadata: Metadata, profileInterval: Option<nat>, validatorsMatchSource: bool)

  function Adopted(policy: UpdatePolicy, profileInterval: Option<nat>): UpdatePolicy {
    if policy.allowAutoUpdate && policy.intervalMinutes.None? then policy.(intervalMinutes := profileInterval) else policy
  }

  function OrElse<T>(first: Option<T>, second: Option<T>): Option<T> {
    if first.Some? then first else second
  }

  function MergeMetadata(previous: Metadata, response: Metadata, validatorsMatchSource: bool): Metadata {
    Metadata(
      if validatorsMatchSource then OrElse(response.etag, previous.etag) else response.etag,
      if validatorsMatchSource then OrElse(response.lastModified, previous.lastModified) else response.lastModified,
      OrElse(response.userinfo, previous.userinfo),
      OrElse(response.disposition, previous.disposition))
  }

  const NO_METADATA: Metadata := Metadata(None, None, None, None)

  function WithRow(s: AppState, index: nat, row: Subscription): AppState
    requires index < |s.subscriptions|
  {
    s.(subscriptions := s.subscriptions[index := row])
  }

  function Bumped(s: AppState, when: bool): Result<AppState, OpError> {
    if !when then Ok(s)
    else
      var g := NextGeneration(s.generation);
      if g.Err? then Err(g.error) else Ok(s.(generation := g.value))
  }

  function Checked(r: Result<AppState, OpError>): Result<AppState, OpError> {
    if r.Ok? && !Valid(r.value) then Err(ValidationFailed) else r
  }

  /** An update's candidate: the snapshot is compared, then nodes and row are replaced. */
  function UpdateCandidate(s: AppState, snapshot: UpdateSnapshot, fetched: Fetched, now: nat): Result<AppState, OpError> {
    var id := snapshot.subscriptionId;
    var seen := TakeSnapshot(s, id);
    if seen.Err? then Err(seen.error)
    else if seen.value != snapshot then Err(Busy)
    else
      var index := Routing.Position(s.subscriptions, SubscriptionId, id).value;
      match fetched
      case Modified(parsed, metadata, profileInterval) =>
        var replaced := ReplaceNodes(s, snapshot.providerId, parsed.drafts);
        if replaced.Err? then Err(replaced.error)
        else
          Bumped(WithRow(replaced.value.state, index, UpdatedRow(s.subscriptions[index], snapshot, fetched, now)),
                 replaced.value.changed && s.activeId == Some(id))
      case NotModified(_, _, _) =>
        Ok(WithRow(s, index, UpdatedRow(s.subscriptions[index], snapshot, fetched, now)))
  }

  function UpdatedRow(row: Subscription, snapshot: UpdateSnapshot, fetched: Fetched, now: nat): Subscription {
    var stamped := row.(
      updatePolicy := Adopted(row.updatePolicy, fetched.profileInterval),
      lastSuccessAtMs := Some(now), lastAttemptAtMs := Some(now));
    match fetched
    case Modified(parsed, metadata, _) =>
      stamped.(skipped := parsed.skipped, document := parsed.document,
               httpMetadata := if snapshot.source.Remote? then Some(metadata) else None)
    case NotModified(metadata, _, validatorsMatchSource) =>
      var previous := if snapshot.httpMetadata.Some? then snapshot.httpMetadata.value else NO_METADATA;
      stamped.(httpMetadata := Some(MergeMetadata(previous, metadata, validatorsMatchSource)))
  }

  /** The commit half of an update. */
  function UpdateDelta(s: AppState, snapshot: UpdateSnapshot, fetched: Fetched, now: nat): Result<AppState, OpError> {
    Checked(UpdateCandidate(s, snapshot, fetched, now))
  }

  /** A fetch that failed only stamps the attempt. */
  function AttemptDelta(s: AppState, snapshot: UpdateSnapshot, attemptedAt: nat): Result<AppState, OpError> {
    var seen := TakeSnapshot(s, snapshot.subscriptionId);
    if seen.Err? then Err(seen.error)
    else if seen.value != snapshot then Err(Busy)
    else
      var index := Routing.Position(s.subscriptions, SubscriptionId, snapshot.subscriptionId).value;
      Checked(Ok(WithRow(s, index, s.subscriptions[index].(lastAttemptAtMs := Some(attemptedAt)))))
  }

  /** What an update may change, whatever happened to the rest of the state during its fetch:
      its own row (never the row's id or name), its provider's nodes, and the generation by one
      when the nodes of the active subscription changed. */
  ghost predicate OnlyOwnRow(s: AppState, t: AppState, id: Id, providerId: Id) {
    && t == s.(subscriptions := t.subscriptions, nodes := t.nodes, generation := t.generation)
    && |t.subscriptions| == |s.subscriptions|
    && (forall i :: 0 <= i < |s.subscriptions| ==>
          && t.subscriptions[i].id == s.subscriptions[i].id
          && (s.subscriptions[i].id != id ==> t.subscriptions[i] == s.subscriptions[i]))
    && (forall p :: p != providerId ==> NodesOf(t, p) == NodesOf(s, p))
    && t.generation == s.generation
         + (if s.activeId == Some(id) && NodesOf(t, providerId) != NodesOf(s, providerId) then 1 else 0)
  }

  lemma UpdateTouchesOnlyItsOwn(s: AppState, snapshot: UpdateSnapshot, fetched: Fetched, now: nat)
    requires UpdateCandidate(s, snapshot, fetched, now).Ok?
    ensures OnlyOwnRow(s, UpdateCandidate(s, snapshot, fetched, now).value, snapshot.subscriptionId, snapshot.providerId)
    ensures UpdateDelta(s, snapshot, fetched, now).Ok? ==>
      UpdateDelta(s, snapshot, fetched, now) == UpdateCandidate(s, snapshot, fetched, now)
  {
    hide Valid, MergeMetadata, ProvidersOf, NormalizeNodes;
    var id := snapshot.subscriptionId;
    var t := UpdateCandidate(s, snapshot, fetched, now).value;
    var index := Routing.Position(s.subscriptions, SubscriptionId, id).value;
    var row := UpdatedRow(s.subscriptions[index], snapshot, fetched, now);
    assert row.id == id;
    if fetched.Modified? {
      ReplacementTouchesOneProvider(s, snapshot.providerId, fetched.parsed.drafts);
      var r := ReplaceNodes(s, snapshot.providerId, fetched.parsed.drafts).value;
      SameNodes(r.state, t);
      assert t.subscriptions == s.subscriptions[index := row];
    } else {
      SameNodes(s, t);
    }
  }

  lemma SameNodes(s: AppState, t: AppState)
    requires s.nodes == t.nodes
    ensures forall p :: NodesOf(s, p) == NodesOf(t, p)
  {
  }

  // ---- edit -------------------------------------------------------------------------------------

  /** Option fields left None are not edited; `acceptable` is the outcome of the validators on
      the edited values. */
  datatype EditInput = EditInput(
    id: Id, name: Option<string>, description: Option<string>, url: Option<string>,
    remoteRequest: Option<RemoteOptions>, updatePolicy: Option<UpdatePolicy>, acceptable: bool)

  function Chosen<T>(edit: Option<T>, unedited: T): T { if edit.Some? then edit.value else unedited }

  function EditedRow(row: Subscription, input: EditInput): Result<Subscription, OpError> {
    if !input.acceptable then Err(InvalidInput)
    else
      var named := row.(name := Chosen(input.name, row.name), description := Chosen(input.description, row.description));
      match row.source
      case Manual =>
        if input.url.Some? || input.remoteRequest.Some? || input.updatePolicy.Some? then Err(InvalidOptions) else Ok(named)
      case Remote(url) =>
        if row.remoteRequest.None? then Err(ValidationFailed)
        else Ok(named.(
            source := Remote(Chosen(input.url, url)),
            remoteRequest := Some(Chosen(input.remoteRequest, row.remoteRequest.value)),
            updatePolicy := Chosen(input.updatePolicy, row.updatePolicy)))
  }

  /** The download that follows a changed URL. */
  datatype Download = Download(parsed: Parsed, metadata: Metadata, profileInterval: Option<nat>, now: nat)

  function Renamed(pools: seq<Pool>, providerId: Id, name: string): (r: seq<Pool>)
    ensures |r| == |pools|
  {
    seq(|pools|, i requires 0 <= i < |pools| =>
      var p := pools[i];
      if p.kind == ImplicitProvider && |p.sources| == 1 && p.sources[0].providerId == providerId
      then p.(name := name) else p)
  }

  /** The commit half of an edit on the row at `index`, already edited. */
  function EditCommit(s: AppState, index: nat, edited: Subscription, download: Option<Download>): Result<AppState, OpError>
    requires index < |s.subscriptions|
  {
    var at := Routing.Position(s.providers, (p: Provider) => p.subscriptionId, edited.id);
    if at.None? then Err(ValidationFailed)
    else
      var providerId := s.providers[at.value].id;
      var named := WithRow(s, index, edited).(
        providers := s.providers[at.value := s.providers[at.value].(name := edited.name)],
        pools := Renamed(s.pools, providerId, edited.name));
      if download.None? then Checked(Ok(named))
      else
        var d := download.value;
        var replaced := ReplaceNodes(WithRow(named, index, edited.(skipped := d.parsed.skipped)), providerId, d.parsed.drafts);
        if replaced.Err? then Err(replaced.error)
        else
          var stamped := edited.(
            skipped := d.parsed.skipped, httpMetadata := Some(d.metadata), document := d.parsed.document,
            updatePolicy := Adopted(edited.updatePolicy, d.profileInterval),
            lastSuccessAtMs := Some(d.now), lastAttemptAtMs := Some(d.now));
          Checked(Bumped(WithRow(replaced.value.state, index, stamped),
                         replaced.value.changed && s.activeId == Some(edited.id)))
  }

  function EditDelta(s: AppState, input: EditInput, download: Option<Download>): Result<AppState, OpError> {
    var at := Routing.Position(s.subscriptions, SubscriptionId, input.id);
    if at.None? then Err(NotFound)
    else
      var edited := EditedRow(s.subscriptions[at.value], input);
      if edited.Err? then Err(edited.error) else EditCommit(s, at.value, edited.value, download)
  }

  // ---- delete -----------------------------------------------------------------------------------

  function ProviderIdsOf(s: AppState, id: Id): set<Id> {
    set p | p in s.providers && p.subscriptionId == id :: p.id
  }

  /** An implicit pool all of whose sources belong to the deleted subscription. */
  predicate Owned(providerIds: set<Id>, pool: Pool) {
    pool.kind == ImplicitProvider && pool.sources != [] && forall src | src in pool.sources :: src.providerId in providerIds
  }

  function OwnedPoolIds(s: AppState, providerIds: set<Id>): set<Id> {
    set p | p in s.pools && Owned(providerIds, p) :: p.id
  }

  predicate TargetsAny(target: Target, poolIds: set<Id>) {
    target.ToPool? && target.poolId in poolIds
  }

  predicate DeleteConflicts(s: AppState, providerIds: set<Id>, ownedPoolIds: set<Id>) {
    || (exists p | p in s.pools :: p.id !in ownedPoolIds && exists src | src in p.sources :: src.providerId in providerIds)
    || (exists r | r in s.routes :: TargetsAny(r.target, ownedPoolIds))
    || TargetsAny(s.defaultTarget, ownedPoolIds)
  }

  /** The state after the four retain passes and the change of the active subscription, before it
      is validated. */
  function DeleteCandidate(s: AppState, id: Id, activeRuntimeStopped: bool): Result<AppState, OpError> {
    var isActive := s.activeId == Some(id);
    var providerIds := ProviderIdsOf(s, id);
    var ownedPoolIds := OwnedPoolIds(s, providerIds);
    if !HasSubscription(s, id) then Err(NotFound)
    else if isActive && !activeRuntimeStopped then Err(ReferenceConflict)
    else if providerIds == {} then Err(ValidationFailed)
    else if DeleteConflicts(s, providerIds, ownedPoolIds) then Err(ReferenceConflict)
    else
      var rest := s.(
        nodes := Filter(s.nodes, (n: Node) => n.providerId !in providerIds),
        pools := Filter(s.pools, (p: Pool) => p.id !in ownedPoolIds),
        providers := Filter(s.providers, (p: Provider) => p.id !in providerIds),
        subscriptions := Filter(s.subscriptions, (row: Subscription) => row.id != id),
        activeId := if isActive then None else s.activeId);
      Bumped(rest, isActive)
  }

  function DeleteDelta(s: AppState, id: Id, activeRuntimeStopped: bool): Result<AppState, OpError> {
    Checked(DeleteCandidate(s, id, activeRuntimeStopped))
  }

  // ---- document save ------------------------------------------------------------------------------

  /** A document revision; the program's digest is taken to be injective. */
  datatype Revision = Revision(format: Format, content: string)

  function RevisionOf(d: Document): Revision { Revision(d.format, d.content) }

  datatype DocumentInput = DocumentInput(id: Id, format: Format, content: string, expected: Revision, drafts: seq<Draft>)

  datatype Prepared = Prepared(before: AppState, next: AppState, requiresApply: bool) {
    predicate StateChanged() { before != next }
  }

  function PrepareDocument(s: AppState, input: DocumentInput): Result<Prepared, OpError> {
    var at := Routing.Position(s.subscriptions, SubscriptionId, input.id);
    if at.None? then Err(NotFound)
    else
      var row := s.subscriptions[at.value];
      if row.document.None? then Err(DocumentUnavailable)
      else if RevisionOf(row.document.value) != input.expected then Err(DocumentConflict)
      else
        var changed := Revision(input.format, input.content) != input.expected;
        var overridden := if changed && row.source.Remote? then true else row.document.value.localOverride;
        var metadata :=
          if changed && row.source.Remote? && row.httpMetadata.Some?
          then Some(row.httpMetadata.value.(etag := None, lastModified := None)) else row.httpMetadata;
        var edited := row.(
          document := Some(Document(input.format, input.content, overridden)), skipped := 0, httpMetadata := metadata);
        var providers := ProvidersOf(s, input.id);
        if |providers| != 1 then Err(ValidationFailed)
        else
          var replaced := ReplaceNodes(WithRow(s, at.value, edited), providers[0].id, input.drafts);
          if replaced.Err? then Err(replaced.error)
          else
            var requiresApply := s.activeId == Some(input.id) && (changed || replaced.value.changed);
            var next := Checked(Bumped(replaced.value.state, requiresApply));
            if next.Err? then Err(next.error) else Ok(Prepared(s, next.value, requiresApply))
  }

  function DocumentDelta(s: AppState, input: DocumentInput): Result<AppState, OpError> {
    var prepared := PrepareDocument(s, input);
    if prepared.Err? then Err(prepared.error) else Ok(prepared.value.next)
  }

  // ---- activation -----------------------------------------------------------------------------------

  function ActivateDelta(s: AppState, id: Id): Result<AppState, OpError> {
    if !HasSubscription(s, id) then Err(NotFound)
    else
      var candidate :=
        if s.activeId == Some(id) then Ok(s)
        else if s.generation + 1 > MAX_SAFE_INTEGER then Err(ConfigurationFailed)
        else Ok(s.(activeId := Some(id), generation := s.generation + 1));
      if candidate.Err? then Err(candidate.error)
      else
        match Projection.Project(candidate.value)
        case Ok(_) => Ok(candidate.value)
        case Err(SelectionRequired) => Err(NotFound)
        case Err(NotFound) => Err(NotFound)
        case Err(SelectionConflict) => Err(SelectionConflict)
        case Err(ConfigurationFailed) => Err(ConfigurationFailed)
  }

  // ---- routing --------------------------------------------------------------------------------------

  /** The part of the state the routing revision names: connection details are not in it. */
  datatype CasMaterial = CasMaterial(
    activeId: Option<Id>, generation: nat, providers: seq<Provider>, nodes: seq<(Id, Id, string, Protocol)>,
    pools: seq<Pool>, defaultTarget: Target, routes: seq<Route>)

  function Material(s: AppState): CasMaterial {
    CasMaterial(s.activeId, s.generation, s.providers,
                Map(s.nodes, (n: Node) => (n.id, n.providerId, n.name, n.protocol)),
                s.pools, s.defaultTarget, s.routes)
  }

  /** The state a routing mutation saves: edited, moved to the next generation unless it is a
      manual selection, and valid. A mutation that edits nothing saves nothing. */
  function RouteDelta(s: AppState, m: Routing.Mutation): Result<AppState, OpError> {
    var edited := Routing.Mutated(s, m);
    if edited.Err? then Err(InvalidInput)
    else if edited.value == s then Ok(s)
    else Checked(Bumped(edited.value, !m.SetManualSelection?))
  }

  /** The same subscriptions and nodes. */
  predicate SameRows(s: AppState, t: AppState) {
    s.subscriptions == t.subscriptions && s.nodes == t.nodes
  }

  lemma RouteKeepsRows(s: AppState, m: Routing.Mutation)
    requires RouteDelta(s, m).Ok?
    ensures SameRows(s, RouteDelta(s, m).value)
  {
    hide Valid, Routing.Mutated;
    Routing.EditsOnlyRouting(s, m);
  }
}
