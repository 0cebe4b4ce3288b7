/** The persisted application state, its validity, and pool membership
    (src-tauri/src/domain/state.rs). */
module Domain {
  import opened Common

  type Id = string

  datatype Format = Json | Yaml

  datatype Document = Document(format: Format, content: string, localOverride: bool)

  datatype Metadata = Metadata(
    etag: Option<string>, lastModified: Option<string>,
    userinfo: Option<string>, disposition: Option<string>)

  /** `acceptable` is the outcome of the length and range checks on the text fields. */
  datatype RemoteOptions = RemoteOptions(
    userAgent: Option<string>, timeoutSeconds: nat, proxyMode: nat, verifyTls: bool, acceptable: bool)

  datatype UpdatePolicy = UpdatePolicy(allowAutoUpdate: bool, intervalMinutes: Option<nat>)

  datatype Source = Remote(url: string) | Manual

  /** `textAcceptable` is the outcome of the checks on description, URL text, document size and
      header text; every check that involves another field is spelled out in RowValid. */
  datatype Subscription = Subscription(
    id: Id, name: string, description: string, source: Source,
    lastSuccessAtMs: Option<nat>, lastAttemptAtMs: Option<nat>,
    httpMetadata: Option<Metadata>, remoteRequest: Option<RemoteOptions>,
    updatePolicy: UpdatePolicy, skipped: nat, document: Option<Document>, textAcceptable: bool)

  datatype Provider = Provider(id: Id, subscriptionId: Id, name: string)

  datatype Protocol =
    | Socks | Http | Shadowsocks | Vmess | Vless | Trojan | WireGuard | Hysteria | Hysteria2
    | Tuic | ShadowTls | Ssh | Naive | AnyTls | Snell

  /** `connection` stands for server, port, options, transport and TLS; `compatible` for the
      outcome of the checks on them. */
  datatype Node = Node(
    id: Id, providerId: Id, name: string, protocol: Protocol, connection: string, compatible: bool)

  datatype NodeFilter = NodeFilter(
    regions: seq<string>, protocols: seq<Protocol>,
    includeKeywords: seq<string>, excludeKeywords: seq<string>,
    includeNodeIds: seq<Id>, excludeNodeIds: seq<Id>)

  datatype PoolSource = PoolSource(providerId: Id, filter: NodeFilter)

  datatype PoolKind = ImplicitProvider | Custom

  datatype Selection =
    | ManualChoice(selectedNodeId: Option<Id>)
    | UrlTest(probeUrl: string, intervalSecs: nat, toleranceMs: nat)

  datatype Pool = Pool(
    id: Id, name: string, kind: PoolKind, sources: seq<PoolSource>, selection: Selection, enabled: bool)

  datatype Target = Unconfigured | ToPool(poolId: Id) | Direct | Block

  /** `matcherValid` is the outcome of TrafficMatcher::is_valid on `matcher`. */
  datatype Route = Route(
    id: Id, name: string, enabled: bool, priority: int, matcher: string, matcherValid: bool, target: Target)

  datatype AppState = AppState(
    defaultTarget: Target, activeId: Option<Id>, generation: nat,
    subscriptions: seq<Subscription>, providers: seq<Provider>, nodes: seq<Node>,
    pools: seq<Pool>, routes: seq<Route>)

  const EMPTY: AppState := AppState(Unconfigured, None, 0, [], [], [], [], [])

  /** A missing file reads as the empty state. */
  function OrEmpty(found: Option<AppState>): AppState { if found.Some? then found.value else EMPTY }

  const DEFAULT_FILTER: NodeFilter := NodeFilter([], [], [], [], [], [])

  // ---- keys -----------------------------------------------------------------------------------

  function SubscriptionId(v: Subscription): Id { v.id }
  function ProviderId(v: Provider): Id { v.id }
  function NodeId(v: Node): Id { v.id }
  function PoolId(v: Pool): Id { v.id }
  function RouteId(v: Route): Id { v.id }

  // ---- node filters ---------------------------------------------------------------------------

  function Lower(s: string): string {
    Map(s, (c: char) => if 'A' <= c <= 'Z' then c + 32 as char else c)
  }

  predicate Contains(text: string, part: string) {
    part <= text || (text != [] && Contains(text[1..], part))
  }

  predicate NameHas(node: Node, part: string) {
    Contains(Lower(node.name), Lower(part))
  }

  predicate Matches(filter: NodeFilter, node: Node) {
    && (filter.regions == [] || exists region | region in filter.regions :: NameHas(node, region))
    && (filter.protocols == [] || node.protocol in filter.protocols)
    && (filter.includeKeywords == [] || forall word | word in filter.includeKeywords :: NameHas(node, word))
    && !(exists word | word in filter.excludeKeywords :: NameHas(node, word))
    && (filter.includeNodeIds == [] || node.id in filter.includeNodeIds)
    && node.id !in filter.excludeNodeIds
  }

  predicate SourceTakes(source: PoolSource, node: Node) {
    node.providerId == source.providerId && Matches(source.filter, node)
  }

  // ---- pool membership ------------------------------------------------------------------------

  /** The ids each source contributes, source by source, in node order. */
  function MemberList(nodes: seq<Node>, sources: seq<PoolSource>): (r: seq<Id>)
    ensures forall id :: id in r <==>
      exists n, src :: n in nodes && src in sources && SourceTakes(src, n) && n.id == id
  {
    if sources == [] then []
    else
      var taken := Filter(nodes, (n: Node) => SourceTakes(sources[0], n));
      var rest := MemberList(nodes, sources[1..]);
      var own := Map(taken, NodeId);
      assert forall id :: id in own <==> exists n :: n in taken && n.id == id by {
        forall id ensures id in own <==> exists n :: n in taken && n.id == id {
          if n :| n in taken && n.id == id {
            var i :| 0 <= i < |taken| && taken[i] == n;
            assert own[i] == id;
          }
          if id in own {
            var i :| 0 <= i < |own| && own[i] == id;
            assert taken[i] in taken;
          }
        }
      }
      own + rest
  }

  /** Sorted, duplicate-free member ids of a pool with these sources. */
  function ResolveMembers(nodes: seq<Node>, sources: seq<PoolSource>): (r: seq<Id>)
    ensures forall id :: id in r <==>
      exists n, src :: n in nodes && src in sources && SourceTakes(src, n) && n.id == id
  {
    SortedIds(MemberList(nodes, sources))
  }

  // ---- validity -------------------------------------------------------------------------------

  predicate Blank(s: string) {
    forall i | 0 <= i < |s| :: s[i] in " \t\n\r"
  }

  predicate UniqueIds(ids: seq<Id>) {
    && (forall i | 0 <= i < |ids| :: !Blank(ids[i]))
    && (forall i, j | 0 <= i < j < |ids| :: ids[i] != ids[j])
  }

  predicate TimeSafe(value: Option<nat>) {
    value.Some? ==> value.value <= MAX_SAFE_INTEGER
  }

  predicate RowValid(row: Subscription) {
    && TimeSafe(row.lastSuccessAtMs) && TimeSafe(row.lastAttemptAtMs)
    && row.textAcceptable
    && (row.source.Remote? ==> row.remoteRequest.Some? && row.remoteRequest.value.acceptable)
    && (row.source.Manual? ==>
          && row.httpMetadata.None? && row.remoteRequest.None?
          && !row.updatePolicy.allowAutoUpdate && row.updatePolicy.intervalMinutes.None?
          && (row.document.Some? ==> !row.document.value.localOverride))
    && (row.updatePolicy.intervalMinutes.Some? ==> row.updatePolicy.intervalMinutes.value >= 1440)
  }

  predicate HasSubscription(s: AppState, id: Id) {
    exists row | row in s.subscriptions :: row.id == id
  }

  predicate HasProvider(s: AppState, id: Id) {
    exists p | p in s.providers :: p.id == id
  }

  predicate HasPool(s: AppState, id: Id) {
    exists p | p in s.pools :: p.id == id
  }

  predicate TargetResolves(s: AppState, target: Target) {
    target.ToPool? ==> HasPool(s, target.poolId)
  }

  /** Every node id a filter names belongs to the source's provider, and none is both included
      and excluded. */
  predicate FilterValid(s: AppState, source: PoolSource) {
    && (forall id | id in source.filter.includeNodeIds + source.filter.excludeNodeIds ::
          exists n | n in s.nodes :: n.id == id && n.providerId == source.providerId)
    && (forall id | id in source.filter.includeNodeIds :: id !in source.filter.excludeNodeIds)
  }

  predicate PoolValid(s: AppState, pool: Pool) {
    && pool.sources != []
    && (forall source | source in pool.sources :: HasProvider(s, source.providerId) && FilterValid(s, source))
    && (pool.selection.ManualChoice? && pool.selection.selectedNodeId.Some? ==>
          pool.selection.selectedNodeId.value in ResolveMembers(s.nodes, pool.sources))
    && (pool.selection.UrlTest? ==> !Blank(pool.selection.probeUrl) && pool.selection.intervalSecs != 0)
  }

  /** AppState::validate with the error kinds collapsed into failure. */
  predicate Valid(s: AppState) {
    && UniqueIds(Map(s.subscriptions, SubscriptionId))
    && UniqueIds(Map(s.providers, ProviderId))
    && UniqueIds(Map(s.nodes, NodeId))
    && UniqueIds(Map(s.pools, PoolId))
    && UniqueIds(Map(s.routes, RouteId))
    && TargetResolves(s, s.defaultTarget)
    && s.generation <= MAX_SAFE_INTEGER
    && (s.activeId.Some? ==> HasSubscription(s, s.activeId.value))
    && (forall row | row in s.subscriptions :: RowValid(row))
    && (forall p | p in s.providers :: HasSubscription(s, p.subscriptionId))
    && (forall n | n in s.nodes :: HasProvider(s, n.providerId) && n.compatible)
    && (forall p | p in s.pools :: PoolValid(s, p))
    && (forall r | r in s.routes :: r.matcherValid && TargetResolves(s, r.target))
  }

  lemma UniqueIsDistinct<T(!new)>(s: seq<T>, key: T -> Id)
    requires UniqueIds(Map(s, key))
    ensures Distinct(s, key)
    ensures forall x :: x in s ==> !Blank(key(x))
  {
    var ids := Map(s, key);
    forall i, j | 0 <= i < j < |s| ensures key(s[i]) != key(s[j]) {
      assert ids[i] != ids[j];
    }
    forall x | x in s ensures !Blank(key(x)) {
      var i :| 0 <= i < |s| && s[i] == x;
      assert ids[i] == key(x);
    }
  }

  lemma DistinctIsUnique<T(!new)>(s: seq<T>, key: T -> Id)
    requires Distinct(s, key)
    requires forall x :: x in s ==> !Blank(key(x))
    ensures UniqueIds(Map(s, key))
  {
    var ids := Map(s, key);
    forall i, j | 0 <= i < j < |ids| ensures ids[i] != ids[j] {
      assert key(s[i]) != key(s[j]);
    }
    forall i | 0 <= i < |ids| ensures !Blank(ids[i]) {
      assert s[i] in s;
    }
  }
}
