/** The membership the pool editor shows, against the membership the program compiles
    (src/lib/proxy-routing.ts, filterPoolNodes; src-tauri/src/domain/state.rs,
    resolve_pool_members). */
module PoolPreview {
  import opened Common
  import opened Domain

  function SourceProvider(source: PoolSource): Id { source.providerId }

  /** Source i is the last one of provider p. */
  ghost predicate LastFor(sources: seq<PoolSource>, p: Id, i: int) {
    && 0 <= i < |sources| && sources[i].providerId == p
    && forall j :: i < j < |sources| ==> sources[j].providerId != p
  }

  ghost predicate FilterOfLast(sources: seq<PoolSource>, p: Id, filter: NodeFilter) {
    exists i :: LastFor(sources, p, i) && filter == sources[i].filter
  }

  ghost predicate TableOf(sources: seq<PoolSource>, filters: map<Id, NodeFilter>) {
    && (forall p :: p in filters ==> FilterOfLast(sources, p, filters[p]))
    && (forall i :: 0 <= i < |sources| ==> sources[i].providerId in filters)
  }

  /** The editor's table from provider to filter: a later source of the same provider replaces an
      earlier one. */
  method FilterTable(sources: seq<PoolSource>) returns (filters: map<Id, NodeFilter>)
    ensures TableOf(sources, filters)
  {
    filters := map[];
    var k := 0;
    while k < |sources|
      invariant 0 <= k <= |sources| && TableOf(sources[..k], filters)
    {
      TableMore(sources[..k], sources[k], filters);
      assert sources[..k + 1] == sources[..k] + [sources[k]];
      filters := filters[sources[k].providerId := sources[k].filter];
      k := k + 1;
    }
    assert sources[..k] == sources;
  }

  lemma TableMore(sources: seq<PoolSource>, next: PoolSource, filters: map<Id, NodeFilter>)
    requires TableOf(sources, filters)
    ensures TableOf(sources + [next], filters[next.providerId := next.filter])
  {
    var more := sources + [next];
    var grown := filters[next.providerId := next.filter];
    forall p | p in grown ensures FilterOfLast(more, p, grown[p]) {
      if p == next.providerId {
        assert LastFor(more, p, |sources|);
      } else {
        var i :| LastFor(sources, p, i) && filters[p] == sources[i].filter;
        assert LastFor(more, p, i);
      }
    }
  }

  lemma ShownIsMember(nodes: seq<Node>, sources: seq<PoolSource>, filters: map<Id, NodeFilter>, n: Node)
    requires TableOf(sources, filters)
    requires n in nodes && n.providerId in filters && Matches(filters[n.providerId], n)
    ensures n.id in ResolveMembers(nodes, sources)
  {
    hide Matches, ResolveMembers;
    assert FilterOfLast(sources, n.providerId, filters[n.providerId]);
    var i :| LastFor(sources, n.providerId, i) && filters[n.providerId] == sources[i].filter;
    assert sources[i] in sources && SourceTakes(sources[i], n);
  }

  lemma MemberIsShown(nodes: seq<Node>, sources: seq<PoolSource>, filters: map<Id, NodeFilter>, id: Id)
    requires TableOf(sources, filters) && Distinct(sources, SourceProvider)
    requires id in ResolveMembers(nodes, sources)
    ensures exists n :: n in nodes && n.id == id && n.providerId in filters && Matches(filters[n.providerId], n)
  {
    hide Matches, ResolveMembers;
    var n, src :| n in nodes && src in sources && SourceTakes(src, n) && n.id == id;
    assert n.providerId in filters;
    assert FilterOfLast(sources, n.providerId, filters[n.providerId]);
    var i :| LastFor(sources, n.providerId, i) && filters[n.providerId] == sources[i].filter;
    DistinctElement(sources, SourceProvider, src, sources[i]);
  }

  /** What the editor lists for these sources. When every provider is named once, which the program
      demands of a pool it stores, that is exactly what the program resolves; in general the editor
      never lists a node the program would leave out. */
  method FilterPoolNodes(nodes: seq<Node>, sources: seq<PoolSource>) returns (shown: seq<Node>)
    ensures forall n :: n in shown ==> n in nodes && n.id in ResolveMembers(nodes, sources)
    ensures Distinct(sources, SourceProvider) ==>
      forall id :: id in ResolveMembers(nodes, sources) <==> exists n :: n in shown && n.id == id
  {
    hide Matches, ResolveMembers, TableOf;
    var filters := FilterTable(sources);
    shown := Filter(nodes, (n: Node) => n.providerId in filters && Matches(filters[n.providerId], n));
    forall n | n in shown ensures n in nodes && n.id in ResolveMembers(nodes, sources) {
      ShownIsMember(nodes, sources, filters, n);
    }
    if Distinct(sources, SourceProvider) {
      forall id | id in ResolveMembers(nodes, sources) ensures exists n :: n in shown && n.id == id {
        MemberIsShown(nodes, sources, filters, id);
      }
    }
  }
}
