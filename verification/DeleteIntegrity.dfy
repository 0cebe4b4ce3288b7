/** Deleting a subscription leaves no dangling reference
    (src-tauri/src/application/subscription_management.rs, delete). */
module DeleteIntegrity {
  import opened Common
  import opened Domain
  import opened Edits

  /** Exactly the subscription, its providers, their nodes and its owned implicit pools are gone;
      the active id is cleared, with a new generation, exactly when it named the subscription. */
  ghost predicate RemovedExactly(s: AppState, t: AppState, id: Id) {
    && (forall row :: row in t.subscriptions <==> row in s.subscriptions && row.id != id)
    && (forall p :: p in t.providers <==> p in s.providers && p.subscriptionId != id)
    && (forall n :: n in t.nodes <==> n in s.nodes && !OwnedBy(s, id, n.providerId))
    && (forall p :: p in t.pools <==> p in s.pools && !(p.kind == ImplicitProvider && UsesOwner(s, id, p)))
    && t.routes == s.routes && t.defaultTarget == s.defaultTarget
    && (if s.activeId == Some(id) then t.activeId == None && t.generation == s.generation + 1
        else t.activeId == s.activeId && t.generation == s.generation)
  }

  ghost predicate OwnedBy(s: AppState, id: Id, providerId: Id) {
    exists p :: p in s.providers && p.id == providerId && p.subscriptionId == id
  }

  ghost predicate UsesOwner(s: AppState, id: Id, pool: Pool) {
    exists src :: src in pool.sources && OwnedBy(s, id, src.providerId)
  }

  lemma OwnedPoolIsTheIdHolder(s: AppState, providerIds: set<Id>, pool: Pool)
    requires Valid(s) && pool in s.pools
    ensures pool.id in OwnedPoolIds(s, providerIds) <==> Owned(providerIds, pool)
  {
    if pool.id in OwnedPoolIds(s, providerIds) {
      var other :| other in s.pools && Owned(providerIds, other) && other.id == pool.id;
      UniqueIsDistinct(s.pools, PoolId);
      DistinctElement(s.pools, PoolId, pool, other);
    }
  }

  lemma DeleteRemovesExactly(s: AppState, id: Id, stopped: bool)
    requires Valid(s) && DeleteCandidate(s, id, stopped).Ok?
    ensures RemovedExactly(s, DeleteCandidate(s, id, stopped).value, id)
  {
    var providerIds := ProviderIdsOf(s, id);
    var t := DeleteCandidate(s, id, stopped).value;
    UniqueIsDistinct(s.providers, ProviderId);
    forall p | p in s.providers ensures p.id in providerIds <==> p.subscriptionId == id {
      if p.id in providerIds {
        var q :| q in s.providers && q.subscriptionId == id && q.id == p.id;
        DistinctElement(s.providers, ProviderId, p, q);
      }
    }
    forall pid ensures pid in providerIds <==> OwnedBy(s, id, pid) {}
    forall p | p in s.pools ensures p in t.pools <==> !(p.kind == ImplicitProvider && UsesOwner(s, id, p)) {
      OwnedPoolIsTheIdHolder(s, providerIds, p);
      assert PoolValid(s, p);
      if Owned(providerIds, p) {
        assert p.sources[0] in p.sources;
      }
    }
  }

  /** Filtering by a set of removed providers does not change what a surviving pool resolves to. */
  lemma SurvivorsKeepMembers(s: AppState, t: AppState, pool: Pool, providerIds: set<Id>)
    requires t.nodes == Filter(s.nodes, (n: Node) => n.providerId !in providerIds)
    requires forall src :: src in pool.sources ==> src.providerId !in providerIds
    ensures forall id :: id in ResolveMembers(s.nodes, pool.sources) ==> id in ResolveMembers(t.nodes, pool.sources)
  {
    forall id | id in ResolveMembers(s.nodes, pool.sources)
      ensures id in ResolveMembers(t.nodes, pool.sources)
    {
      var n, src :| n in s.nodes && src in pool.sources && SourceTakes(src, n) && n.id == id;
      assert n in t.nodes;
    }
  }

  lemma SurvivingPoolIsValid(s: AppState, t: AppState, pool: Pool, providerIds: set<Id>)
    requires PoolValid(s, pool)
    requires t.nodes == Filter(s.nodes, (n: Node) => n.providerId !in providerIds)
    requires t.providers == Filter(s.providers, (p: Provider) => p.id !in providerIds)
    requires forall src :: src in pool.sources ==> src.providerId !in providerIds
    ensures PoolValid(t, pool)
  {
    SurvivorsKeepMembers(s, t, pool, providerIds);
    forall source | source in pool.sources
      ensures HasProvider(t, source.providerId) && FilterValid(t, source)
    {
      assert HasProvider(s, source.providerId) && FilterValid(s, source);
      var p :| p in s.providers && p.id == source.providerId;
      assert p in t.providers;
      forall id | id in source.filter.includeNodeIds + source.filter.excludeNodeIds
        ensures exists n | n in t.nodes :: n.id == id && n.providerId == source.providerId
      {
        var n :| n in s.nodes && n.id == id && n.providerId == source.providerId;
        assert n in t.nodes;
      }
    }
  }

  lemma SurvivingPools(s: AppState, id: Id, stopped: bool)
    requires Valid(s) && DeleteCandidate(s, id, stopped).Ok?
    ensures forall p :: p in DeleteCandidate(s, id, stopped).value.pools ==> PoolValid(DeleteCandidate(s, id, stopped).value, p)
  {
    var providerIds := ProviderIdsOf(s, id);
    var t := DeleteCandidate(s, id, stopped).value;
    forall p | p in t.pools ensures PoolValid(t, p) {
      assert p in s.pools && p.id !in OwnedPoolIds(s, providerIds);
      assert PoolValid(s, p);
      SurvivingPoolIsValid(s, t, p, providerIds);
    }
  }

  lemma SurvivingIdsUnique(s: AppState, id: Id, stopped: bool)
    requires Valid(s) && DeleteCandidate(s, id, stopped).Ok?
    ensures var t := DeleteCandidate(s, id, stopped).value;
      && UniqueIds(Map(t.subscriptions, SubscriptionId))
      && UniqueIds(Map(t.providers, ProviderId))
      && UniqueIds(Map(t.nodes, NodeId))
      && UniqueIds(Map(t.pools, PoolId))
  {
    var providerIds := ProviderIdsOf(s, id);
    var owned := OwnedPoolIds(s, providerIds);
    UniqueSurvives(s.subscriptions, (row: Subscription) => row.id != id, SubscriptionId);
    UniqueSurvives(s.providers, (p: Provider) => p.id !in providerIds, ProviderId);
    UniqueSurvives(s.nodes, (n: Node) => n.providerId !in providerIds, NodeId);
    UniqueSurvives(s.pools, (p: Pool) => p.id !in owned, PoolId);
  }

  lemma {:induction false} UniqueSurvives<T(!new)>(s: seq<T>, keep: T -> bool, key: T -> Id)
    requires UniqueIds(Map(s, key))
    ensures UniqueIds(Map(Filter(s, keep), key))
  {
    UniqueIsDistinct(s, key);
    FilterDistinct(s, keep, key);
    DistinctIsUnique(Filter(s, keep), key);
  }

  lemma SurvivingTargets(s: AppState, id: Id, stopped: bool)
    requires Valid(s) && DeleteCandidate(s, id, stopped).Ok?
    ensures var t := DeleteCandidate(s, id, stopped).value;
      && TargetResolves(t, t.defaultTarget)
      && forall r :: r in t.routes ==> TargetResolves(t, r.target)
  {
    var owned := OwnedPoolIds(s, ProviderIdsOf(s, id));
    var t := DeleteCandidate(s, id, stopped).value;
    forall target: Target | TargetResolves(s, target) && !TargetsAny(target, owned)
      ensures TargetResolves(t, target)
    {
      if target.ToPool? {
        var p :| p in s.pools && p.id == target.poolId;
        assert p in t.pools;
      }
    }
    forall r | r in t.routes ensures TargetResolves(t, r.target) {
      assert TargetResolves(s, r.target) && !TargetsAny(r.target, owned);
    }
  }

  lemma SurvivingOwners(s: AppState, id: Id, stopped: bool)
    requires Valid(s) && DeleteCandidate(s, id, stopped).Ok?
    ensures var t := DeleteCandidate(s, id, stopped).value;
      && (t.activeId.Some? ==> HasSubscription(t, t.activeId.value))
      && (forall p :: p in t.providers ==> HasSubscription(t, p.subscriptionId))
      && (forall n :: n in t.nodes ==> HasProvider(t, n.providerId) && n.compatible)
  {
    DeleteRemovesExactly(s, id, stopped);
    var t := DeleteCandidate(s, id, stopped).value;
    forall other | HasSubscription(s, other) && other != id ensures HasSubscription(t, other) {
      var row :| row in s.subscriptions && row.id == other;
      assert row in t.subscriptions;
    }
    forall n | n in t.nodes ensures HasProvider(t, n.providerId) && n.compatible {
      assert n in s.nodes && HasProvider(s, n.providerId);
      var p :| p in s.providers && p.id == n.providerId;
      assert !OwnedBy(s, id, n.providerId);
      assert p in t.providers;
    }
    forall p | p in t.providers ensures HasSubscription(t, p.subscriptionId) {
      assert p in s.providers && HasSubscription(s, p.subscriptionId);
    }
  }

  /** The guards suffice: after the retain passes the state is valid again, so the validation
      that follows them never refuses a deletion. */
  lemma DeleteGuardsSuffice(s: AppState, id: Id, stopped: bool)
    requires Valid(s) && DeleteCandidate(s, id, stopped).Ok?
    ensures Valid(DeleteCandidate(s, id, stopped).value)
    ensures DeleteDelta(s, id, stopped) == DeleteCandidate(s, id, stopped)
  {
    SurvivingIdsUnique(s, id, stopped);
    SurvivingPools(s, id, stopped);
    SurvivingTargets(s, id, stopped);
    SurvivingOwners(s, id, stopped);
    DeleteRemovesExactly(s, id, stopped);
  }

  /** A valid state can lose the subscription exactly when the subscription exists with a
      provider, its runtime is stopped if it is the active one and a generation is left, no pool
      mixes in or singles out its providers as a custom pool would, and nothing targets its
      implicit pools. */
  lemma DeleteSucceedsExactly(s: AppState, id: Id, stopped: bool)
    requires Valid(s)
    ensures DeleteDelta(s, id, stopped).Ok? <==>
      && HasSubscription(s, id)
      && (exists p :: p in s.providers && p.subscriptionId == id)
      && (s.activeId == Some(id) ==> stopped && s.generation < MAX_SAFE_INTEGER)
      && (forall p :: p in s.pools && UsesOwner(s, id, p) ==>
            && p.kind == ImplicitProvider
            && (forall src :: src in p.sources ==> OwnedBy(s, id, src.providerId))
            && s.defaultTarget != ToPool(p.id)
            && forall r :: r in s.routes ==> r.target != ToPool(p.id))
  {
    hide Valid, OwnedPoolIds, DeleteConflicts;
    var providerIds := ProviderIdsOf(s, id);
    var owned := OwnedPoolIds(s, providerIds);
    forall pid ensures pid in providerIds <==> OwnedBy(s, id, pid) {}
    assert providerIds == {} <==> !(exists p :: p in s.providers && p.subscriptionId == id) by {
      if p :| p in s.providers && p.subscriptionId == id { assert p.id in providerIds; }
    }
    ConflictsExactly(s, id);
    if DeleteCandidate(s, id, stopped).Ok? {
      DeleteGuardsSuffice(s, id, stopped);
    }
  }

  ghost predicate FreeToGo(s: AppState, id: Id, p: Pool) {
    && p.kind == ImplicitProvider
    && (forall src :: src in p.sources ==> OwnedBy(s, id, src.providerId))
    && s.defaultTarget != ToPool(p.id)
    && forall r :: r in s.routes ==> r.target != ToPool(p.id)
  }

  lemma ConflictsExactly(s: AppState, id: Id)
    requires Valid(s)
    ensures !DeleteConflicts(s, ProviderIdsOf(s, id), OwnedPoolIds(s, ProviderIdsOf(s, id))) <==>
      forall p :: p in s.pools && UsesOwner(s, id, p) ==> FreeToGo(s, id, p)
  {
    hide Valid, Domain.PoolValid;
    var providerIds := ProviderIdsOf(s, id);
    var owned := OwnedPoolIds(s, providerIds);
    forall pid ensures pid in providerIds <==> OwnedBy(s, id, pid) {}
    forall p | p in s.pools ensures p.id in owned <==> Owned(providerIds, p) {
      OwnedPoolIsTheIdHolder(s, providerIds, p);
    }
    if DeleteConflicts(s, providerIds, owned) {
      if p :| p in s.pools && p.id !in owned && exists src | src in p.sources :: src.providerId in providerIds {
        assert UsesOwner(s, id, p) && !FreeToGo(s, id, p);
      } else {
        var poolId: Id :| poolId in owned
          && (s.defaultTarget == ToPool(poolId) || exists r :: r in s.routes && r.target == ToPool(poolId));
        var p :| p in s.pools && Owned(providerIds, p) && p.id == poolId;
        assert p.sources[0] in p.sources;
        assert UsesOwner(s, id, p) && !FreeToGo(s, id, p);
      }
    } else {
      forall p | p in s.pools && UsesOwner(s, id, p) ensures FreeToGo(s, id, p) {
        var src :| src in p.sources && OwnedBy(s, id, src.providerId);
        assert p.id in owned;
        forall r | r in s.routes ensures r.target != ToPool(p.id) {
          assert !TargetsAny(r.target, owned);
        }
      }
    }
  }
}
