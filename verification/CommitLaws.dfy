/** What the subscription commits of module Edits undo, keep and refuse when taken together
    (src-tauri/src/application/subscription_management.rs). */
module CommitLaws {
  import opened Common
  import opened Domain
  import opened Edits
  import Routing

  function NewId(input: ImportInput): Id { "sub-" + input.suffix }
  function NewProvider(input: ImportInput): Id { "provider-" + input.suffix }
  function NewPool(input: ImportInput): Id { "pool-" + input.suffix }

  // ---- import -----------------------------------------------------------------------------------

  function NewRow(input: ImportInput): Subscription {
    Subscription(
      NewId(input), input.name, input.description, input.source, Some(input.now), Some(input.now),
      input.httpMetadata, input.remoteRequest, input.updatePolicy, input.parsed.skipped,
      input.parsed.document, input.textAcceptable)
  }

  function NewSource(input: ImportInput): PoolSource { PoolSource(NewProvider(input), DEFAULT_FILTER) }

  function NewPoolRow(input: ImportInput): Pool {
    Pool(NewPool(input), input.name, ImplicitProvider, [NewSource(input)], ManualChoice(None), true)
  }

  function NewNodes(input: ImportInput): seq<Node> {
    seq(|input.parsed.drafts|, k requires 0 <= k < |input.parsed.drafts| => AsNode(NewProvider(input), input.parsed.drafts[k]))
  }

  /** One subscription, one provider, one pool and the parsed nodes behind the existing ones. */
  function Grown(s: AppState, input: ImportInput): AppState {
    s.(subscriptions := s.subscriptions + [NewRow(input)],
       providers := s.providers + [Provider(NewProvider(input), NewId(input), input.name)],
       pools := s.pools + [NewPoolRow(input)],
       nodes := s.nodes + NewNodes(input))
  }

  predicate Fresh(s: AppState, input: ImportInput) {
    && !HasSubscription(s, NewId(input)) && !HasProvider(s, NewProvider(input)) && !HasPool(s, NewPool(input))
  }

  lemma NoNodeWithoutProvider(s: AppState, providerId: Id)
    requires Valid(s) && !HasProvider(s, providerId)
    ensures forall n :: n in s.nodes ==> n.providerId != providerId
    ensures NodesNotOf(s, providerId) == s.nodes
  {
    forall n | n in s.nodes ensures n.providerId != providerId {
      assert HasProvider(s, n.providerId);
    }
    FilterAll(s.nodes, (n: Node) => n.providerId != providerId);
  }

  lemma SameNodesNotOf(a: AppState, b: AppState, providerId: Id)
    requires a.nodes == b.nodes
    ensures NodesNotOf(a, providerId) == NodesNotOf(b, providerId)
  {
  }

  /** An import appends and changes nothing else: what runs stays selected, no generation is used up,
      and the nodes of other providers stay where they are. */
  lemma ImportAppends(s: AppState, input: ImportInput)
    requires Valid(s) && ImportDelta(s, input).Ok?
    ensures ImportDelta(s, input) == Ok(Grown(s, input))
    ensures Valid(Grown(s, input)) && Fresh(s, input)
  {
    hide Valid, NodesNotOf, NodesOf;
    var pid := NewProvider(input);
    NoNodeWithoutProvider(s, pid);
    var grown := Grown(s, input).(nodes := s.nodes);
    SameNodesNotOf(grown, s, pid);
    assert ReplaceNodes(grown, pid, input.parsed.drafts).Ok?;
    NormalizedAreNew(input);
  }

  lemma NormalizedAreNew(input: ImportInput)
    requires NormalizeNodes(NewProvider(input), input.parsed.drafts).Ok?
    ensures NormalizeNodes(NewProvider(input), input.parsed.drafts).value == NewNodes(input)
  {
  }

  /** The new pool consists of exactly the imported nodes. */
  lemma ImportedPoolHoldsTheNodes(s: AppState, input: ImportInput)
    requires Valid(s) && ImportDelta(s, input).Ok?
    ensures forall id :: id in ResolveMembers(Grown(s, input).nodes, NewPoolRow(input).sources) <==>
              exists k :: 0 <= k < |input.parsed.drafts| && input.parsed.drafts[k].id == id
  {
    ImportAppends(s, input);
    NoNodeWithoutProvider(s, NewProvider(input));
    hide Valid, ImportDelta;
    DefaultFilterTakesAll(NewSource(input));
    OnlyTheNew(s.nodes, NewNodes(input), NewSource(input), input.parsed.drafts);
  }

  lemma OnlyTheNew(others: seq<Node>, news: seq<Node>, source: PoolSource, drafts: seq<Draft>)
    requires forall n :: SourceTakes(source, n) <==> n.providerId == source.providerId
    requires forall n :: n in others ==> n.providerId != source.providerId
    requires |news| == |drafts|
    requires forall k :: 0 <= k < |drafts| ==> news[k] == AsNode(source.providerId, drafts[k])
    ensures forall id :: id in ResolveMembers(others + news, [source]) <==> exists k :: 0 <= k < |drafts| && drafts[k].id == id
  {
    hide SourceTakes, ResolveMembers;
    forall id | id in ResolveMembers(others + news, [source]) ensures exists k :: 0 <= k < |drafts| && drafts[k].id == id {
      var n, src :| n in others + news && src in [source] && SourceTakes(src, n) && n.id == id;
      assert n in news;
      var k :| 0 <= k < |news| && news[k] == n;
      assert drafts[k].id == id;
    }
    forall k | 0 <= k < |drafts| ensures drafts[k].id in ResolveMembers(others + news, [source]) {
      assert news[k] in others + news && source in [source] && SourceTakes(source, news[k]);
    }
  }

  lemma DefaultFilterTakesAll(source: PoolSource)
    requires source.filter == DEFAULT_FILTER
    ensures forall n :: SourceTakes(source, n) <==> n.providerId == source.providerId
  {
  }

  // ---- import, then delete --------------------------------------------------------------------------

  lemma {:induction false} FilterBack<T(!new)>(first: seq<T>, added: seq<T>, keep: T -> bool)
    requires forall x :: x in first ==> keep(x)
    requires forall x :: x in added ==> !keep(x)
    ensures Filter(first + added, keep) == first
  {
    FilterConcat(first, added, keep);
    FilterAll(first, keep);
    FilterNone(added, keep);
  }

  lemma NewOwner(s: AppState, input: ImportInput)
    requires Valid(s) && Fresh(s, input)
    ensures ProviderIdsOf(Grown(s, input), NewId(input)) == {NewProvider(input)}
  {
    var t := Grown(s, input);
    var own := Provider(NewProvider(input), NewId(input), input.name);
    assert own in t.providers;
    forall p | p in s.providers ensures p.subscriptionId != NewId(input) {
      assert HasSubscription(s, p.subscriptionId);
    }
  }

  lemma OldPoolsAreForeign(s: AppState, input: ImportInput)
    requires Valid(s) && Fresh(s, input)
    ensures forall p :: p in s.pools ==> p.sources != [] && forall src :: src in p.sources ==> src.providerId != NewProvider(input)
    ensures s.defaultTarget != ToPool(NewPool(input)) && forall r :: r in s.routes ==> r.target != ToPool(NewPool(input))
  {
    forall p | p in s.pools
      ensures p.sources != [] && forall src :: src in p.sources ==> src.providerId != NewProvider(input)
    {
      assert PoolValid(s, p);
      forall src | src in p.sources ensures src.providerId != NewProvider(input) { assert HasProvider(s, src.providerId); }
    }
    assert TargetResolves(s, s.defaultTarget);
    forall r | r in s.routes ensures r.target != ToPool(NewPool(input)) { assert TargetResolves(s, r.target); }
  }

  lemma NewPoolIsFree(s: AppState, input: ImportInput)
    requires Valid(s) && Fresh(s, input)
    ensures var t := Grown(s, input);
      && OwnedPoolIds(t, {NewProvider(input)}) == {NewPool(input)}
      && !DeleteConflicts(t, {NewProvider(input)}, {NewPool(input)})
  {
    OldPoolsAreForeign(s, input);
    hide Valid;
    var t, pids, pool := Grown(s, input), {NewProvider(input)}, NewPoolRow(input);
    forall p | p in s.pools ensures !Owned(pids, p) { assert p.sources[0] in p.sources; }
    assert pool.sources[0] in pool.sources && Owned(pids, pool) && pool in t.pools;
  }

  /** Deleting a subscription right after importing it gives back the state before the import. */
  lemma ImportThenDeleteRestores(s: AppState, input: ImportInput, stopped: bool)
    requires Valid(s) && ImportDelta(s, input).Ok?
    ensures DeleteDelta(ImportDelta(s, input).value, NewId(input), stopped) == Ok(s)
  {
    ImportAppends(s, input);
    NewOwner(s, input);
    NewPoolIsFree(s, input);
    NoNodeWithoutProvider(s, NewProvider(input));
    assert s.activeId != Some(NewId(input));
    Restored(s, input);
    hide Valid, ImportDelta, DeleteConflicts, OwnedPoolIds, ProviderIdsOf;
    assert NewRow(input) in Grown(s, input).subscriptions;
    assert DeleteCandidate(Grown(s, input), NewId(input), stopped) == Ok(s);
  }

  /** The four retain passes take the appended rows out again. */
  lemma Restored(s: AppState, input: ImportInput)
    requires Fresh(s, input) && forall n :: n in s.nodes ==> n.providerId != NewProvider(input)
    ensures var t, pids, owned, id := Grown(s, input), {NewProvider(input)}, {NewPool(input)}, NewId(input);
      && Filter(t.nodes, (n: Node) => n.providerId !in pids) == s.nodes
      && Filter(t.pools, (p: Pool) => p.id !in owned) == s.pools
      && Filter(t.providers, (p: Provider) => p.id !in pids) == s.providers
      && Filter(t.subscriptions, (row: Subscription) => row.id != id) == s.subscriptions
  {
    var pids, owned, id := {NewProvider(input)}, {NewPool(input)}, NewId(input);
    FilterBack(s.nodes, NewNodes(input), (n: Node) => n.providerId !in pids);
    FilterBack(s.pools, [NewPoolRow(input)], (p: Pool) => p.id !in owned);
    FilterBack(s.providers, [Provider(NewProvider(input), NewId(input), input.name)], (p: Provider) => p.id !in pids);
    FilterBack(s.subscriptions, [NewRow(input)], (row: Subscription) => row.id != id);
  }

  // ---- updates, one after the other ---------------------------------------------------------------------

  /** What a download brought, and when. */
  datatype Answer = Answer(fetched: Fetched, now: nat)

  /** The row after an update whose snapshot was taken from this very row. */
  function AfterUpdate(row: Subscription, answer: Answer): Subscription {
    var seen := UpdateSnapshot(
      row.id, row.source, row.httpMetadata, row.remoteRequest, row.updatePolicy, row.document, "", []);
    UpdatedRow(row, seen, answer.fetched, answer.now)
  }

  function AfterUpdates(row: Subscription, answers: seq<Answer>): Subscription {
    if answers == [] then row
    else AfterUpdate(AfterUpdates(row, answers[..|answers| - 1]), answers[|answers| - 1])
  }

  function RowOf(s: AppState, id: Id): Option<Subscription> {
    var at := Routing.Position(s.subscriptions, SubscriptionId, id);
    if at.Some? then Some(s.subscriptions[at.value]) else None
  }

  /** Either an update of this subscription was saved, or something that left its row alone. */
  ghost predicate UpdateStep(s: AppState, t: AppState, id: Id, step: Option<Answer>) {
    if step.None? then RowOf(t, id) == RowOf(s, id)
    else exists snapshot: UpdateSnapshot :: snapshot.subscriptionId == id && UpdateDelta(s, snapshot, step.value.fetched, step.value.now) == Ok(t)
  }

  function Answered(steps: seq<Option<Answer>>): seq<Answer> {
    if steps == [] then []
    else
      var last := steps[|steps| - 1];
      Answered(steps[..|steps| - 1]) + (if last.Some? then [last.value] else [])
  }

  lemma UpdateChangesTheRow(s: AppState, snapshot: UpdateSnapshot, answer: Answer)
    requires UpdateDelta(s, snapshot, answer.fetched, answer.now).Ok?
    ensures var t := UpdateDelta(s, snapshot, answer.fetched, answer.now).value; var id := snapshot.subscriptionId;
      RowOf(s, id).Some? && RowOf(t, id) == Some(AfterUpdate(RowOf(s, id).value, answer))
  {
    hide Valid, NormalizeNodes, NodesOf, NodesNotOf, MergeMetadata, ProvidersOf;
    var t := UpdateDelta(s, snapshot, answer.fetched, answer.now).value;
    UpdateTouchesOnlyItsOwn(s, snapshot, answer.fetched, answer.now);
    SamePosition(s.subscriptions, t.subscriptions, snapshot.subscriptionId);
  }

  /** Between any updates of a subscription others may save what they like elsewhere: its row is
      made of the answers of its own updates alone. */
  lemma {:induction false} RowFollowsItsAnswers(states: seq<AppState>, steps: seq<Option<Answer>>, id: Id)
    requires |states| == |steps| + 1 && RowOf(states[0], id).Some?
    requires forall k :: 0 <= k < |steps| ==> UpdateStep(states[k], states[k + 1], id, steps[k])
    ensures RowOf(states[|steps|], id) == Some(AfterUpdates(RowOf(states[0], id).value, Answered(steps)))
  {
    hide RowOf, AfterUpdate, UpdateDelta;
    if steps != [] {
      var k := |steps| - 1;
      RowFollowsItsAnswers(states[..k + 1], steps[..k], id);
      assert UpdateStep(states[k], states[k + 1], id, steps[k]);
      if steps[k].Some? {
        var snapshot: UpdateSnapshot :| snapshot.subscriptionId == id
          && UpdateDelta(states[k], snapshot, steps[k].value.fetched, steps[k].value.now) == Ok(states[k + 1]);
        UpdateChangesTheRow(states[k], snapshot, steps[k].value);
        var earlier := Answered(steps[..k]);
        assert Answered(steps) == earlier + [steps[k].value];
        assert (earlier + [steps[k].value])[..|earlier|] == earlier;
      } else {
        assert Answered(steps) == Answered(steps[..k]);
      }
    }
  }

  function EtagOf(row: Subscription): Option<string> {
    if row.httpMetadata.Some? then row.httpMetadata.value.etag else None
  }

  function LastModifiedOf(row: Subscription): Option<string> {
    if row.httpMetadata.Some? then row.httpMetadata.value.lastModified else None
  }

  /** Since point i (0 is the row itself, i + 1 follows answer i) every answer has been "not
      modified". */
  ghost predicate UnmodifiedSince(answers: seq<Answer>, i: nat) {
    i <= |answers| && forall k :: i <= k < |answers| ==> answers[k].fetched.NotModified?
  }

  /** From point i on nothing took the place of a validator: no new text, no answer from another
      address, and no answer with such a validator of its own. */
  ghost predicate Survives(answers: seq<Answer>, i: nat, validator: Metadata -> Option<string>) {
    && UnmodifiedSince(answers, i)
    && forall k :: i <= k < |answers| ==>
         answers[k].fetched.validatorsMatchSource && validator(answers[k].fetched.metadata).None?
  }

  /** The validator stored in the row is v. It came with the row or with an answer, and everything
      since then has confirmed it. */
  ghost predicate Originates(row: Option<string>, answers: seq<Answer>, validator: Metadata -> Option<string>, v: string) {
    exists i :: 0 <= i <= |answers| && Survives(answers, i, validator)
                && (if i == 0 then row else validator(answers[i - 1].fetched.metadata)) == Some(v)
  }

  lemma {:induction false} OriginatesMore(
      row: Option<string>, answers: seq<Answer>, last: Answer, validator: Metadata -> Option<string>, v: string)
    ensures Originates(row, answers + [last], validator, v) <==>
      || validator(last.fetched.metadata) == Some(v)
      || (last.fetched.NotModified? && last.fetched.validatorsMatchSource && validator(last.fetched.metadata).None?
          && Originates(row, answers, validator, v))
  {
    var more := answers + [last];
    var n := |answers|;
    if Originates(row, more, validator, v) {
      var i :| 0 <= i <= |more| && Survives(more, i, validator)
               && (if i == 0 then row else validator(more[i - 1].fetched.metadata)) == Some(v);
      if i <= n {
        assert more[n] == last;
        forall k | i <= k < n ensures more[k] == answers[k] {}
        assert Survives(answers, i, validator);
      }
    }
    if validator(last.fetched.metadata) == Some(v) { assert Survives(more, n + 1, validator); }
    if last.fetched.NotModified? && last.fetched.validatorsMatchSource && validator(last.fetched.metadata).None?
       && Originates(row, answers, validator, v) {
      var i :| 0 <= i <= n && Survives(answers, i, validator)
               && (if i == 0 then row else validator(answers[i - 1].fetched.metadata)) == Some(v);
      assert Survives(more, i, validator);
    }
  }

  /** A validator is sent back only for the text it was issued for: the stored one is exactly the
      last one that came with the row or an answer and that every later answer confirmed. */
  lemma {:induction false} StoredValidatorsAreConfirmed(row: Subscription, answers: seq<Answer>, v: string)
    requires row.source.Remote?
    ensures AfterUpdates(row, answers).source == row.source
    ensures EtagOf(AfterUpdates(row, answers)) == Some(v) <==>
      Originates(EtagOf(row), answers, (m: Metadata) => m.etag, v)
    ensures LastModifiedOf(AfterUpdates(row, answers)) == Some(v) <==>
      Originates(LastModifiedOf(row), answers, (m: Metadata) => m.lastModified, v)
  {
    if answers == [] {
      assert Survives(answers, 0, (m: Metadata) => m.etag) && Survives(answers, 0, (m: Metadata) => m.lastModified);
    } else {
      var n := |answers| - 1;
      StoredValidatorsAreConfirmed(row, answers[..n], v);
      hide Originates;
      assert answers == answers[..n] + [answers[n]];
      OriginatesMore(EtagOf(row), answers[..n], answers[n], (m: Metadata) => m.etag, v);
      OriginatesMore(LastModifiedOf(row), answers[..n], answers[n], (m: Metadata) => m.lastModified, v);
    }
  }

  function UserinfoOf(row: Subscription): Option<string> {
    if row.httpMetadata.Some? then row.httpMetadata.value.userinfo else None
  }

  function DispositionOf(row: Subscription): Option<string> {
    if row.httpMetadata.Some? then row.httpMetadata.value.disposition else None
  }

  /** The text v came with the row or with an answer, and every answer since was "not modified" and
      had none of its own. */
  ghost predicate LastSaid(row: Option<string>, answers: seq<Answer>, info: Metadata -> Option<string>, v: string) {
    exists i :: 0 <= i <= |answers| && Silent(answers, i, info)
                && (if i == 0 then row else info(answers[i - 1].fetched.metadata)) == Some(v)
  }

  ghost predicate Silent(answers: seq<Answer>, i: nat, info: Metadata -> Option<string>) {
    UnmodifiedSince(answers, i) && forall k :: i <= k < |answers| ==> info(answers[k].fetched.metadata).None?
  }

  lemma {:induction false} LastSaidMore(
      row: Option<string>, answers: seq<Answer>, last: Answer, info: Metadata -> Option<string>, v: string)
    ensures LastSaid(row, answers + [last], info, v) <==>
      || info(last.fetched.metadata) == Some(v)
      || (last.fetched.NotModified? && info(last.fetched.metadata).None? && LastSaid(row, answers, info, v))
  {
    var more := answers + [last];
    var n := |answers|;
    if LastSaid(row, more, info, v) {
      var i :| 0 <= i <= |more| && Silent(more, i, info) && (if i == 0 then row else info(more[i - 1].fetched.metadata)) == Some(v);
      if i <= n {
        assert more[n] == last;
        forall k | i <= k < n ensures more[k] == answers[k] {}
        assert Silent(answers, i, info);
      }
    }
    if info(last.fetched.metadata) == Some(v) { assert Silent(more, n + 1, info); }
    if last.fetched.NotModified? && info(last.fetched.metadata).None? && LastSaid(row, answers, info, v) {
      var i :| 0 <= i <= n && Silent(answers, i, info) && (if i == 0 then row else info(answers[i - 1].fetched.metadata)) == Some(v);
      assert Silent(more, i, info);
    }
  }

  /** Usage and file name shown for a remote subscription are the last ones an answer named since the
      last new text. */
  lemma {:induction false} LastInfoStays(row: Subscription, answers: seq<Answer>, v: string)
    requires row.source.Remote?
    ensures AfterUpdates(row, answers).source == row.source
    ensures UserinfoOf(AfterUpdates(row, answers)) == Some(v) <==> LastSaid(UserinfoOf(row), answers, (m: Metadata) => m.userinfo, v)
    ensures DispositionOf(AfterUpdates(row, answers)) == Some(v) <==>
      LastSaid(DispositionOf(row), answers, (m: Metadata) => m.disposition, v)
  {
    if answers == [] {
      assert Silent(answers, 0, (m: Metadata) => m.userinfo) && Silent(answers, 0, (m: Metadata) => m.disposition);
    } else {
      var n := |answers| - 1;
      LastInfoStays(row, answers[..n], v);
      hide LastSaid;
      assert answers == answers[..n] + [answers[n]];
      LastSaidMore(UserinfoOf(row), answers[..n], answers[n], (m: Metadata) => m.userinfo, v);
      LastSaidMore(DispositionOf(row), answers[..n], answers[n], (m: Metadata) => m.disposition, v);
    }
  }

  function FirstNamed(intervals: seq<Option<nat>>): Option<nat> {
    if intervals == [] then None else OrElse(intervals[0], FirstNamed(intervals[1..]))
  }

  lemma {:induction false} FirstNamedMore(intervals: seq<Option<nat>>, last: Option<nat>)
    ensures FirstNamed(intervals + [last]) == OrElse(FirstNamed(intervals), last)
  {
    if intervals != [] {
      FirstNamedMore(intervals[1..], last);
      assert (intervals + [last])[1..] == intervals[1..] + [last];
    }
  }

  /** The interval of the row, then what each answer named. */
  function IntervalsNamed(row: Subscription, answers: seq<Answer>): seq<Option<nat>> {
    [row.updatePolicy.intervalMinutes] + Map(answers, (a: Answer) => a.fetched.profileInterval)
  }

  /** The first interval anybody names stays, and none is adopted without automatic updates. */
  lemma {:induction false} FirstIntervalStays(row: Subscription, answers: seq<Answer>)
    ensures AfterUpdates(row, answers).updatePolicy ==
      if row.updatePolicy.allowAutoUpdate then row.updatePolicy.(intervalMinutes := FirstNamed(IntervalsNamed(row, answers)))
      else row.updatePolicy
  {
    hide MergeMetadata;
    if answers == [] {
      assert IntervalsNamed(row, answers) == [row.updatePolicy.intervalMinutes];
    } else {
      var n := |answers| - 1;
      FirstIntervalStays(row, answers[..n]);
      FirstNamedMore(IntervalsNamed(row, answers[..n]), answers[n].fetched.profileInterval);
      assert IntervalsNamed(row, answers) == IntervalsNamed(row, answers[..n]) + [answers[n].fetched.profileInterval];
    }
  }

  /** Document and skipped count are those of the last answer that brought text. */
  lemma {:induction false} LastTextStays(row: Subscription, answers: seq<Answer>)
    ensures var after := AfterUpdates(row, answers);
      && (UnmodifiedSince(answers, 0) ==> after.document == row.document && after.skipped == row.skipped)
      && (forall i :: 0 <= i < |answers| && answers[i].fetched.Modified? && UnmodifiedSince(answers, i + 1) ==>
            after.document == answers[i].fetched.parsed.document && after.skipped == answers[i].fetched.parsed.skipped)
  {
    hide MergeMetadata, Adopted, AfterUpdate;
    if answers != [] {
      var n := |answers| - 1;
      LastTextStays(row, answers[..n]);
      var before, after := AfterUpdates(row, answers[..n]), AfterUpdates(row, answers);
      TextOf(before, answers[n]);
      forall i | 0 <= i < n && answers[i].fetched.Modified? && UnmodifiedSince(answers, i + 1)
        ensures UnmodifiedSince(answers[..n], i + 1)
      {
      }
      if UnmodifiedSince(answers, 0) { assert UnmodifiedSince(answers[..n], 0); }
    }
  }

  lemma TextOf(row: Subscription, answer: Answer)
    ensures var after := AfterUpdate(row, answer);
      if answer.fetched.Modified? then after.document == answer.fetched.parsed.document && after.skipped == answer.fetched.parsed.skipped
      else after.document == row.document && after.skipped == row.skipped
  {
  }

  /** The stamps are the last answer's time, and what no download may change is as it was. */
  lemma {:induction false} DownloadsKeep(row: Subscription, answers: seq<Answer>)
    ensures var after := AfterUpdates(row, answers);
      && (answers != [] ==> after.lastSuccessAtMs == after.lastAttemptAtMs == Some(answers[|answers| - 1].now))
      && after.(updatePolicy := row.updatePolicy, lastSuccessAtMs := row.lastSuccessAtMs, lastAttemptAtMs := row.lastAttemptAtMs,
                httpMetadata := row.httpMetadata, skipped := row.skipped, document := row.document) == row
  {
    hide MergeMetadata, Adopted;
    if answers != [] {
      DownloadsKeep(row, answers[..|answers| - 1]);
    }
  }

  // ---- edit ----------------------------------------------------------------------------------------------

  /** Names of a subscription, its provider and its implicit pool agree; no other provider, pool or
      subscription is touched. */
  ghost predicate RenamedTogether(s: AppState, t: AppState, index: nat, provider: nat) {
    && |t.subscriptions| == |s.subscriptions| && |t.providers| == |s.providers| && |t.pools| == |s.pools|
    && index < |s.subscriptions| && provider < |s.providers|
    && t.providers[provider] == s.providers[provider].(name := t.subscriptions[index].name)
    && (forall k :: 0 <= k < |s.providers| && k != provider ==> t.providers[k] == s.providers[k])
    && (forall k :: 0 <= k < |s.subscriptions| && k != index ==> t.subscriptions[k] == s.subscriptions[k])
    && (forall k :: 0 <= k < |s.pools| ==>
          if IsImplicitPoolOf(s.pools[k], s.providers[provider].id)
          then t.pools[k] == s.pools[k].(name := t.subscriptions[index].name)
          else t.pools[k] == s.pools[k])
    && t.routes == s.routes && t.defaultTarget == s.defaultTarget && t.activeId == s.activeId
  }

  predicate IsImplicitPoolOf(pool: Pool, providerId: Id) {
    pool.kind == ImplicitProvider && |pool.sources| == 1 && pool.sources[0].providerId == providerId
  }

  lemma EditRenamesTogether(s: AppState, index: nat, edited: Subscription, download: Option<Download>)
    requires index < |s.subscriptions| && EditCommit(s, index, edited, download).Ok?
    ensures exists provider :: RenamedTogether(s, EditCommit(s, index, edited, download).value, index, provider)
    ensures download.None? ==>
      var t := EditCommit(s, index, edited, download).value;
      t.nodes == s.nodes && t.generation == s.generation && t.subscriptions == s.subscriptions[index := edited]
  {
    hide Valid, NormalizeNodes, NodesOf, NodesNotOf;
    var t := EditCommit(s, index, edited, download).value;
    var at := Routing.Position(s.providers, (p: Provider) => p.subscriptionId, edited.id).value;
    assert RenamedTogether(s, t, index, at);
  }

  // ---- documents ----------------------------------------------------------------------------------------

  /** After a save that changed the document, a save prepared from the revision before it is refused;
      one prepared from the new revision is not refused for its revision. */
  lemma StaleRevisionIsRefused(s: AppState, input: DocumentInput, other: DocumentInput)
    requires DocumentDelta(s, input).Ok? && other.id == input.id
    requires Revision(input.format, input.content) != input.expected
    ensures other.expected == input.expected ==>
      PrepareDocument(DocumentDelta(s, input).value, other) == Err(DocumentConflict)
    ensures other.expected == Revision(input.format, input.content) ==>
      PrepareDocument(DocumentDelta(s, input).value, other) != Err(DocumentConflict)
      && PrepareDocument(DocumentDelta(s, input).value, other) != Err(NotFound)
  {
    hide Valid, ReplaceNodes;
    var next := DocumentDelta(s, input).value;
    var at := Routing.Position(s.subscriptions, SubscriptionId, input.id).value;
    SavedRow(s, input);
    SamePosition(s.subscriptions, next.subscriptions, input.id);
    ReplacementErrors();
  }

  lemma ReplacementErrors()
    ensures forall s, providerId, drafts :: ReplaceNodes(s, providerId, drafts).Err? ==>
      ReplaceNodes(s, providerId, drafts).error in {OpError.ParseFailed, OpError.NormalizationFailed, OpError.ValidationFailed}
  {
    hide Valid;
  }

  /** The saved row holds the new document, at the place of the old row. */
  lemma SavedRow(s: AppState, input: DocumentInput)
    requires DocumentDelta(s, input).Ok?
    ensures var next := DocumentDelta(s, input).value;
      && |next.subscriptions| == |s.subscriptions|
      && (forall i :: 0 <= i < |s.subscriptions| ==> next.subscriptions[i].id == s.subscriptions[i].id)
      && var at := Routing.Position(s.subscriptions, SubscriptionId, input.id);
      && at.Some? && next.subscriptions[at.value].document.Some?
      && RevisionOf(next.subscriptions[at.value].document.value) == Revision(input.format, input.content)
  {
    hide Valid, ProvidersOf, NormalizeNodes;
  }

  lemma {:induction false} SamePosition(a: seq<Subscription>, b: seq<Subscription>, id: Id)
    requires |a| == |b| && forall i :: 0 <= i < |a| ==> a[i].id == b[i].id
    ensures Routing.Position(a, SubscriptionId, id) == Routing.Position(b, SubscriptionId, id)
  {
    if a != [] {
      SamePosition(a[1..], b[1..], id);
    }
  }

  /** A document save changes its own row, its provider's nodes, and the generation by one exactly
      when it asks for the new configuration to be applied. */
  lemma DocumentTouchesOnlyItsOwn(s: AppState, input: DocumentInput)
    requires PrepareDocument(s, input).Ok?
    ensures var p := PrepareDocument(s, input).value;
      && p.before == s
      && p.next == s.(subscriptions := p.next.subscriptions, nodes := p.next.nodes, generation := p.next.generation)
      && (forall i :: 0 <= i < |s.subscriptions| && s.subscriptions[i].id != input.id ==> p.next.subscriptions[i] == s.subscriptions[i])
      && (forall pid :: !(exists q :: q in s.providers && q.subscriptionId == input.id && q.id == pid) ==>
            NodesOf(p.next, pid) == NodesOf(s, pid))
      && p.next.generation == s.generation + (if p.requiresApply then 1 else 0)
      && (p.requiresApply ==> s.activeId == Some(input.id))
  {
    hide Valid, NormalizeNodes;
    var p := PrepareDocument(s, input).value;
    var at := Routing.Position(s.subscriptions, SubscriptionId, input.id).value;
    var providers := ProvidersOf(s, input.id);
    SavedRow(s, input);
    var row := p.next.subscriptions[at];
    assert p.next.subscriptions == s.subscriptions[at := row];
    var edited := WithRow(s, at, row);
    ReplacementTouchesOneProvider(edited, providers[0].id, input.drafts);
    SameNodes(edited, s);
    SameNodes(ReplaceNodes(edited, providers[0].id, input.drafts).value.state, p.next);
    assert providers[0] in s.providers;
  }

  /** A document save that changes anything changes subscriptions or nodes; it never only moves the
      generation. */
  lemma ChangingSaveChangesRows(s: AppState, input: DocumentInput)
    requires PrepareDocument(s, input).Ok?
    ensures var p := PrepareDocument(s, input).value; p.StateChanged() <==> !SameRows(p.before, p.next)
  {
    DocumentTouchesOnlyItsOwn(s, input);
    var p := PrepareDocument(s, input).value;
    if SameRows(s, p.next) { UnchangedRowsNeedNoApply(s, input); }
  }

  /** In terms of what a caller sends and what is stored: a document save changes the state exactly
      when the text or its format differs, a skipped count is reset, or the parsed nodes are not the
      stored ones in their places. */
  lemma SaveChangesExactly(s: AppState, input: DocumentInput)
    requires PrepareDocument(s, input).Ok?
    ensures var at, pid := Routing.Position(s.subscriptions, SubscriptionId, input.id), ProvidersOf(s, input.id)[0].id;
      PrepareDocument(s, input).value.StateChanged() <==>
        || Revision(input.format, input.content) != RevisionOf(s.subscriptions[at.value].document.value)
        || s.subscriptions[at.value].skipped != 0
        || NodesNotOf(s, pid) + NormalizeNodes(pid, input.drafts).value != s.nodes
  {
    var p := PrepareDocument(s, input).value;
    var at := Routing.Position(s.subscriptions, SubscriptionId, input.id).value;
    ChangingSaveChangesRows(s, input);
    SavedSubscriptions(s, input);
    SavedNodes(s, input);
    hide PrepareDocument, NormalizeNodes, NodesNotOf;
  }

  /** The rows after a document save; the row itself stays if its text does, but for its skipped count. */
  lemma SavedSubscriptions(s: AppState, input: DocumentInput)
    requires PrepareDocument(s, input).Ok?
    ensures PrepareDocument(s, input).value.before == s
    ensures var at := Routing.Position(s.subscriptions, SubscriptionId, input.id);
      && at.Some? && s.subscriptions[at.value].document.Some?
      && var row, rows := s.subscriptions[at.value], PrepareDocument(s, input).value.next.subscriptions;
      && |rows| == |s.subscriptions| && rows == s.subscriptions[at.value := rows[at.value]]
      && rows[at.value].skipped == 0 && rows[at.value].document.Some?
      && RevisionOf(rows[at.value].document.value) == Revision(input.format, input.content)
      && (Revision(input.format, input.content) == RevisionOf(row.document.value) ==> rows[at.value] == row.(skipped := 0))
  {
    hide Valid, NormalizeNodes, NodesOf, NodesNotOf, ProvidersOf;
  }

  /** The nodes after a document save. */
  lemma SavedNodes(s: AppState, input: DocumentInput)
    requires PrepareDocument(s, input).Ok?
    ensures var pid := ProvidersOf(s, input.id)[0].id;
      && NormalizeNodes(pid, input.drafts).Ok?
      && PrepareDocument(s, input).value.next.nodes == NodesNotOf(s, pid) + NormalizeNodes(pid, input.drafts).value
  {
    hide Valid, NormalizeNodes;
    var at := Routing.Position(s.subscriptions, SubscriptionId, input.id).value;
    var pid := ProvidersOf(s, input.id)[0].id;
    forall row ensures NodesNotOf(WithRow(s, at, row), pid) == NodesNotOf(s, pid) {
      SameNodesNotOf(WithRow(s, at, row), s, pid);
    }
  }

  lemma UnchangedRowsNeedNoApply(s: AppState, input: DocumentInput)
    requires PrepareDocument(s, input).Ok? && SameRows(s, PrepareDocument(s, input).value.next)
    ensures !PrepareDocument(s, input).value.requiresApply
  {
    hide Valid, NormalizeNodes, NodesOf, NodesNotOf, Bumped;
    var p := PrepareDocument(s, input).value;
    var at := Routing.Position(s.subscriptions, SubscriptionId, input.id).value;
    var pid := ProvidersOf(s, input.id)[0].id;
    SavedRow(s, input);
    assert RevisionOf(s.subscriptions[at].document.value) == Revision(input.format, input.content);
    NodesStay(s, input, at, pid);
  }

  /** If the save left the nodes alone, the replacement found nothing new. */
  lemma NodesStay(s: AppState, input: DocumentInput, at: nat, pid: Id)
    requires PrepareDocument(s, input).Ok? && s.nodes == PrepareDocument(s, input).value.next.nodes
    requires Routing.Position(s.subscriptions, SubscriptionId, input.id) == Some(at) && ProvidersOf(s, input.id)[0].id == pid
    ensures forall row :: ReplaceNodes(WithRow(s, at, row), pid, input.drafts).Ok? ==>
      !ReplaceNodes(WithRow(s, at, row), pid, input.drafts).value.changed
  {
    hide Valid;
    forall row | ReplaceNodes(WithRow(s, at, row), pid, input.drafts).Ok?
      ensures !ReplaceNodes(WithRow(s, at, row), pid, input.drafts).value.changed
    {
      var t := WithRow(s, at, row);
      ReplacementTouchesOneProvider(t, pid, input.drafts);
      SameNodes(ReplaceNodes(t, pid, input.drafts).value.state, PrepareDocument(s, input).value.next);
      SameNodes(t, s);
    }
  }

  // ---- activation --------------------------------------------------------------------------------------------

  /** Activating what is already active changes nothing, so activation is idempotent; a change of
      the active subscription uses exactly one generation. */
  lemma ActivationLaws(s: AppState, id: Id)
    requires ActivateDelta(s, id).Ok?
    ensures ActivateDelta(ActivateDelta(s, id).value, id) == ActivateDelta(s, id)
    ensures ActivateDelta(s, id).value == s <==> s.activeId == Some(id)
    ensures ActivateDelta(s, id).value.generation == s.generation + (if s.activeId == Some(id) then 0 else 1)
  {
    hide Valid;
  }
}
