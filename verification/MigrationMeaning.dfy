/** What a migrated document holds, key by key, in terms of the document it was made from
    (src-tauri/src/storage/migration.rs). */
module MigrationMeaning {
  import opened Common
  import opened Migration
  import Domain

  // ---- subscriptions ----------------------------------------------------------------------------------

  /** The row comes out with a remote source: sources older than version 4 are gone. */
  predicate StaysRemote(version: nat, row: Json) { version == 4 && SourceKind(row) == Some("remote") }

  /** What a row of a document of this version holds under a key when it is migrated. */
  function SubscriptionField(version: nat, row: Json, key: string): Option<Json> {
    if version <= 5 && key == "document" then Some(Null)
    else if version <= 4 && key == "description" then Some(Str(""))
    else if version <= 4 && key == "last_attempt_at_ms" then Some(Null)
    else if version <= 4 && key == "remote_request" then
      if StaysRemote(version, row)
      then Some(Obj(map["user_agent" := Null, "timeout_seconds" := Number(30), "proxy_mode" := Str("direct"), "verify_tls" := Bool(true)]))
      else Some(Null)
    else if version <= 4 && key == "update_policy" then
      Some(Obj(map["allow_auto_update" := Bool(StaysRemote(version, row)), "interval_minutes" := Null]))
    else if version <= 3 && key == "source" then Some(Obj(map["kind" := Str("manual")]))
    else if version <= 3 && (key == "last_success_at_ms" || key == "http_metadata") then Some(Null)
    else Get(row, key)
  }

  ghost predicate SubscriptionsBecome(version: nat, before: seq<Json>, after: seq<Json>) {
    |before| == |after| && forall i, key :: 0 <= i < |before| ==> Get(after[i], key) == SubscriptionField(version, before[i], key)
  }

  // ---- nodes ----------------------------------------------------------------------------------------------

  /** The options made of a node's credentials. */
  function NewOptions(protocol: string, c: Json): Json {
    if protocol == "shadowsocks" then
      Obj(map["kind" := Str("shadowsocks"), "method" := TextOf(c, "cipher"), "password" := TextOf(c, "password")])
    else if protocol == "vmess" then
      Obj(map["kind" := Str("vmess"), "uuid" := TextOf(c, "uuid"), "alter_id" := Null, "security" := Null])
    else if protocol == "vless" then Obj(map["kind" := Str("vless"), "uuid" := TextOf(c, "uuid"), "flow" := TextOf(c, "flow")])
    else if protocol == "trojan" then Obj(map["kind" := Str("trojan"), "password" := TextOf(c, "password")])
    else if protocol == "hysteria2" then
      Obj(map["kind" := Str("hysteria2"), "password" := TextOf(c, "password"), "obfs" := Null])
    else if protocol == "any_tls" then Obj(map["kind" := Str("any_tls"), "password" := TextOf(c, "password")])
    else if protocol == "socks5" then
      Obj(map["kind" := Str("socks"), "version" := Number(5), "username" := TextOf(c, "username"), "password" := TextOf(c, "password")])
    else
      Obj(map["kind" := Str("http"), "username" := TextOf(c, "username"), "password" := TextOf(c, "password"),
              "tls" := Bool(protocol == "https")])
  }

  function NewProtocol(protocol: string): string {
    if protocol == "socks5" then "socks" else if protocol == "https" then "http" else protocol
  }

  function NodeField(node: Json, key: string): Option<Json> {
    var protocol, credentials := TextOf(node, "protocol"), Get(node, "credentials");
    if key == "credentials" then None
    else if key == "protocol" && protocol.Str? then Some(Str(NewProtocol(protocol.s)))
    else if key == "options" && protocol.Str? && credentials.Some? then Some(NewOptions(protocol.s, credentials.value))
    else Get(node, key)
  }

  ghost predicate NodesBecome(version: nat, before: seq<Json>, after: seq<Json>) {
    if version > 2 then after == before
    else |before| == |after| && forall i, key :: 0 <= i < |before| ==> Get(after[i], key) == NodeField(before[i], key)
  }

  // ---- the document -----------------------------------------------------------------------------------------

  function DocumentField(version: nat, d: Json, key: string): Option<Json> {
    if key == "schema_version" then Some(Number(6))
    else if version <= 1 && (key == "pools" || key == "routes") then Some(Arr([]))
    else if version <= 2 && key == "default_target" then Some(Obj(map["kind" := Str("unconfigured")]))
    else if version <= 4 && key == "active_subscription_id" then Some(Null)
    else if version <= 4 && key == "active_configuration_generation" then Some(Number(0))
    else Get(d, key)
  }

  ghost predicate Becomes(version: nat, d: Json, out: Json) {
    && (forall key :: key != "subscriptions" && key != "nodes" ==> Get(out, key) == DocumentField(version, d, key))
    && SubscriptionsBecome(version, Items(d, "subscriptions"), Items(out, "subscriptions"))
    && NodesBecome(version, Items(d, "nodes"), Items(out, "nodes"))
  }

  // ---- one step at a time -------------------------------------------------------------------------------------

  ghost predicate SameDocument(version: nat, d: Json, next: Json) {
    forall key :: key != "subscriptions" && key != "nodes" ==> DocumentField(version + 1, next, key) == DocumentField(version, d, key)
  }

  lemma EarlySteps(d: Json)
    ensures StepV1(d).Some? ==> SameDocument(1, d, StepV1(d).value)
    ensures StepV2(d).Some? ==> SameDocument(2, d, StepV2(d).value)
  {
    hide NodeV3, EditedRows;
  }

  lemma LaterSteps(d: Json)
    ensures StepV3(d).Some? ==> SameDocument(3, d, StepV3(d).value)
    ensures StepV5(d).Some? ==> SameDocument(5, d, StepV5(d).value)
  {
    hide SubscriptionV4, SubscriptionV6, EditedRows;
  }

  lemma FourthStep(d: Json)
    ensures StepV4(d).Some? ==> SameDocument(4, d, StepV4(d).value)
  {
    hide SubscriptionV5, EditedRows;
  }

  lemma StepDocument(version: nat, d: Json)
    requires 1 <= version < CURRENT && Step(version, d).Some?
    ensures SameDocument(version, d, Step(version, d).value)
  {
    hide StepV1, StepV2, StepV3, StepV4, StepV5, SameDocument;
    EarlySteps(d);
    LaterSteps(d);
    FourthStep(d);
  }

  lemma FourthRow(row: Json, key: string)
    requires SubscriptionV4(row).Some?
    ensures SubscriptionField(4, SubscriptionV4(row).value, key) == SubscriptionField(3, row, key)
  {
    var after := SubscriptionV4(row).value;
    assert Get(after, "source") == Some(Obj(map["kind" := Str("manual")]));
    assert SourceKind(after) == Some("manual");
  }

  lemma FifthRow(row: Json, key: string)
    requires SubscriptionV5(row).Some?
    ensures SubscriptionField(5, SubscriptionV5(row).value, key) == SubscriptionField(4, row, key)
  {
  }

  lemma SixthRow(row: Json, key: string)
    requires SubscriptionV6(row).Some?
    ensures SubscriptionField(6, SubscriptionV6(row).value, key) == SubscriptionField(5, row, key)
  {
  }

  lemma EarlyRow(version: nat, row: Json, key: string)
    requires version <= 2
    ensures SubscriptionField(version + 1, row, key) == SubscriptionField(version, row, key)
  {
  }

  ghost predicate SameFields(version: nat, before: seq<Json>, after: seq<Json>) {
    && |before| == |after|
    && forall i, key :: 0 <= i < |before| ==>
         SubscriptionField(version + 1, after[i], key) == SubscriptionField(version, before[i], key)
  }

  lemma {:induction false} EditedFields(version: nat, rows: seq<Json>, after: seq<Json>, edit: Json -> Option<Json>)
    requires EditedRows(rows, edit) == Some(after)
    requires forall row, key :: edit(row).Some? ==> SubscriptionField(version + 1, edit(row).value, key) == SubscriptionField(version, row, key)
    ensures SameFields(version, rows, after)
  {
    hide SubscriptionField;
    forall i, key | 0 <= i < |rows| ensures SubscriptionField(version + 1, after[i], key) == SubscriptionField(version, rows[i], key) {
      assert edit(rows[i]) == Some(after[i]);
    }
  }

  lemma StepSubscriptions(version: nat, d: Json)
    requires 1 <= version < CURRENT && Step(version, d).Some?
    ensures SameFields(version, Items(d, "subscriptions"), Items(Step(version, d).value, "subscriptions"))
  {
    hide NodeV3, SubscriptionV4, SubscriptionV5, SubscriptionV6, SubscriptionField, SameFields, EditedRows;
    var rows := Items(d, "subscriptions");
    match version {
      case 3 =>
        forall row, key | SubscriptionV4(row).Some?
          ensures SubscriptionField(4, SubscriptionV4(row).value, key) == SubscriptionField(3, row, key) { FourthRow(row, key); }
        EditedFields(3, rows, Items(StepV3(d).value, "subscriptions"), SubscriptionV4);
      case 4 =>
        forall row, key | SubscriptionV5(row).Some?
          ensures SubscriptionField(5, SubscriptionV5(row).value, key) == SubscriptionField(4, row, key) { FifthRow(row, key); }
        EditedFields(4, rows, Items(StepV4(d).value, "subscriptions"), SubscriptionV5);
      case 5 =>
        forall row, key | SubscriptionV6(row).Some?
          ensures SubscriptionField(6, SubscriptionV6(row).value, key) == SubscriptionField(5, row, key) { SixthRow(row, key); }
        EditedFields(5, rows, Items(StepV5(d).value, "subscriptions"), SubscriptionV6);
      case _ =>
        EarlyFields(version, rows);
        assert Items(Step(version, d).value, "subscriptions") == rows;
    }
  }

  lemma EarlyFields(version: nat, rows: seq<Json>)
    requires version <= 2
    ensures SameFields(version, rows, rows)
  {
    hide SubscriptionField;
    forall i, key | 0 <= i < |rows| ensures SubscriptionField(version + 1, rows[i], key) == SubscriptionField(version, rows[i], key) {
      EarlyRow(version, rows[i], key);
    }
  }

  lemma OptionsAreNew(protocol: string, c: Json)
    requires OptionsV3(protocol, c).Some?
    ensures OptionsV3(protocol, c).value == NewOptions(protocol, c) && ProtocolV3(protocol) == Some(NewProtocol(protocol))
  {
    hide OptionalString, TextOf;
    TextIsOptional(c, "username");
    TextIsOptional(c, "password");
    TextIsOptional(c, "cipher");
    TextIsOptional(c, "uuid");
    TextIsOptional(c, "flow");
  }

  lemma NodeBecomes(node: Json, key: string)
    requires NodeV3(node).Some?
    ensures Get(NodeV3(node).value, key) == NodeField(node, key)
  {
    hide OptionsV3, ProtocolV3, NewOptions, NewProtocol, Domain.Blank;
    OptionsAreNew(RequiredString(node, "protocol").value, Get(node, "credentials").value);
  }

  lemma StepNodes(version: nat, d: Json)
    requires 1 <= version < CURRENT && Step(version, d).Some?
    ensures var before, after := Items(d, "nodes"), Items(Step(version, d).value, "nodes");
      if version == 2 then NodesBecome(2, before, after) else after == before
  {
    hide NodeV3, SubscriptionV4, SubscriptionV5, SubscriptionV6, NodeField;
    if version == 2 {
      var before, after := Items(d, "nodes"), Items(Step(version, d).value, "nodes");
      assert EditedRows(before, NodeV3) == Some(after);
      forall i, key | 0 <= i < |before| ensures Get(after[i], key) == NodeField(before[i], key) {
        assert NodeV3(before[i]) == Some(after[i]);
        NodeBecomes(before[i], key);
      }
    }
  }

  /** Every field of a migrated document, of its subscriptions and of its nodes is what the version
      it came from makes of it; all other fields are untouched. */
  lemma {:induction false} MigrationMeans(d: Json)
    requires Migrate(d).Ok?
    ensures Becomes(VersionOf(d).value, d, Migrate(d).value.document)
    decreases var v := VersionOf(d); if v.Some? && v.value < CURRENT then CURRENT - v.value else 0
  {
    hide Step, DocumentField, SubscriptionField, NodeField;
    var version := VersionOf(d).value;
    if version < CURRENT {
      var next := Step(version, d).value;
      StepAdvances(version, d);
      StepDocument(version, d);
      StepSubscriptions(version, d);
      StepNodes(version, d);
      MigrationMeans(next);
    } else {
      CurrentFields(d);
    }
  }

  lemma CurrentFields(d: Json)
    requires VersionOf(d) == Some(CURRENT)
    ensures Becomes(CURRENT, d, d)
  {
  }
}
