/** The schema migration chain (src-tauri/src/storage/migration.rs). */
module Migration {
  import opened Common
  import Domain

  /** `Number` is a value that as_u64 accepts; any other number is `OtherNumber`. */
  datatype Json =
    | Null
    | Bool(b: bool)
    | Number(n: nat)
    | OtherNumber
    | Str(s: string)
    | Arr(items: seq<Json>)
    | Obj(fields: map<string, Json>)

  datatype StoreError = MissingSchemaVersion | UnsupportedSchemaVersion | MigrationFailed

  datatype Migrated = Migrated(document: Json, changed: bool)

  const CURRENT: nat := 6

  function Get(d: Json, key: string): Option<Json> {
    if d.Obj? && key in d.fields then Some(d.fields[key]) else None
  }

  function Put(d: Json, key: string, value: Json): (r: Json)
    requires d.Obj?
    ensures r.Obj? && forall k :: Get(r, k) == if k == key then Some(value) else Get(d, k)
  {
    Obj(d.fields[key := value])
  }

  function VersionOf(d: Json): Option<nat> {
    var v := Get(d, "schema_version");
    if v.Some? && v.value.Number? then Some(v.value.n) else None
  }

  // ---- editing the rows of a list -------------------------------------------------------------------

  /** Every row edited, or None if one edit is refused. */
  function EditedRows(rows: seq<Json>, edit: Json -> Option<Json>): (r: Option<seq<Json>>)
    ensures r.Some? ==> |r.value| == |rows| && forall i :: 0 <= i < |rows| ==> edit(rows[i]) == Some(r.value[i])
    ensures r.None? <==> exists i :: 0 <= i < |rows| && edit(rows[i]).None?
  {
    if rows == [] then Some([])
    else
      var k := |rows| - 1;
      var front := EditedRows(rows[..k], edit);
      var last := edit(rows[k]);
      if front.None? || last.None? then None else Some(front.value + [last.value])
  }

  /** The loop that edits the rows one after the other and stops at the first refusal. */
  method EditRows(rows: seq<Json>, edit: Json -> Option<Json>) returns (r: Option<seq<Json>>)
    ensures r == EditedRows(rows, edit)
  {
    var done := [];
    var i := 0;
    while i < |rows|
      invariant 0 <= i <= |rows| && EditedRows(rows[..i], edit) == Some(done)
    {
      assert rows[..i + 1][..i] == rows[..i];
      var edited := edit(rows[i]);
      if edited.None? { return None; }
      done := done + [edited.value];
      i := i + 1;
    }
    assert rows[..i] == rows;
    r := Some(done);
  }

  function EditedList(d: Json, key: string, edit: Json -> Option<Json>): (r: Option<Json>)
    ensures r.Some? ==> d.Obj? && r.value.Obj?
  {
    var list := Get(d, key);
    if list.None? || !list.value.Arr? then None
    else
      var rows := EditedRows(list.value.items, edit);
      if rows.None? then None else Some(Put(d, key, Arr(rows.value)))
  }

  method EditList(d: Json, key: string, edit: Json -> Option<Json>) returns (r: Option<Json>)
    ensures r == EditedList(d, key, edit)
  {
    var list := Get(d, key);
    if list.None? || !list.value.Arr? { return None; }
    var rows := EditRows(list.value.items, edit);
    if rows.None? { return None; }
    r := Some(Put(d, key, Arr(rows.value)));
  }

  // ---- the strings of a node -------------------------------------------------------------------------

  /** Absent and null are no string; a blank string is refused. The outer None is the refusal. */
  function OptionalString(from: Json, key: string): Option<Option<string>> {
    match Get(from, key)
    case None => Some(None)
    case Some(value) =>
      if value.Null? then Some(None)
      else if value.Str? && !Domain.Blank(value.s) then Some(Some(value.s))
      else None
  }

  function RequiredString(from: Json, key: string): Option<string> {
    var value := OptionalString(from, key);
    if value.Some? then value.value else None
  }

  function OrNull(value: Option<string>): Json {
    if value.Some? then Str(value.value) else Null
  }

  function ProtocolV3(protocol: string): Option<string> {
    if protocol in {"shadowsocks", "vmess", "vless", "trojan", "hysteria2", "tuic", "http", "any_tls"} then Some(protocol)
    else if protocol == "socks5" then Some("socks")
    else if protocol == "https" then Some("http")
    else None
  }

  function OptionsV3(protocol: string, credentials: Json): Option<Json> {
    var kind := RequiredString(credentials, "kind");
    var username := OptionalString(credentials, "username");
    var password := OptionalString(credentials, "password");
    var cipher := OptionalString(credentials, "cipher");
    var uuid := OptionalString(credentials, "uuid");
    var flow := OptionalString(credentials, "flow");
    if !credentials.Obj? || kind.None? || username.None? || password.None? || cipher.None? || uuid.None? || flow.None? then None
    else OptionsOf(protocol, kind.value, username.value, password.value, cipher.value, uuid.value, flow.value)
  }

  function OptionsOf(protocol: string, kind: string, username: Option<string>, password: Option<string>,
                     cipher: Option<string>, uuid: Option<string>, flow: Option<string>): Option<Json>
  {
    if protocol == "shadowsocks" && kind == "password" then
      if cipher.None? || password.None? then None
      else Some(Obj(map["kind" := Str("shadowsocks"), "method" := Str(cipher.value), "password" := Str(password.value)]))
    else if protocol == "vmess" && kind == "uuid" then
      if uuid.None? then None
      else Some(Obj(map["kind" := Str("vmess"), "uuid" := Str(uuid.value), "alter_id" := Null, "security" := Null]))
    else if protocol == "vless" && kind == "uuid" then
      if uuid.None? then None
      else Some(Obj(map["kind" := Str("vless"), "uuid" := Str(uuid.value), "flow" := OrNull(flow)]))
    else if protocol in {"trojan", "hysteria2", "any_tls"} && kind == "password" then
      if password.None? then None
      else
        var options := map["kind" := Str(protocol), "password" := Str(password.value)];
        Some(Obj(if protocol == "hysteria2" then options["obfs" := Null] else options))
    else if protocol == "socks5" && kind in {"none", "password"} then
      Some(Obj(map["kind" := Str("socks"), "version" := Number(5), "username" := OrNull(username), "password" := OrNull(password)]))
    else if protocol in {"http", "https"} && kind in {"none", "password"} then
      Some(Obj(map["kind" := Str("http"), "username" := OrNull(username), "password" := OrNull(password),
                   "tls" := Bool(protocol == "https")]))
    else None
  }

  /** migrate_v2_node. */
  function NodeV3(node: Json): Option<Json> {
    var protocol := RequiredString(node, "protocol");
    var credentials := Get(node, "credentials");
    if protocol.None? || credentials.None? then None
    else
      var options := OptionsV3(protocol.value, credentials.value);
      var renamed := ProtocolV3(protocol.value);
      if options.None? || renamed.None? then None
      else Some(Put(Put(Obj(node.fields - {"credentials"}), "protocol", Str(renamed.value)), "options", options.value))
  }

  // ---- the rows of a subscription -----------------------------------------------------------------------

  function SubscriptionV4(row: Json): Option<Json> {
    if !row.Obj? then None
    else Some(Put(Put(Put(row, "source", Obj(map["kind" := Str("manual")])), "last_success_at_ms", Null), "http_metadata", Null))
  }

  function SourceKind(row: Json): Option<string> {
    var source := Get(row, "source");
    var kind := if source.Some? then Get(source.value, "kind") else None;
    if kind.Some? && kind.value.Str? then Some(kind.value.s) else None
  }

  function SubscriptionV5(row: Json): Option<Json> {
    var kind := SourceKind(row);
    if kind.None? || kind.value !in {"remote", "manual"} then None
    else
      var remote := kind.value == "remote";
      var request :=
        if remote then Obj(map["user_agent" := Null, "timeout_seconds" := Number(30), "proxy_mode" := Str("direct"), "verify_tls" := Bool(true)])
        else Null;
      var policy := Obj(map["allow_auto_update" := Bool(remote), "interval_minutes" := Null]);
      Some(Put(Put(Put(Put(row, "description", Str("")), "last_attempt_at_ms", Null), "remote_request", request), "update_policy", policy))
  }

  function SubscriptionV6(row: Json): Option<Json> {
    if !row.Obj? then None else Some(Put(row, "document", Null))
  }

  // ---- the five steps --------------------------------------------------------------------------------------

  function StepV1(d: Json): Option<Json> {
    if !d.Obj? then None
    else Some(Put(Put(Put(d, "schema_version", Number(2)), "pools", Arr([])), "routes", Arr([])))
  }

  function StepV2(d: Json): Option<Json> {
    var edited := EditedList(d, "nodes", NodeV3);
    if edited.None? then None
    else Some(Put(Put(edited.value, "schema_version", Number(3)), "default_target", Obj(map["kind" := Str("unconfigured")])))
  }

  function StepV3(d: Json): Option<Json> {
    var edited := EditedList(d, "subscriptions", SubscriptionV4);
    if edited.None? then None else Some(Put(edited.value, "schema_version", Number(4)))
  }

  function StepV4(d: Json): Option<Json> {
    var edited := EditedList(d, "subscriptions", SubscriptionV5);
    if edited.None? then None
    else
      Some(Put(Put(Put(edited.value, "active_subscription_id", Null), "active_configuration_generation", Number(0)),
               "schema_version", Number(5)))
  }

  function StepV5(d: Json): Option<Json> {
    var edited := EditedList(d, "subscriptions", SubscriptionV6);
    if edited.None? then None else Some(Put(edited.value, "schema_version", Number(6)))
  }

  function Step(version: nat, d: Json): Option<Json>
    requires 1 <= version < CURRENT
  {
    match version
    case 1 => StepV1(d)
    case 2 => StepV2(d)
    case 3 => StepV3(d)
    case 4 => StepV4(d)
    case _ => StepV5(d)
  }

  /** Every step stamps the next version, so the program's own counter always agrees with the
      document. */
  lemma StepAdvances(version: nat, d: Json)
    requires 1 <= version < CURRENT && Step(version, d).Some?
    ensures VersionOf(Step(version, d).value) == Some(version + 1)
  {
  }

  /** Migration as single steps: what the document becomes. */
  function Migrate(d: Json): Result<Migrated, StoreError>
    decreases var v := VersionOf(d); if v.Some? && v.value < CURRENT then CURRENT - v.value else 0
  {
    var version := VersionOf(d);
    if version.None? then Err(MissingSchemaVersion)
    else if version.value == CURRENT then Ok(Migrated(d, false))
    else if version.value == 0 || version.value > CURRENT then Err(UnsupportedSchemaVersion)
    else
      var next := Step(version.value, d);
      if next.None? then Err(MigrationFailed)
      else
        StepAdvances(version.value, d);
        var rest := Migrate(next.value);
        if rest.Ok? then Ok(Migrated(rest.value.document, true)) else rest
  }

  /** migrate_to_current: the version is read once and then counted. */
  method MigrateToCurrent(input: Json) returns (r: Result<Migrated, StoreError>)
    ensures r == Migrate(input)
  {
    hide StepV1, StepV2, StepV3, StepV4, StepV5;
    var document := input;
    var read := VersionOf(document);
    if read.None? { return Err(MissingSchemaVersion); }
    var version := read.value;
    var changed := false;
    while version < CURRENT
      invariant VersionOf(document) == Some(version)
      invariant Migrate(input) == WithChanged(Migrate(document), changed)
      decreases CURRENT - version
    {
      if version == 0 { return Err(UnsupportedSchemaVersion); }
      var next := TakeStep(version, document);
      if next.None? { return Err(MigrationFailed); }
      StepAdvances(version, document);
      document := next.value;
      version := version + 1;
      changed := true;
    }
    r := if version == CURRENT then Ok(Migrated(document, changed)) else Err(UnsupportedSchemaVersion);
  }

  function WithChanged(r: Result<Migrated, StoreError>, changed: bool): Result<Migrated, StoreError> {
    if r.Ok? && changed then Ok(r.value.(changed := true)) else r
  }

  /** One step with its row loop. */
  method TakeStep(version: nat, d: Json) returns (r: Option<Json>)
    requires 1 <= version < CURRENT
    ensures r == Step(version, d)
  {
    if version == 1 { return StepV1(d); }
    var edited := EditList(
      d, if version == 2 then "nodes" else "subscriptions",
      if version == 2 then NodeV3 else if version == 3 then SubscriptionV4 else if version == 4 then SubscriptionV5 else SubscriptionV6);
    if edited.None? { return None; }
    var document := edited.value;
    if version == 4 {
      document := Put(Put(document, "active_subscription_id", Null), "active_configuration_generation", Number(0));
    }
    document := Put(document, "schema_version", Number(version + 1));
    if version == 2 {
      document := Put(document, "default_target", Obj(map["kind" := Str("unconfigured")]));
    }
    r := Some(document);
  }

  // ---- results ------------------------------------------------------------------------------------------------

  lemma {:induction false} SuccessIsCurrent(d: Json)
    requires Migrate(d).Ok?
    ensures VersionOf(Migrate(d).value.document) == Some(CURRENT)
    ensures Migrate(d).value.changed <==> VersionOf(d) != Some(CURRENT)
    decreases var v := VersionOf(d); if v.Some? && v.value < CURRENT then CURRENT - v.value else 0
  {
    hide Step;
    var version := VersionOf(d).value;
    if version < CURRENT {
      StepAdvances(version, d);
      SuccessIsCurrent(Step(version, d).value);
    }
  }

  /** Migration is the identity on what it produces. */
  lemma {:induction false} MigratedStaysPut(d: Json)
    requires Migrate(d).Ok?
    ensures var out := Migrate(d).value.document;
      Migrate(out) == Ok(Migrated(out, false))
  {
    SuccessIsCurrent(d);
  }

  /** The document after its first k steps, or None if one of them is refused. */
  function AfterSteps(d: Json, version: nat, k: nat): Option<Json>
    requires 1 <= version && version + k <= CURRENT
  {
    if k == 0 then Some(d)
    else
      var front := AfterSteps(d, version, k - 1);
      if front.None? then None else Step(version + k - 1, front.value)
  }

  /** Migration can be interrupted between any two steps: after k steps the document names the
      version it has reached, and migrating it again ends in the same document, or in the same
      refusal, as migrating the original in one go. All steps together are the whole migration. */
  lemma {:induction false} InterruptedMigrationResumes(d: Json, version: nat, k: nat)
    requires VersionOf(d) == Some(version) && 1 <= version && version + k <= CURRENT
    ensures var stopped := AfterSteps(d, version, k);
      if stopped.None? then Migrate(d) == Err(MigrationFailed)
      else VersionOf(stopped.value) == Some(version + k) && Migrate(d) == WithChanged(Migrate(stopped.value), k > 0)
    ensures version + k == CURRENT && Migrate(d).Ok? ==> AfterSteps(d, version, k) == Some(Migrate(d).value.document)
  {
    hide Step;
    if k > 0 {
      InterruptedMigrationResumes(d, version, k - 1);
      var front := AfterSteps(d, version, k - 1);
      if front.Some? && Step(version + k - 1, front.value).Some? {
        StepAdvances(version + k - 1, front.value);
      }
    }
  }

  // ---- what is kept ----------------------------------------------------------------------------------------------

  function Items(d: Json, key: string): seq<Json> {
    var list := Get(d, key);
    if list.Some? && list.value.Arr? then list.value.items else []
  }

  const ROW_KEYS: set<string> := {
    "source", "last_success_at_ms", "http_metadata", "description", "last_attempt_at_ms", "remote_request",
    "update_policy", "document", "protocol", "credentials", "options"}

  /** The same rows in the same order, each with every field that no step edits. */
  ghost predicate RowsKept(before: seq<Json>, after: seq<Json>) {
    && |before| == |after|
    && forall i :: 0 <= i < |before| ==> RowKept(before[i], after[i])
  }

  ghost predicate RowKept(before: Json, after: Json) {
    before == after || (before.Obj? && after.Obj? && forall k :: k !in ROW_KEYS ==> Get(after, k) == Get(before, k))
  }

  ghost predicate ListsKept(d: Json, out: Json) {
    && RowsKept(Items(d, "subscriptions"), Items(out, "subscriptions"))
    && Get(out, "providers") == Get(d, "providers")
    && RowsKept(Items(d, "nodes"), Items(out, "nodes"))
  }

  lemma SubscriptionRowsKept(row: Json)
    ensures SubscriptionV4(row).Some? ==> RowKept(row, SubscriptionV4(row).value)
    ensures SubscriptionV5(row).Some? ==> RowKept(row, SubscriptionV5(row).value)
    ensures SubscriptionV6(row).Some? ==> RowKept(row, SubscriptionV6(row).value)
  {
    hide Domain.Blank;
  }

  lemma NodeRowKept(node: Json)
    requires NodeV3(node).Some?
    ensures RowKept(node, NodeV3(node).value)
  {
    hide OptionsV3, ProtocolV3;
    forall k | k !in ROW_KEYS ensures Get(NodeV3(node).value, k) == Get(node, k) {
      assert k !in {"credentials", "protocol", "options"};
    }
  }

  lemma {:induction false} EditedRowsKept(rows: seq<Json>, edit: Json -> Option<Json>)
    requires EditedRows(rows, edit).Some?
    requires forall row :: edit(row).Some? ==> RowKept(row, edit(row).value)
    ensures RowsKept(rows, EditedRows(rows, edit).value)
  {
    hide RowKept;
    var after := EditedRows(rows, edit).value;
    forall i | 0 <= i < |rows| ensures RowKept(rows[i], after[i]) {
      assert edit(rows[i]) == Some(after[i]);
    }
  }

  /** Editing one list, and then fields that are no list of rows, keeps all lists. */
  lemma EditedListKeeps(d: Json, key: string, edit: Json -> Option<Json>)
    requires key in {"nodes", "subscriptions"} && EditedList(d, key, edit).Some?
    requires forall row :: edit(row).Some? ==> RowKept(row, edit(row).value)
    ensures ListsKept(d, EditedList(d, key, edit).value)
  {
    hide RowKept, RowsKept, EditedRows;
    EditedRowsKept(Items(d, key), edit);
    SameRows(Items(d, "subscriptions"));
    SameRows(Items(d, "nodes"));
  }

  lemma PutKeeps(d: Json, e: Json, key: string, value: Json)
    requires ListsKept(d, e) && e.Obj? && key !in {"nodes", "subscriptions", "providers"}
    ensures ListsKept(d, Put(e, key, value))
  {
    hide RowsKept;
  }

  lemma StepKeeps(version: nat, d: Json)
    requires 1 <= version < CURRENT && Step(version, d).Some?
    ensures ListsKept(d, Step(version, d).value)
  {
    hide ListsKept, Put, EditedList;
    match version {
      case 1 => FirstStepKeeps(d);
      case 2 =>
        forall row | NodeV3(row).Some? ensures RowKept(row, NodeV3(row).value) { NodeRowKept(row); }
        hide RowKept, NodeV3;
        EditedListKeeps(d, "nodes", NodeV3);
        var e := EditedList(d, "nodes", NodeV3).value;
        PutKeeps(d, e, "schema_version", Number(3));
        PutKeeps(d, Put(e, "schema_version", Number(3)), "default_target", Obj(map["kind" := Str("unconfigured")]));
      case 3 => SubscriptionStepKeeps(d, SubscriptionV4, 4);
      case 4 =>
        SubscriptionStepKeeps(d, SubscriptionV5, 5);
        FourthStepKeeps(d);
      case 5 => SubscriptionStepKeeps(d, SubscriptionV6, 6);
    }
  }

  lemma FirstStepKeeps(d: Json)
    requires d.Obj?
    ensures ListsKept(d, StepV1(d).value)
  {
    hide RowsKept;
    SameRows(Items(d, "subscriptions"));
    SameRows(Items(d, "nodes"));
  }

  lemma SubscriptionStepKeeps(d: Json, edit: Json -> Option<Json>, version: nat)
    requires edit in {SubscriptionV4, SubscriptionV5, SubscriptionV6} && EditedList(d, "subscriptions", edit).Some?
    ensures ListsKept(d, Put(EditedList(d, "subscriptions", edit).value, "schema_version", Number(version)))
    ensures ListsKept(d, EditedList(d, "subscriptions", edit).value)
  {
    forall row | edit(row).Some? ensures RowKept(row, edit(row).value) { SubscriptionRowsKept(row); }
    hide ListsKept, Put, EditedList, RowKept, SubscriptionV4, SubscriptionV5, SubscriptionV6;
    EditedListKeeps(d, "subscriptions", edit);
    PutKeeps(d, EditedList(d, "subscriptions", edit).value, "schema_version", Number(version));
  }

  lemma FourthStepKeeps(d: Json)
    requires StepV4(d).Some? && ListsKept(d, EditedList(d, "subscriptions", SubscriptionV5).value)
    ensures ListsKept(d, StepV4(d).value)
  {
    hide ListsKept, Put, EditedList;
    var e := EditedList(d, "subscriptions", SubscriptionV5).value;
    PutKeeps(d, e, "active_subscription_id", Null);
    var f := Put(e, "active_subscription_id", Null);
    PutKeeps(d, f, "active_configuration_generation", Number(0));
    PutKeeps(d, Put(f, "active_configuration_generation", Number(0)), "schema_version", Number(5));
  }

  lemma RowsKeptTrans(a: seq<Json>, b: seq<Json>, c: seq<Json>)
    requires RowsKept(a, b) && RowsKept(b, c)
    ensures RowsKept(a, c)
  {
    forall i | 0 <= i < |a| ensures RowKept(a[i], c[i]) {
      assert RowKept(a[i], b[i]) && RowKept(b[i], c[i]);
    }
  }

  /** A migrated document lists the same subscriptions, providers and nodes in the same order, ids
      and all other fields outside the edited ones included; providers are not touched at all. */
  lemma {:induction false} MigrationKeepsRows(d: Json)
    requires Migrate(d).Ok?
    ensures ListsKept(d, Migrate(d).value.document)
    decreases var v := VersionOf(d); if v.Some? && v.value < CURRENT then CURRENT - v.value else 0
  {
    hide Step, RowsKept;
    var version := VersionOf(d).value;
    var out := Migrate(d).value.document;
    if version < CURRENT {
      var next := Step(version, d).value;
      StepAdvances(version, d);
      StepKeeps(version, d);
      MigrationKeepsRows(next);
      RowsKeptTrans(Items(d, "subscriptions"), Items(next, "subscriptions"), Items(out, "subscriptions"));
      RowsKeptTrans(Items(d, "nodes"), Items(next, "nodes"), Items(out, "nodes"));
    } else {
      SameRows(Items(d, "subscriptions"));
      SameRows(Items(d, "nodes"));
    }
  }

  lemma SameRows(rows: seq<Json>)
    ensures RowsKept(rows, rows)
  {
  }

  // ---- credentials ------------------------------------------------------------------------------------------------

  /** The text stored under a key, as it appears in the new options: missing text is null. */
  function TextOf(from: Json, key: string): Json {
    var value := Get(from, key);
    if value.Some? && value.value.Str? then value.value else Null
  }

  /** Every credential string the node's protocol uses is in the new options, unchanged, and the
      options and the new protocol name the same kind of outbound; plain and TLS proxies, which now
      share a protocol, are still told apart. */
  ghost predicate CredentialsKept(before: Json, after: Json) {
    && Get(before, "protocol").Some? && Get(before, "credentials").Some? && Get(after, "options").Some?
    && var p := TextOf(before, "protocol");
       var c := Get(before, "credentials").value;
       var o := Get(after, "options").value;
    && p.Str? && Get(o, "kind") == Get(after, "protocol") && Get(after, "credentials").None?
    && CarriesText(p.s, o, TextOf(c, "username"), TextOf(c, "password"), TextOf(c, "cipher"), TextOf(c, "uuid"), TextOf(c, "flow"))
    && p.s in SUPPORTED
  }

  /** The protocols whose version 2 nodes can be migrated. tuic is renamed by the protocol table but
      has no options. */
  const SUPPORTED: set<string> :=
    {"shadowsocks", "vmess", "vless", "trojan", "hysteria2", "any_tls", "socks5", "http", "https"}

  /** The credential strings a protocol uses, in its new options. */
  ghost predicate CarriesText(protocol: string, o: Json, username: Json, password: Json, cipher: Json, uuid: Json, flow: Json) {
    && (protocol == "shadowsocks" ==> TextOf(o, "method") == cipher && TextOf(o, "password") == password)
    && (protocol == "vmess" ==> TextOf(o, "uuid") == uuid)
    && (protocol == "vless" ==> TextOf(o, "uuid") == uuid && TextOf(o, "flow") == flow)
    && (protocol in {"trojan", "hysteria2", "any_tls"} ==> TextOf(o, "password") == password)
    && (protocol in {"socks5", "http", "https"} ==> TextOf(o, "username") == username && TextOf(o, "password") == password)
    && (protocol in {"http", "https"} ==> Get(o, "tls") == Some(Bool(protocol == "https")))
  }

  lemma OptionsOfCarry(protocol: string, kind: string, username: Option<string>, password: Option<string>,
                       cipher: Option<string>, uuid: Option<string>, flow: Option<string>)
    requires OptionsOf(protocol, kind, username, password, cipher, uuid, flow).Some?
    ensures CarriesText(protocol, OptionsOf(protocol, kind, username, password, cipher, uuid, flow).value,
                        OrNull(username), OrNull(password), OrNull(cipher), OrNull(uuid), OrNull(flow))
  {
    hide OptionsOf;
    if protocol in {"socks5", "http", "https"} {
      ProxyOptionsCarry(protocol, kind, username, password, cipher, uuid, flow);
    } else {
      OtherOptionsCarry(protocol, kind, username, password, cipher, uuid, flow);
    }
  }

  lemma ProxyOptionsCarry(protocol: string, kind: string, username: Option<string>, password: Option<string>,
                          cipher: Option<string>, uuid: Option<string>, flow: Option<string>)
    requires OptionsOf(protocol, kind, username, password, cipher, uuid, flow).Some?
    requires protocol in {"socks5", "http", "https"}
    ensures var o := OptionsOf(protocol, kind, username, password, cipher, uuid, flow).value;
      && TextOf(o, "username") == OrNull(username) && TextOf(o, "password") == OrNull(password)
      && (protocol != "socks5" ==> Get(o, "tls") == Some(Bool(protocol == "https")))
  {
  }

  lemma OtherOptionsCarry(protocol: string, kind: string, username: Option<string>, password: Option<string>,
                          cipher: Option<string>, uuid: Option<string>, flow: Option<string>)
    requires OptionsOf(protocol, kind, username, password, cipher, uuid, flow).Some?
    requires protocol !in {"socks5", "http", "https"}
    ensures CarriesText(protocol, OptionsOf(protocol, kind, username, password, cipher, uuid, flow).value,
                        OrNull(username), OrNull(password), OrNull(cipher), OrNull(uuid), OrNull(flow))
  {
  }

  lemma OptionsOfKind(protocol: string, kind: string, username: Option<string>, password: Option<string>,
                      cipher: Option<string>, uuid: Option<string>, flow: Option<string>)
    requires OptionsOf(protocol, kind, username, password, cipher, uuid, flow).Some?
    ensures protocol in SUPPORTED
    ensures Get(OptionsOf(protocol, kind, username, password, cipher, uuid, flow).value, "kind")
              == Some(Str(ProtocolV3(protocol).value))
  {
  }

  lemma TextIsOptional(c: Json, key: string)
    requires OptionalString(c, key).Some?
    ensures OrNull(OptionalString(c, key).value) == TextOf(c, key)
  {
    hide Domain.Blank;
  }

  lemma OptionsKeepText(protocol: string, c: Json)
    requires OptionsV3(protocol, c).Some?
    ensures protocol in SUPPORTED
    ensures Get(OptionsV3(protocol, c).value, "kind") == Some(Str(ProtocolV3(protocol).value))
    ensures CarriesText(protocol, OptionsV3(protocol, c).value, TextOf(c, "username"), TextOf(c, "password"),
                        TextOf(c, "cipher"), TextOf(c, "uuid"), TextOf(c, "flow"))
  {
    hide OptionsOf, CarriesText, OptionalString, TextOf, ProtocolV3;
    TextIsOptional(c, "username");
    TextIsOptional(c, "password");
    TextIsOptional(c, "cipher");
    TextIsOptional(c, "uuid");
    TextIsOptional(c, "flow");
    OptionsOfCarry(protocol, RequiredString(c, "kind").value, OptionalString(c, "username").value,
                   OptionalString(c, "password").value, OptionalString(c, "cipher").value,
                   OptionalString(c, "uuid").value, OptionalString(c, "flow").value);
    OptionsOfKind(protocol, RequiredString(c, "kind").value, OptionalString(c, "username").value,
                  OptionalString(c, "password").value, OptionalString(c, "cipher").value,
                  OptionalString(c, "uuid").value, OptionalString(c, "flow").value);
  }

  lemma NodeKeepsCredentials(node: Json)
    requires NodeV3(node).Some?
    ensures CredentialsKept(node, NodeV3(node).value)
  {
    hide OptionsV3, ProtocolV3, Domain.Blank;
    OptionsKeepText(RequiredString(node, "protocol").value, Get(node, "credentials").value);
  }

  lemma LaterStepsSkipNodes(version: nat, d: Json)
    requires 3 <= version < CURRENT && Step(version, d).Some?
    ensures Get(Step(version, d).value, "nodes") == Get(d, "nodes")
  {
    hide SubscriptionV4, SubscriptionV5, SubscriptionV6, EditedRows;
  }

  lemma {:induction false} NodesUntouchedFrom3(d: Json)
    requires Migrate(d).Ok? && VersionOf(d).Some? && VersionOf(d).value >= 3
    ensures Get(Migrate(d).value.document, "nodes") == Get(d, "nodes")
    decreases CURRENT - VersionOf(d).value
  {
    var version := VersionOf(d).value;
    hide Step;
    if version < CURRENT {
      StepAdvances(version, d);
      LaterStepsSkipNodes(version, d);
      NodesUntouchedFrom3(Step(version, d).value);
    }
  }

  ghost predicate AllCredentialsKept(before: seq<Json>, after: seq<Json>) {
    |before| == |after| && forall i :: 0 <= i < |before| ==> CredentialsKept(before[i], after[i])
  }

  lemma SecondStepKeepsCredentials(d: Json)
    requires StepV2(d).Some?
    ensures AllCredentialsKept(Items(d, "nodes"), Items(StepV2(d).value, "nodes"))
  {
    hide NodeV3, CredentialsKept;
    var before, after := Items(d, "nodes"), Items(StepV2(d).value, "nodes");
    assert EditedRows(before, NodeV3) == Some(after);
    forall i | 0 <= i < |before| ensures CredentialsKept(before[i], after[i]) {
      assert NodeV3(before[i]) == Some(after[i]);
      NodeKeepsCredentials(before[i]);
    }
  }

  lemma {:induction false} KeepsCredentialsFrom2(d: Json)
    requires Migrate(d).Ok? && VersionOf(d) == Some(2)
    ensures AllCredentialsKept(Items(d, "nodes"), Items(Migrate(d).value.document, "nodes"))
  {
    StepAdvances(2, d);
    hide StepV2, AllCredentialsKept;
    var third := Step(2, d).value;
    NodesUntouchedFrom3(third);
    SecondStepKeepsCredentials(d);
  }

  lemma FirstStepSkipsNodes(d: Json)
    requires d.Obj?
    ensures Get(StepV1(d).value, "nodes") == Get(d, "nodes")
  {
  }

  /** Migrating a document of version 1 or 2 keeps the credentials of every node; newer documents
      keep their nodes as they are. */
  lemma {:induction false} MigrationKeepsCredentials(d: Json)
    requires Migrate(d).Ok?
    ensures VersionOf(d).value <= 2 ==> AllCredentialsKept(Items(d, "nodes"), Items(Migrate(d).value.document, "nodes"))
    ensures VersionOf(d).value > 2 ==> Get(Migrate(d).value.document, "nodes") == Get(d, "nodes")
  {
    hide AllCredentialsKept, StepV1, StepV2;
    var version := VersionOf(d).value;
    if version > 2 {
      NodesUntouchedFrom3(d);
    } else if version == 2 {
      KeepsCredentialsFrom2(d);
    } else {
      StepAdvances(1, d);
      FirstStepSkipsNodes(d);
      KeepsCredentialsFrom2(Step(1, d).value);
    }
  }

  // ---- migrated subscriptions ---------------------------------------------------------------------------------------

  /** A row as the current validation wants it: a remote source has its request options and updates
      itself, a manual one has neither. */
  predicate FitsItsSource(row: Json) {
    && (SourceKind(row) == Some("remote") ==>
          Get(row, "remote_request").Some? && Get(row, "remote_request").value.Obj? && AllowsUpdate(row) == Some(true))
    && (SourceKind(row) == Some("manual") ==> Get(row, "remote_request") == Some(Null) && AllowsUpdate(row) == Some(false))
    && (SourceKind(row) == Some("remote") || SourceKind(row) == Some("manual"))
  }

  function AllowsUpdate(row: Json): Option<bool> {
    var policy := Get(row, "update_policy");
    var allowed := if policy.Some? then Get(policy.value, "allow_auto_update") else None;
    if allowed.Some? && allowed.value.Bool? then Some(allowed.value.b) else None
  }

  ghost predicate AllFitTheirSource(rows: seq<Json>) {
    forall i :: 0 <= i < |rows| ==> FitsItsSource(rows[i])
  }

  lemma FifthRowsFit(row: Json)
    ensures SubscriptionV5(row).Some? ==> FitsItsSource(SubscriptionV5(row).value)
  {
  }

  lemma SixthRowsFit(row: Json)
    requires SubscriptionV6(row).Some? && FitsItsSource(row)
    ensures FitsItsSource(SubscriptionV6(row).value)
  {
  }

  lemma StepsFit(version: nat, d: Json)
    requires 1 <= version < CURRENT && Step(version, d).Some?
    ensures version == 4 || (version == 5 && AllFitTheirSource(Items(d, "subscriptions"))) ==>
      AllFitTheirSource(Items(Step(version, d).value, "subscriptions"))
  {
    hide SubscriptionV4, SubscriptionV5, SubscriptionV6, FitsItsSource, NodeV3;
    var rows := Items(d, "subscriptions");
    if version == 4 || (version == 5 && AllFitTheirSource(rows)) {
      var edit := if version == 4 then SubscriptionV5 else SubscriptionV6;
      var after := EditedRows(rows, edit).value;
      assert Items(Step(version, d).value, "subscriptions") == after;
      forall i | 0 <= i < |after| ensures FitsItsSource(after[i]) {
        assert edit(rows[i]) == Some(after[i]);
        if version == 4 { FifthRowsFit(rows[i]); } else { SixthRowsFit(rows[i]); }
      }
    }
  }

  /** Every subscription of a document older than version 5 comes out with the options and the update
      policy its kind of source needs. */
  lemma {:induction false} MigratedRowsFitTheirSource(d: Json)
    requires Migrate(d).Ok?
    requires VersionOf(d).value < 5 || (VersionOf(d).value <= CURRENT && AllFitTheirSource(Items(d, "subscriptions")))
    ensures AllFitTheirSource(Items(Migrate(d).value.document, "subscriptions"))
    decreases var v := VersionOf(d); if v.Some? && v.value < CURRENT then CURRENT - v.value else 0
  {
    hide Step, AllFitTheirSource;
    var version := VersionOf(d).value;
    if version < CURRENT {
      StepAdvances(version, d);
      StepsFit(version, d);
      MigratedRowsFitTheirSource(Step(version, d).value);
    }
  }

  // ---- exactly which documents can be migrated ------------------------------------------------------------------------

  predicate NoBlankText(from: Json, key: string) {
    var value := Get(from, key);
    value.None? || value.value.Null? || (value.value.Str? && !Domain.Blank(value.value.s))
  }

  predicate HasText(from: Json, key: string) {
    var value := Get(from, key);
    value.Some? && value.value.Str? && !Domain.Blank(value.value.s)
  }

  predicate CredentialsFit(protocol: string, c: Json) {
    var kind := TextOf(c, "kind");
    && c.Obj? && HasText(c, "kind") && kind.Str?
    && NoBlankText(c, "username") && NoBlankText(c, "password") && NoBlankText(c, "cipher")
    && NoBlankText(c, "uuid") && NoBlankText(c, "flow")
    && (protocol in {"shadowsocks", "trojan", "hysteria2", "any_tls"} ==> kind.s == "password" && HasText(c, "password"))
    && (protocol == "shadowsocks" ==> HasText(c, "cipher"))
    && (protocol in {"vmess", "vless"} ==> kind.s == "uuid" && HasText(c, "uuid"))
    && (protocol in {"socks5", "http", "https"} ==> kind.s == "none" || kind.s == "password")
  }

  predicate NodeFits(node: Json) {
    && HasText(node, "protocol") && TextOf(node, "protocol").Str? && TextOf(node, "protocol").s in SUPPORTED
    && Get(node, "credentials").Some? && CredentialsFit(TextOf(node, "protocol").s, Get(node, "credentials").value)
  }

  lemma OptionsExactly(protocol: string, c: Json)
    ensures OptionsV3(protocol, c).Some? <==> protocol in SUPPORTED && CredentialsFit(protocol, c)
  {
    hide Domain.Blank;
  }

  lemma NodeExactly(node: Json)
    ensures NodeV3(node).Some? <==> NodeFits(node)
  {
    hide OptionsV3, CredentialsFit, Domain.Blank;
    var protocol := RequiredString(node, "protocol");
    if protocol.Some? && Get(node, "credentials").Some? {
      OptionsExactly(protocol.value, Get(node, "credentials").value);
    }
  }

  ghost predicate SubscriptionsFit(version: nat, d: Json) {
    && Get(d, "subscriptions").Some? && Get(d, "subscriptions").value.Arr?
    && forall i :: 0 <= i < |Items(d, "subscriptions")| ==> SubscriptionFits(version, Items(d, "subscriptions")[i])
  }

  predicate SubscriptionFits(version: nat, row: Json) {
    row.Obj? && (version == 4 ==> SourceKind(row) == Some("remote") || SourceKind(row) == Some("manual"))
  }

  ghost predicate NodesFit(d: Json) {
    && Get(d, "nodes").Some? && Get(d, "nodes").value.Arr?
    && forall i :: 0 <= i < |Items(d, "nodes")| ==> NodeFits(Items(d, "nodes")[i])
  }

  ghost predicate Fits(version: nat, d: Json) {
    && (version <= 5 ==> SubscriptionsFit(version, d))
    && (version <= 2 ==> NodesFit(d))
  }

  lemma RowStepExactly(row: Json)
    ensures SubscriptionV4(row).Some? <==> SubscriptionFits(3, row)
    ensures SubscriptionV5(row).Some? <==> SubscriptionFits(4, row)
    ensures SubscriptionV6(row).Some? <==> SubscriptionFits(5, row)
    ensures SubscriptionFits(3, row) ==> SubscriptionFits(4, SubscriptionV4(row).value)
    ensures SubscriptionFits(4, row) ==> SubscriptionFits(5, SubscriptionV5(row).value)
    ensures SubscriptionFits(5, row) ==> SubscriptionFits(6, SubscriptionV6(row).value)
  {
  }

  lemma SubscriptionsStepExactly(version: nat, d: Json)
    requires 3 <= version <= 5 && d.Obj?
    ensures Step(version, d).Some? <==> SubscriptionsFit(version, d)
    ensures Step(version, d).Some? ==> Fits(version + 1, Step(version, d).value)
  {
    hide SubscriptionV4, SubscriptionV5, SubscriptionV6, SubscriptionFits, NodesFit;
    var rows := Items(d, "subscriptions");
    var edit := if version == 3 then SubscriptionV4 else if version == 4 then SubscriptionV5 else SubscriptionV6;
    forall row ensures edit(row).Some? <==> SubscriptionFits(version, row) { RowStepExactly(row); }
    var edited := EditedRows(rows, edit);
    if Step(version, d).Some? {
      var next := Step(version, d).value;
      assert Items(next, "subscriptions") == edited.value;
      forall i | 0 <= i < |rows| ensures SubscriptionFits(version, rows[i]) && SubscriptionFits(version + 1, edited.value[i]) {
        assert edit(rows[i]) == Some(edited.value[i]);
        RowStepExactly(rows[i]);
      }
    }
  }

  lemma NodesStepExactly(d: Json)
    requires d.Obj?
    ensures StepV2(d).Some? <==> NodesFit(d)
    ensures StepV2(d).Some? ==> Get(StepV2(d).value, "subscriptions") == Get(d, "subscriptions")
  {
    hide NodeV3, NodeFits;
    var rows := Items(d, "nodes");
    forall row: Json ensures NodeV3(row).Some? <==> NodeFits(row) { NodeExactly(row); }
    if StepV2(d).Some? {
      var edited := EditedRows(rows, NodeV3).value;
      forall i | 0 <= i < |rows| ensures NodeFits(rows[i]) {
        assert NodeV3(rows[i]) == Some(edited[i]);
      }
    }
  }

  lemma StepExactly(version: nat, d: Json)
    requires 1 <= version < CURRENT && d.Obj?
    ensures Fits(version, d) <==> Step(version, d).Some? && Fits(version + 1, Step(version, d).value)
  {
    hide EditedList, NodeFits, SubscriptionFits;
    if version >= 3 {
      SubscriptionsStepExactly(version, d);
    } else if version == 2 {
      NodesStepExactly(d);
      if StepV2(d).Some? { SameSubscriptions(2, d, StepV2(d).value); }
    } else {
      var next := StepV1(d).value;
      SameNodeList(d, next);
      SameSubscriptions(1, d, next);
    }
  }

  lemma SameSubscriptions(version: nat, d: Json, next: Json)
    requires Get(next, "subscriptions") == Get(d, "subscriptions") && version <= 2
    ensures SubscriptionsFit(version, d) <==> SubscriptionsFit(version + 1, next)
  {
    assert Items(next, "subscriptions") == Items(d, "subscriptions");
    forall i | 0 <= i < |Items(d, "subscriptions")|
      ensures SubscriptionFits(version, Items(d, "subscriptions")[i]) == SubscriptionFits(version + 1, Items(d, "subscriptions")[i])
    {
    }
  }

  lemma SameNodeList(d: Json, next: Json)
    requires Get(next, "nodes") == Get(d, "nodes")
    ensures NodesFit(d) <==> NodesFit(next)
  {
    hide NodeFits;
    assert Items(next, "nodes") == Items(d, "nodes");
  }

  /** A document can be migrated exactly when its version is one of 1 to 6, its subscriptions are a
      list of objects (with a known source kind in version 4), and, up to version 2, every node has
      a supported protocol with fitting credentials. Every other refusal says what is wrong with
      the version, or that the migration failed. */
  lemma {:induction false} MigratesExactly(d: Json)
    ensures VersionOf(d).None? ==> Migrate(d) == Err(MissingSchemaVersion)
    ensures VersionOf(d).Some? && !(1 <= VersionOf(d).value <= CURRENT) ==> Migrate(d) == Err(UnsupportedSchemaVersion)
    ensures VersionOf(d).Some? && 1 <= VersionOf(d).value <= CURRENT ==>
      && (Migrate(d).Ok? <==> Fits(VersionOf(d).value, d))
      && (Migrate(d).Err? ==> Migrate(d) == Err(MigrationFailed))
    decreases var v := VersionOf(d); if v.Some? && v.value < CURRENT then CURRENT - v.value else 0
  {
    hide Step, Fits;
    if VersionOf(d).Some? && 1 <= VersionOf(d).value < CURRENT {
      var version := VersionOf(d).value;
      StepExactly(version, d);
      if Step(version, d).Some? {
        StepAdvances(version, d);
        MigratesExactly(Step(version, d).value);
      }
    } else {
      NothingToFit(d);
    }
  }

  lemma NothingToFit(d: Json)
    ensures Fits(CURRENT, d)
  {
  }

  /** A tuic node stops the migration of its document. */
  lemma {:induction false} TuicNodesAreNotMigrated(d: Json, i: nat)
    requires VersionOf(d).Some? && 1 <= VersionOf(d).value <= 2
    requires i < |Items(d, "nodes")| && TextOf(Items(d, "nodes")[i], "protocol") == Str("tuic")
    ensures Migrate(d) == Err(MigrationFailed)
  {
    MigratesExactly(d);
    hide CredentialsFit, HasText, SubscriptionsFit, Migrate;
    var node := Items(d, "nodes")[i];
    TuicUnsupported();
    assert !NodeFits(node);
  }

  lemma TuicUnsupported()
    ensures "tuic" !in SUPPORTED
  {
    assert forall s :: s in SUPPORTED ==> s != "tuic" by {
      forall s | s in SUPPORTED ensures s != "tuic" {
        assert |s| != 4 || s[0] != 't';
      }
    }
  }
}
