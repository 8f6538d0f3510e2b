/** The REST handlers of the API server: dynamic SQL built from clause lists, the required-field
    checks and defaults of the create handlers, partial updates, the notification bulk insert,
    read-marking, the in-memory session table and login. Tables are maps from id to row, a row
    maps column names to values; the statements each handler issues are returned in order. */
module ApiServer {
  import opened Wrappers
  import opened Json
  import Seqs
  import Strings

  type Id = string
  type Token = string
  type Row = map<string, Value>

  /** `row.column`, `undefined` when the row has no such column. */
  function Field(row: Row, column: string): Value {
    if column in row then row[column] else Undefined
  }

  datatype Statement = Statement(sql: string, params: seq<Value>)
  datatype Response = Response(status: nat, body: Value)

  function MessageBody(text: string): Value {
    Obj(map["message" := Str(text)])
  }

  function Error(status: nat, text: string): Response {
    Response(status, MessageBody(text))
  }

  const NoContent: Response := Response(204, Undefined)

  const LoginMissingText := "Email dan password wajib diisi."
  const LoginFailedText := "Email atau password salah."
  const ProfileIncompleteText := "Data user belum lengkap."
  const ProspectIncompleteText := "Data prospek belum lengkap."
  const FollowUpIncompleteText := "Data follow up belum lengkap."
  const NothingToUpdateText := "Tidak ada data untuk diperbarui."
  const UserNotFoundText := "User tidak ditemukan."
  const EmptyNotificationsText := "Payload notifikasi kosong."
  const UserIdQueryRequiredText := "userId wajib diisi."
  const UserIdBodyRequiredText := "user_id wajib diisi."
  /** The message of the TypeError that reading `user_id` of `null` throws. */
  const NullItemText := "Cannot read properties of null (reading 'user_id')"

  // ---------------------------------------------------------------------------------------------
  // buildWhereClause

  datatype Filter = Filter(clause: string, value: Value)

  /** `buildWhereClause` keeps a filter whose value is not undefined, null or ''. */
  predicate IsKept(f: Filter) {
    Present(f.value)
  }

  function KeptFilters(filters: seq<Filter>): seq<Filter> {
    Seqs.Filter(filters, IsKept)
  }

  function ClauseOf(f: Filter): string {
    f.clause
  }

  function ValueOf(f: Filter): Value {
    f.value
  }

  function ClausesOf(fs: seq<Filter>): seq<string> {
    Seqs.Map(fs, ClauseOf)
  }

  function ValuesOf(fs: seq<Filter>): seq<Value> {
    Seqs.Map(fs, ValueOf)
  }

  function WhereText(clauses: seq<string>): string {
    if clauses == [] then "" else "WHERE " + Strings.Join(clauses, " AND ")
  }

  /** The `{ where, values }` pair `buildWhereClause` returns. */
  function Where(filters: seq<Filter>): (r: (string, seq<Value>))
    ensures r.0 == "" <==> forall f :: f in filters ==> !Present(f.value)
    ensures r.0 != "" ==> Strings.StartsWith(r.0, "WHERE ")
    ensures forall v :: v in r.1 ==> Present(v)
    ensures |r.1| <= |filters|
  {
    var kept := KeptFilters(filters);
    assert forall i :: 0 <= i < |kept| ==> kept[i] in kept;
    (WhereText(ClausesOf(kept)), ValuesOf(kept))
  }

  /** Kept clauses and values stay aligned with each other and in the order of the input. */
  lemma WhereAligned(filters: seq<Filter>)
    ensures var kept := KeptFilters(filters);
      && Seqs.IsSublist(kept, filters)
      && |ClausesOf(kept)| == |ValuesOf(kept)| == |kept|
      && forall i :: 0 <= i < |kept| ==> Filter(ClausesOf(kept)[i], ValuesOf(kept)[i]) in filters
  {
    var kept := KeptFilters(filters);
    assert forall i :: 0 <= i < |kept| ==> kept[i] in kept;
    Seqs.FilterSublist(filters, IsKept);
  }

  /** One more filter adds its clause and value exactly when it is kept. */
  lemma KeptStep(filters: seq<Filter>, i: nat)
    requires i < |filters|
    ensures ClausesOf(KeptFilters(filters[..i + 1]))
         == ClausesOf(KeptFilters(filters[..i])) + (if IsKept(filters[i]) then [filters[i].clause] else [])
    ensures ValuesOf(KeptFilters(filters[..i + 1]))
         == ValuesOf(KeptFilters(filters[..i])) + (if IsKept(filters[i]) then [filters[i].value] else [])
  {
    Seqs.FilterPrefixStep(filters, i, IsKept);
    var extra := if IsKept(filters[i]) then [filters[i]] else [];
    Seqs.MapAppend(KeptFilters(filters[..i]), extra, ClauseOf);
    Seqs.MapAppend(KeptFilters(filters[..i]), extra, ValueOf);
  }

  method BuildWhereClause(filters: seq<Filter>) returns (where: string, values: seq<Value>)
    ensures (where, values) == Where(filters)
  {
    var clauses: seq<string> := [];
    values := [];
    var i := 0;
    while i < |filters|
      invariant 0 <= i <= |filters|
      invariant clauses == ClausesOf(KeptFilters(filters[..i]))
      invariant values == ValuesOf(KeptFilters(filters[..i]))
    {
      var filter := filters[i];
      KeptStep(filters, i);
      if filter.value != Undefined && filter.value != Null && filter.value != Str("") {
        clauses := clauses + [filter.clause];
        values := values + [filter.value];
      }
      i := i + 1;
    }
    assert filters[..|filters|] == filters;
    where := if |clauses| > 0 then "WHERE " + Strings.Join(clauses, " AND ") else "";
  }

  // The list queries built from buildWhereClause.

  const ProfilesSelect := "SELECT id, email, full_name, role FROM profiles "
  const ProspectsSelect := "SELECT * FROM prospects "
  const ProspectsWithSalesSelect :=
    "SELECT p.*, pr.id AS sales_profile_id, pr.full_name AS sales_name, pr.email AS sales_email"
    + " FROM prospects p JOIN profiles pr ON pr.id = p.sales_id "

  function ProfilesQuery(role: Value): Statement {
    var w := Where([Filter("role = ?", role)]);
    Statement(ProfilesSelect + w.0, w.1)
  }

  function ProspectsQuery(salesId: Value, startDate: Value, endDate: Value): Statement {
    var w := Where([Filter("sales_id = ?", salesId), Filter("created_at >= ?", startDate),
                    Filter("created_at <= ?", endDate)]);
    Statement(ProspectsSelect + w.0, w.1)
  }

  function ProspectsWithSalesQuery(salesId: Value): Statement {
    var w := Where([Filter("p.sales_id = ?", salesId)]);
    Statement(ProspectsWithSalesSelect + w.0, w.1)
  }

  const FollowUpsSelect :=
    "SELECT f.*, p.nama AS prospect_nama, p.no_hp AS prospect_no_hp, p.alamat AS prospect_alamat,"
    + " p.kebutuhan AS prospect_kebutuhan, p.status AS prospect_status, p.sales_id AS prospect_sales_id,"
    + " assigned_by.full_name AS assigned_by_name, assigned_by.email AS assigned_by_email,"
    + " assigned_to.full_name AS assigned_to_name, assigned_to.email AS assigned_to_email"
    + " FROM follow_ups f JOIN prospects p ON p.id = f.prospect_id"
    + " JOIN profiles assigned_by ON assigned_by.id = f.assigned_by"
    + " JOIN profiles assigned_to ON assigned_to.id = f.assigned_to "

  function FollowUpsQuery(assignedTo: Value, startDate: Value, endDate: Value): Statement {
    var w := Where([Filter("f.assigned_to = ?", assignedTo), Filter("f.created_at >= ?", startDate),
                    Filter("f.created_at <= ?", endDate)]);
    Statement(FollowUpsSelect + w.0, w.1)
  }

  /** GET /follow-ups scoped by a present assignee binds exactly that id; without one it lists all. */
  lemma FollowUpsQueryScoped(assignedTo: Value)
    ensures Present(assignedTo) ==> FollowUpsQuery(assignedTo, Undefined, Undefined).params == [assignedTo]
    ensures !Present(assignedTo) ==> FollowUpsQuery(assignedTo, Undefined, Undefined).params == []
  {
    var tail := [Filter("f.created_at >= ?", Undefined), Filter("f.created_at <= ?", Undefined)];
    var head := [Filter("f.assigned_to = ?", assignedTo)];
    assert [Filter("f.assigned_to = ?", assignedTo), Filter("f.created_at >= ?", Undefined),
            Filter("f.created_at <= ?", Undefined)] == head + tail;
    Seqs.FilterAppend(head, tail, IsKept);
    Seqs.FilterNone(tail, IsKept);
    assert head[1..] == [];
  }

  /** A listing scoped by a present sales id binds exactly that id; without one there is no WHERE. */
  lemma ProspectsQueryScoped(salesId: Value)
    ensures Present(salesId) ==> ProspectsQuery(salesId, Undefined, Undefined).params == [salesId]
    ensures !Present(salesId) ==> ProspectsQuery(salesId, Undefined, Undefined).params == []
  {
    var tail := [Filter("created_at >= ?", Undefined), Filter("created_at <= ?", Undefined)];
    var head := [Filter("sales_id = ?", salesId)];
    assert [Filter("sales_id = ?", salesId), Filter("created_at >= ?", Undefined),
            Filter("created_at <= ?", Undefined)] == head + tail;
    Seqs.FilterAppend(head, tail, IsKept);
    Seqs.FilterNone(tail, IsKept);
    assert head[1..] == [];
  }

  lemma ProspectsWithSalesScoped(salesId: Value)
    ensures Present(salesId) ==> ProspectsWithSalesQuery(salesId).params == [salesId]
    ensures !Present(salesId) ==> ProspectsWithSalesQuery(salesId).params == []
  {
    var gs := [Filter("p.sales_id = ?", salesId)];
    assert gs[1..] == [];
  }

  // ---------------------------------------------------------------------------------------------
  // Partial updates (PUT /prospects/:id, PUT /follow-ups/:id)

  const ProspectFields: seq<string> := ["nama", "no_hp", "alamat", "kebutuhan", "status", "sales_id"]
  const FollowUpFields: seq<string> := ["status", "notes", "scheduled_date", "completed_at", "assigned_to"]

  /** The whitelisted fields whose body value is `!== undefined`, in whitelist order. */
  function SuppliedFields(fields: seq<string>, body: Value): (r: seq<string>)
    ensures forall f :: f in r <==> f in fields && Get(body, f) != Undefined
  {
    Seqs.Filter(fields, SuppliedIn(body))
  }

  function SuppliedIn(body: Value): string -> bool {
    (f: string) => Defined(Get(body, f))
  }

  function SetClause(column: string): string {
    column + " = ?"
  }

  function SetClauses(columns: seq<string>): seq<string> {
    Seqs.Map(columns, SetClause)
  }

  function BodyValues(columns: seq<string>, body: Value): (r: seq<Value>)
    ensures |r| == |columns|
    ensures forall i :: 0 <= i < |columns| ==> r[i] == Get(body, columns[i])
  {
    seq(|columns|, i requires 0 <= i < |columns| => Get(body, columns[i]))
  }

  /** One more whitelisted field adds its clause and value exactly when the body supplies it. */
  lemma SuppliedStep(fields: seq<string>, body: Value, i: nat)
    requires i < |fields|
    ensures SetClauses(SuppliedFields(fields[..i + 1], body))
         == SetClauses(SuppliedFields(fields[..i], body)) + (if Defined(Get(body, fields[i])) then [SetClause(fields[i])] else [])
    ensures BodyValues(SuppliedFields(fields[..i + 1], body), body)
         == BodyValues(SuppliedFields(fields[..i], body), body) + (if Defined(Get(body, fields[i])) then [Get(body, fields[i])] else [])
  {
    Seqs.FilterPrefixStep(fields, i, SuppliedIn(body));
    var extra := if Defined(Get(body, fields[i])) then [fields[i]] else [];
    Seqs.MapAppend(SuppliedFields(fields[..i], body), extra, SetClause);
    assert BodyValues(SuppliedFields(fields[..i], body) + extra, body)
        == BodyValues(SuppliedFields(fields[..i], body), body) + BodyValues(extra, body);
  }

  method BuildSetClauses(fields: seq<string>, body: Value) returns (updates: seq<string>, values: seq<Value>)
    ensures updates == SetClauses(SuppliedFields(fields, body))
    ensures values == BodyValues(SuppliedFields(fields, body), body)
    ensures |updates| == |values|
    ensures updates == [] <==> forall f :: f in fields ==> Get(body, f) == Undefined
  {
    updates := [];
    values := [];
    var i := 0;
    while i < |fields|
      invariant 0 <= i <= |fields|
      invariant updates == SetClauses(SuppliedFields(fields[..i], body))
      invariant values == BodyValues(SuppliedFields(fields[..i], body), body)
    {
      var field := fields[i];
      SuppliedStep(fields, body, i);
      if Get(body, field) != Undefined {
        updates := updates + [field + " = ?"];
        values := values + [Get(body, field)];
      }
      i := i + 1;
    }
    assert fields[..|fields|] == fields;
    var supplied := SuppliedFields(fields, body);
    if supplied != [] {
      assert supplied[0] in supplied;
    }
  }

  /** `UPDATE <table> SET <clauses> WHERE id = ?` with the clause values then the id. */
  function UpdateSql(table: string, updates: seq<string>, values: seq<Value>, id: Id): Statement {
    Statement("UPDATE " + table + " SET " + Strings.Join(updates, ", ") + " WHERE id = ?", values + [Str(id)])
  }

  /** The UPDATE of PUT /prospects/:id and PUT /follow-ups/:id. */
  function UpdateStatement(table: string, fields: seq<string>, body: Value, id: Id): (s: Statement)
    ensures |s.params| == |SuppliedFields(fields, body)| + 1
    ensures s.params[|s.params| - 1] == Str(id)
    ensures forall i :: 0 <= i < |SuppliedFields(fields, body)| ==>
      s.params[i] == Get(body, SuppliedFields(fields, body)[i]) && s.params[i] != Undefined
  {
    var supplied := SuppliedFields(fields, body);
    assert forall i :: 0 <= i < |supplied| ==> supplied[i] in supplied;
    UpdateSql(table, SetClauses(supplied), BodyValues(supplied, body), id)
  }

  /** The row after the UPDATE: the listed columns take the body value, every other column is unchanged. */
  function PatchRow(row: Row, columns: seq<string>, body: Value): (r: Row)
    ensures r.Keys == row.Keys + set c | c in columns
    ensures forall c :: c in columns ==> r[c] == Get(body, c)
    ensures forall c :: c in row && c !in columns ==> r[c] == row[c]
  {
    row + map c | c in columns :: Get(body, c)
  }

  function SelectById(table: string, id: Id): Statement {
    Statement("SELECT * FROM " + table + " WHERE id = ? LIMIT 1", [Str(id)])
  }

  // ---------------------------------------------------------------------------------------------
  // PUT /profiles/:id

  const ProfileColumns: seq<string> := ["full_name", "email", "role"]

  /** The columns PUT /profiles/:id writes, in the order the handler pushes them: full_name, email and
      role, each only when its body value is truthy. */
  function ProfileChanges(body: Value): (r: seq<string>)
    ensures forall c :: c in r <==> c in ProfileColumns && Truthy(Get(body, c))
    ensures Seqs.IsSublist(r, ProfileColumns)
  {
    var fullName, email, role := Get(body, "full_name"), Get(body, "email"), Get(body, "role");
    var r := (if Truthy(fullName) then ["full_name"] else [])
      + (if Truthy(email) then ["email"] else [])
      + (if Truthy(role) then ["role"] else []);
    var t := if Truthy(role) then ["role"] else [];
    assert ProfileColumns[1..] == ["email", "role"] && ProfileColumns[1..][1..] == ["role"];
    assert Seqs.IsSublist(t, ["role"]);
    var m := (if Truthy(email) then ["email"] else []) + t;
    assert Truthy(email) ==> m[1..] == t;
    assert Seqs.IsSublist(m, ["email", "role"]);
    assert Truthy(fullName) ==> r[1..] == m;
    r
  }

  // ---------------------------------------------------------------------------------------------
  // Create handlers: required fields and defaults

  const ProspectDefaultStatus := Str("menunggu_follow_up")
  const FollowUpDefaultStatus := Str("pending")

  predicate ProspectComplete(body: Value) {
    Truthy(Get(body, "nama")) && Truthy(Get(body, "no_hp")) && Truthy(Get(body, "alamat"))
    && Truthy(Get(body, "kebutuhan")) && Truthy(Get(body, "sales_id"))
  }

  /** The row POST /prospects inserts, or None when a required field is falsy (400). */
  function ProspectInsert(body: Value, id: Id): (r: Option<Row>)
    ensures r.Some? <==> ProspectComplete(body)
    ensures r.Some? ==> r.value.Keys == {"id", "nama", "no_hp", "alamat", "kebutuhan", "status", "sales_id"}
    ensures r.Some? ==> r.value["id"] == Str(id)
    ensures r.Some? ==> forall c :: c in ["nama", "no_hp", "alamat", "kebutuhan", "sales_id"] ==>
      r.value[c] == Get(body, c) && Truthy(r.value[c])
    ensures r.Some? ==> Truthy(r.value["status"])
    ensures r.Some? && Truthy(Get(body, "status")) ==> r.value["status"] == Get(body, "status")
    ensures r.Some? ==> (r.value["status"] == ProspectDefaultStatus <==>
      !Truthy(Get(body, "status")) || Get(body, "status") == ProspectDefaultStatus)
  {
    if !ProspectComplete(body) then None
    else Some(map[
      "id" := Str(id), "nama" := Get(body, "nama"), "no_hp" := Get(body, "no_hp"),
      "alamat" := Get(body, "alamat"), "kebutuhan" := Get(body, "kebutuhan"),
      "status" := Or(Get(body, "status"), ProspectDefaultStatus), "sales_id" := Get(body, "sales_id")])
  }

  predicate FollowUpComplete(body: Value) {
    Truthy(Get(body, "prospect_id")) && Truthy(Get(body, "assigned_by"))
    && Truthy(Get(body, "assigned_to")) && Truthy(Get(body, "scheduled_date"))
  }

  /** The row POST /follow-ups inserts, or None when a required field is falsy (400). */
  function FollowUpInsert(body: Value, id: Id): (r: Option<Row>)
    ensures r.Some? <==> FollowUpComplete(body)
    ensures r.Some? ==>
      (r.value.Keys == {"id", "prospect_id", "assigned_by", "assigned_to", "scheduled_date", "status", "notes"})
    ensures r.Some? ==> r.value["id"] == Str(id)
    ensures r.Some? ==> forall c :: c in ["prospect_id", "assigned_by", "assigned_to", "scheduled_date"] ==>
      r.value[c] == Get(body, c) && Truthy(r.value[c])
    ensures r.Some? && !Truthy(Get(body, "status")) ==> r.value["status"] == FollowUpDefaultStatus
    ensures r.Some? && Truthy(Get(body, "status")) ==> r.value["status"] == Get(body, "status")
    ensures r.Some? && !Truthy(Get(body, "notes")) ==> r.value["notes"] == Str("")
    ensures r.Some? && Truthy(Get(body, "notes")) ==> r.value["notes"] == Get(body, "notes")
  {
    if !FollowUpComplete(body) then None
    else Some(map[
      "id" := Str(id), "prospect_id" := Get(body, "prospect_id"), "assigned_by" := Get(body, "assigned_by"),
      "assigned_to" := Get(body, "assigned_to"), "scheduled_date" := Get(body, "scheduled_date"),
      "status" := Or(Get(body, "status"), FollowUpDefaultStatus), "notes" := Or(Get(body, "notes"), Str(""))])
  }

  predicate ProfileComplete(body: Value) {
    Truthy(Get(body, "full_name")) && Truthy(Get(body, "email")) && Truthy(Get(body, "password"))
    && Truthy(Get(body, "role"))
  }

  // ---------------------------------------------------------------------------------------------
  // POST /notifications

  /** `Array.isArray(body) ? body : [body]`. */
  function NotificationPayload(body: Value): (r: seq<Value>)
    ensures body.Arr? ==> r == body.items
    ensures !body.Arr? ==> r == [body]
  {
    if body.Arr? then body.items else [body]
  }

  /** The eight values one item contributes, with `is_read` mapped to 1/0. */
  function NotificationTuple(item: Value, id: Id): (t: seq<Value>)
    ensures |t| == 8
  {
    [Str(id), Get(item, "user_id"), Get(item, "type"), Get(item, "title"), Get(item, "message"),
     Get(item, "reference_id"), Get(item, "reference_type"), Num(if Truthy(Get(item, "is_read")) then 1 else 0)]
  }

  function Flatten(xss: seq<seq<Value>>): seq<Value>
    decreases |xss|
  {
    if xss == [] then [] else xss[0] + Flatten(xss[1..])
  }

  lemma {:induction false} FlattenUniform(xss: seq<seq<Value>>, i: nat, k: nat)
    requires forall j :: 0 <= j < |xss| ==> |xss[j]| == 8
    ensures |Flatten(xss)| == 8 * |xss|
    ensures i < |xss| && k < 8 ==> Flatten(xss)[8 * i + k] == xss[i][k]
    decreases |xss|
  {
    if xss != [] {
      FlattenUniform(xss[1..], if i > 0 then i - 1 else 0, k);
    }
  }

  const PlaceholderGroup := "(?, ?, ?, ?, ?, ?, ?, ?)"
  const NotificationInsertPrefix :=
    "INSERT INTO notifications (id, user_id, type, title, message, reference_id, reference_type, is_read) VALUES "

  /** One placeholder group per item, joined with ", ". */
  function PlaceholderGroups(n: nat): (r: seq<string>)
    ensures |r| == n && forall i :: 0 <= i < n ==> r[i] == PlaceholderGroup
  {
    seq(n, i => PlaceholderGroup)
  }

  /** The single multi-row INSERT: n groups and 8·n flattened values, item by item. */
  function NotificationInsert(payload: seq<Value>, uuid: nat -> Id): (s: Statement)
    ensures |s.params| == 8 * |payload|
    ensures forall i, k :: 0 <= i < |payload| && 0 <= k < 8 ==>
      s.params[8 * i + k] == NotificationTuple(payload[i], uuid(i))[k]
  {
    var tuples := seq(|payload|, i requires 0 <= i < |payload| => NotificationTuple(payload[i], uuid(i)));
    forall j | 0 <= j < |tuples| ensures |tuples[j]| == 8 {
      assert tuples[j] == NotificationTuple(payload[j], uuid(j));
    }
    FlattenUniform(tuples, 0, 0);
    forall i, k | 0 <= i < |payload| && 0 <= k < 8
      ensures Flatten(tuples)[8 * i + k] == NotificationTuple(payload[i], uuid(i))[k]
    {
      FlattenUniform(tuples, i, k);
    }
    Statement(NotificationInsertPrefix + Strings.Join(PlaceholderGroups(|payload|), ", "), Flatten(tuples))
  }

  /** The stored row for one item (`undefined` columns become NULL). */
  function NotificationRow(item: Value, id: Id): Row {
    map["id" := Str(id), "user_id" := SqlValue(Get(item, "user_id")), "type" := SqlValue(Get(item, "type")),
        "title" := SqlValue(Get(item, "title")), "message" := SqlValue(Get(item, "message")),
        "reference_id" := SqlValue(Get(item, "reference_id")),
        "reference_type" := SqlValue(Get(item, "reference_type")),
        "is_read" := Num(if Truthy(Get(item, "is_read")) then 1 else 0)]
  }

  /** Inserting the items in order; the i-th gets id uuid(start + i). */
  function InsertNotifications(table: map<Id, Row>, payload: seq<Value>, uuid: nat -> Id, start: nat): map<Id, Row>
    decreases |payload|
  {
    if payload == [] then table
    else InsertNotifications(table[uuid(start) := NotificationRow(payload[0], uuid(start))], payload[1..], uuid, start + 1)
  }

  /** A row is kept when no fresh id lands on its key. */
  lemma {:induction false} InsertNotificationsKeeps(table: map<Id, Row>, payload: seq<Value>, uuid: nat -> Id,
                                                    start: nat, id: Id)
    requires id in table
    requires forall i :: start <= i < start + |payload| ==> uuid(i) != id
    ensures var t := InsertNotifications(table, payload, uuid, start); id in t && t[id] == table[id]
    decreases |payload|
  {
    if payload != [] {
      var next := table[uuid(start) := NotificationRow(payload[0], uuid(start))];
      InsertNotificationsKeeps(next, payload[1..], uuid, start + 1, id);
    }
  }

  /** Each item becomes the row stored under its own fresh id. */
  lemma {:induction false} InsertNotificationsAdds(table: map<Id, Row>, payload: seq<Value>, uuid: nat -> Id,
                                                   start: nat, k: nat)
    requires k < |payload|
    requires forall i, j :: start <= i < j < start + |payload| ==> uuid(i) != uuid(j)
    ensures var t := InsertNotifications(table, payload, uuid, start);
      uuid(start + k) in t && t[uuid(start + k)] == NotificationRow(payload[k], uuid(start + k))
    decreases |payload|
  {
    var next := table[uuid(start) := NotificationRow(payload[0], uuid(start))];
    if k == 0 {
      InsertNotificationsKeeps(next, payload[1..], uuid, start + 1, uuid(start));
    } else {
      assert payload[1..][k - 1] == payload[k];
      InsertNotificationsAdds(next, payload[1..], uuid, start + 1, k - 1);
      assert start + 1 + (k - 1) == start + k;
    }
  }

  /** With distinct fresh ids that avoid the table, it grows by exactly one row per item. */
  lemma {:induction false} InsertNotificationsSize(table: map<Id, Row>, payload: seq<Value>, uuid: nat -> Id, start: nat)
    requires forall i, j :: start <= i < j < start + |payload| ==> uuid(i) != uuid(j)
    requires forall i :: start <= i < start + |payload| ==> uuid(i) !in table
    ensures |InsertNotifications(table, payload, uuid, start)| == |table| + |payload|
    decreases |payload|
  {
    if payload != [] {
      var next := table[uuid(start) := NotificationRow(payload[0], uuid(start))];
      forall i | start + 1 <= i < start + 1 + |payload[1..]| ensures uuid(i) !in next {
        assert uuid(i) != uuid(start);
      }
      InsertNotificationsSize(next, payload[1..], uuid, start + 1);
    }
  }

  /** UPDATE notifications SET is_read = 1 WHERE user_id = ?. */
  function MarkAllRead(table: map<Id, Row>, userId: Value): (t: map<Id, Row>)
    ensures t.Keys == table.Keys
    ensures forall id :: id in table && Field(table[id], "user_id") == userId ==> t[id] == table[id]["is_read" := Num(1)]
    ensures forall id :: id in table && Field(table[id], "user_id") != userId ==> t[id] == table[id]
  {
    map id | id in table :: if Field(table[id], "user_id") == userId then table[id]["is_read" := Num(1)] else table[id]
  }

  // ---------------------------------------------------------------------------------------------
  // Sessions

  datatype Session = Session(userId: Id, createdAt: int)

  /** getSessionUserId: no cookie (or an empty one) or an unknown token gives null. `createdAt` is never read. */
  function LookupSession(sessions: map<Token, Session>, cookie: Option<string>): (r: Option<Id>)
    ensures r.Some? <==> cookie.Some? && cookie.value != "" && cookie.value in sessions
    ensures r.Some? ==> r.value == sessions[cookie.value].userId
  {
    if cookie.None? || cookie.value == "" then None
    else if cookie.value in sessions then Some(sessions[cookie.value].userId)
    else None
  }

  lemma LookupAfterCreate(sessions: map<Token, Session>, token: Token, userId: Id, now: int, cookie: Option<string>)
    requires token != ""
    ensures LookupSession(sessions[token := Session(userId, now)], Some(token)) == Some(userId)
    ensures cookie != Some(token) ==>
      LookupSession(sessions[token := Session(userId, now)], cookie) == LookupSession(sessions, cookie)
  {
  }

  lemma LookupAfterLogout(sessions: map<Token, Session>, token: Token, cookie: Option<string>)
    ensures LookupSession(sessions - {token}, Some(token)) == None
    ensures cookie != Some(token) ==> LookupSession(sessions - {token}, cookie) == LookupSession(sessions, cookie)
  {
  }

  /** Sessions never expire: the lookup is the same whatever the creation time. */
  lemma SessionsDoNotExpire(sessions: map<Token, Session>, token: Token, userId: Id, t1: int, t2: int, cookie: Option<string>)
    ensures LookupSession(sessions[token := Session(userId, t1)], cookie)
         == LookupSession(sessions[token := Session(userId, t2)], cookie)
  {
  }

  /** The `{ user, profile }` body that login and GET /auth/session return. */
  function AccountBody(id: Id, user: Row, profile: Row): Value {
    Obj(map[
      "user" := Obj(map["id" := Str(id), "email" := Field(user, "email")]),
      "profile" := Obj(map["id" := Str(id), "email" := Field(user, "email"),
                           "full_name" := Field(profile, "full_name"), "role" := Field(profile, "role")])])
  }

  /** GET /auth/session. */
  function SessionResponse(users: map<Id, Row>, profiles: map<Id, Row>, sessions: map<Token, Session>,
                           cookie: Option<string>): Value
  {
    match LookupSession(sessions, cookie)
    case None => Null
    case Some(uid) =>
      if uid == "" then Null
      else if uid in users && uid in profiles then AccountBody(uid, users[uid], profiles[uid])
      else Null
  }

  /** After a login stored `token` for a user, GET /auth/session with that cookie returns the login body. */
  lemma SessionAfterLogin(users: map<Id, Row>, profiles: map<Id, Row>, sessions: map<Token, Session>,
                          token: Token, uid: Id, now: int)
    requires token != "" && uid != "" && uid in users && uid in profiles
    ensures SessionResponse(users, profiles, sessions[token := Session(uid, now)], Some(token))
         == AccountBody(uid, users[uid], profiles[uid])
  {
  }

  /** A user row can log in with `email`: it has that email and a profile (the JOIN). */
  predicate AccountFor(users: map<Id, Row>, profiles: map<Id, Row>, id: Id, email: Value) {
    id in users && id in profiles && Field(users[id], "email") == email
  }

  /** The body's email and password are truthy, and they match account `id`. */
  predicate CredentialsMatch(users: map<Id, Row>, profiles: map<Id, Row>, body: Value,
                             passwordMatches: (Value, Value) -> bool, id: Id)
  {
    && Truthy(Get(body, "email")) && Truthy(Get(body, "password"))
    && AccountFor(users, profiles, id, Get(body, "email"))
    && passwordMatches(Get(body, "password"), Field(users[id], "password_hash"))
  }

  /** At most one account has this email (the users.email column is unique). */
  ghost predicate EmailUnique(users: map<Id, Row>, profiles: map<Id, Row>, email: Value) {
    forall a, b :: AccountFor(users, profiles, a, email) && AccountFor(users, profiles, b, email) ==> a == b
  }

  // ---------------------------------------------------------------------------------------------
  // The server state: the tables and the module-level session Map.

  class Backend {
    var users: map<Id, Row>
    var profiles: map<Id, Row>
    var prospects: map<Id, Row>
    var followUps: map<Id, Row>
    var notifications: map<Id, Row>
    var sessions: map<Token, Session>

    constructor ()
      ensures users == map[] && profiles == map[] && prospects == map[]
      ensures followUps == map[] && notifications == map[] && sessions == map[]
    {
      users, profiles, prospects := map[], map[], map[];
      followUps, notifications, sessions := map[], map[], map[];
    }

    /** createSession: the token is a fresh UUID supplied by the caller. */
    method CreateSession(userId: Id, token: Token, now: int) returns (t: Token)
      modifies this`sessions
      ensures t == token
      ensures sessions == old(sessions)[token := Session(userId, now)]
    {
      sessions := sessions[token := Session(userId, now)];
      t := token;
    }

    function SessionUserId(cookie: Option<string>): (r: Option<Id>)
      reads this
      ensures r.Some? ==> cookie.Some? && cookie.value in sessions && r.value == sessions[cookie.value].userId
      ensures cookie.None? ==> r.None?
    {
      LookupSession(sessions, cookie)
    }

    /** POST /auth/logout: deletes the cookie's token when there is one; always 204. */
    method Logout(cookie: Option<string>) returns (res: Response)
      modifies this`sessions
      ensures res == NoContent
      ensures cookie.Some? && cookie.value != "" ==> sessions == old(sessions) - {cookie.value}
      ensures cookie.None? || cookie.value == "" ==> sessions == old(sessions)
    {
      if cookie.Some? && cookie.value != "" {
        sessions := sessions - {cookie.value};
      }
      res := NoContent;
    }

    /** POST /auth/login. An unknown email and a wrong password give the same 401. */
    method Login(body: Value, passwordMatches: (Value, Value) -> bool, token: Token, now: int)
      returns (res: Response)
      modifies this`sessions
      ensures res.status == 200 || res == Error(400, LoginMissingText) || res == Error(401, LoginFailedText)
      ensures res.status == 400 <==> !Truthy(Get(body, "email")) || !Truthy(Get(body, "password"))
      ensures res.status != 200 ==> sessions == old(sessions)
      ensures res.status == 200 ==>
        exists id :: CredentialsMatch(users, profiles, body, passwordMatches, id)
          && sessions == old(sessions)[token := Session(id, now)]
          && res == Response(200, AccountBody(id, users[id], profiles[id]))
      ensures (EmailUnique(users, profiles, Get(body, "email"))
               && exists id :: CredentialsMatch(users, profiles, body, passwordMatches, id)) ==> res.status == 200
    {
      var email := Get(body, "email");
      var password := Get(body, "password");
      if !Truthy(email) || !Truthy(password) {
        res := Error(400, LoginMissingText);
        return;
      }
      var candidates := set id | id in users && id in profiles && Field(users[id], "email") == email;
      if candidates == {} {
        res := Error(401, LoginFailedText);
        assert forall id :: AccountFor(users, profiles, id, email) ==> id in candidates;
        return;
      }
      var uid :| uid in candidates;
      assert AccountFor(users, profiles, uid, email);
      if !passwordMatches(password, Field(users[uid], "password_hash")) {
        res := Error(401, LoginFailedText);
        return;
      }
      var t := CreateSession(uid, token, now);
      res := Response(200, AccountBody(uid, users[uid], profiles[uid]));
      assert CredentialsMatch(users, profiles, body, passwordMatches, uid);
    }

    /** POST /profiles: one transaction inserting the user (with the password hash) and its profile. */
    method PostProfile(body: Value, id: Id, hash: Value -> Value) returns (res: Response)
      modifies this`users, this`profiles
      ensures !ProfileComplete(body) ==>
        res == Error(400, ProfileIncompleteText) && users == old(users) && profiles == old(profiles)
      ensures ProfileComplete(body) ==>
        && users == old(users)[id := UserRow(body, id, hash)]
        && profiles == old(profiles)[id := ProfileRow(body, id)]
        && res == Response(201, Obj(ProfileRow(body, id)))
    {
      if !ProfileComplete(body) {
        res := Error(400, ProfileIncompleteText);
        return;
      }
      users := users[id := UserRow(body, id, hash)];
      profiles := profiles[id := ProfileRow(body, id)];
      res := Response(201, Obj(ProfileRow(body, id)));
    }

    /** PUT /profiles/:id: truthy full_name/email/role only; an email change reaches users and profiles
        in the same transaction. */
    method PutProfile(id: Id, body: Value) returns (res: Response, stmts: seq<Statement>)
      modifies this`users, this`profiles
      ensures ProfileChanges(body) == [] ==>
        res == Error(400, NothingToUpdateText) && stmts == [] && users == old(users) && profiles == old(profiles)
      ensures ProfileChanges(body) != [] ==>
        && users == (if Truthy(Get(body, "email")) then SetEmail(old(users), id, Get(body, "email")) else old(users))
        && profiles == PatchTable(old(profiles), id, ProfileChanges(body), body)
        && stmts == ProfileStatements(id, body)
        && res == Response(200, if id in profiles then Obj(profiles[id]) else Undefined)
    {
      var columns := ProfileChanges(body);
      if |columns| == 0 {
        res := Error(400, NothingToUpdateText);
        stmts := [];
        return;
      }
      var email := Get(body, "email");
      if Truthy(email) {
        users := SetEmail(users, id, email);
      }
      profiles := PatchTable(profiles, id, columns, body);
      stmts := ProfileStatements(id, body);
      res := Response(200, if id in profiles then Obj(profiles[id]) else Undefined);
    }

    /** POST /prospects. */
    method PostProspect(body: Value, id: Id) returns (res: Response)
      modifies this`prospects
      ensures ProspectInsert(body, id).None? ==>
        res == Error(400, ProspectIncompleteText) && prospects == old(prospects)
      ensures ProspectInsert(body, id).Some? ==>
        prospects == old(prospects)[id := ProspectInsert(body, id).value]
        && res == Response(201, Obj(ProspectInsert(body, id).value))
    {
      var row := ProspectInsert(body, id);
      if row.None? {
        res := Error(400, ProspectIncompleteText);
        return;
      }
      prospects := prospects[id := row.value];
      res := Response(201, Obj(row.value));
    }

    /** PUT /prospects/:id. */
    method PutProspect(id: Id, body: Value) returns (res: Response, stmts: seq<Statement>)
      modifies this`prospects
      ensures SuppliedFields(ProspectFields, body) == [] ==>
        res == Error(400, NothingToUpdateText) && stmts == [] && prospects == old(prospects)
      ensures SuppliedFields(ProspectFields, body) != [] ==>
        && prospects == PatchTable(old(prospects), id, SuppliedFields(ProspectFields, body), body)
        && stmts == [UpdateStatement("prospects", ProspectFields, body, id), SelectById("prospects", id)]
        && res == Response(200, if id in prospects then Obj(prospects[id]) else Undefined)
    {
      var updates, values := BuildSetClauses(ProspectFields, body);
      if |updates| == 0 {
        res := Error(400, NothingToUpdateText);
        stmts := [];
        return;
      }
      stmts := [UpdateSql("prospects", updates, values, id), SelectById("prospects", id)];
      prospects := PatchTable(prospects, id, SuppliedFields(ProspectFields, body), body);
      res := Response(200, if id in prospects then Obj(prospects[id]) else Undefined);
    }

    /** POST /follow-ups. */
    method PostFollowUp(body: Value, id: Id) returns (res: Response)
      modifies this`followUps
      ensures FollowUpInsert(body, id).None? ==>
        res == Error(400, FollowUpIncompleteText) && followUps == old(followUps)
      ensures FollowUpInsert(body, id).Some? ==>
        followUps == old(followUps)[id := FollowUpInsert(body, id).value]
        && res == Response(201, Obj(FollowUpInsert(body, id).value))
    {
      var row := FollowUpInsert(body, id);
      if row.None? {
        res := Error(400, FollowUpIncompleteText);
        return;
      }
      followUps := followUps[id := row.value];
      res := Response(201, Obj(row.value));
    }

    /** PUT /follow-ups/:id. */
    method PutFollowUp(id: Id, body: Value) returns (res: Response, stmts: seq<Statement>)
      modifies this`followUps
      ensures SuppliedFields(FollowUpFields, body) == [] ==>
        res == Error(400, NothingToUpdateText) && stmts == [] && followUps == old(followUps)
      ensures SuppliedFields(FollowUpFields, body) != [] ==>
        && followUps == PatchTable(old(followUps), id, SuppliedFields(FollowUpFields, body), body)
        && stmts == [UpdateStatement("follow_ups", FollowUpFields, body, id), SelectById("follow_ups", id)]
        && res == Response(200, if id in followUps then Obj(followUps[id]) else Undefined)
    {
      var updates, values := BuildSetClauses(FollowUpFields, body);
      if |updates| == 0 {
        res := Error(400, NothingToUpdateText);
        stmts := [];
        return;
      }
      stmts := [UpdateSql("follow_ups", updates, values, id), SelectById("follow_ups", id)];
      followUps := PatchTable(followUps, id, SuppliedFields(FollowUpFields, body), body);
      res := Response(200, if id in followUps then Obj(followUps[id]) else Undefined);
    }

    /** POST /notifications: a single object is wrapped into a list; an empty list is a 400. A `null`
        item makes `item.user_id` throw before anything is written, and the error handler answers
        500 with the runtime's message. */
    method PostNotifications(body: Value, uuid: nat -> Id) returns (res: Response, stmts: seq<Statement>)
      modifies this`notifications
      ensures NotificationPayload(body) == [] ==>
        res == Error(400, EmptyNotificationsText) && stmts == [] && notifications == old(notifications)
      ensures NotificationPayload(body) != [] && Null in NotificationPayload(body) ==>
        res == Error(500, NullItemText) && stmts == [] && notifications == old(notifications)
      ensures NotificationPayload(body) != [] && Null !in NotificationPayload(body) ==>
        && stmts == [NotificationInsert(NotificationPayload(body), uuid)]
        && notifications == InsertNotifications(old(notifications), NotificationPayload(body), uuid, 0)
        && res == NoContent
    {
      var payload := NotificationPayload(body);
      if |payload| == 0 {
        res := Error(400, EmptyNotificationsText);
        stmts := [];
        return;
      }
      if Null in payload {
        res := Error(500, NullItemText);
        stmts := [];
        return;
      }
      stmts := [NotificationInsert(payload, uuid)];
      notifications := InsertNotifications(notifications, payload, uuid, 0);
      res := NoContent;
    }

    /** POST /notifications/:id/read: only that row changes. */
    method MarkNotificationRead(id: Id) returns (res: Response)
      modifies this`notifications
      ensures id in old(notifications) ==>
        notifications == old(notifications)[id := old(notifications)[id]["is_read" := Num(1)]]
      ensures id !in old(notifications) ==> notifications == old(notifications)
      ensures res == NoContent
    {
      if id in notifications {
        notifications := notifications[id := notifications[id]["is_read" := Num(1)]];
      }
      res := NoContent;
    }

    /** POST /notifications/read-all. */
    method MarkAllNotificationsRead(body: Value) returns (res: Response)
      modifies this`notifications
      ensures !Truthy(Get(body, "user_id")) ==>
        res == Error(400, UserIdBodyRequiredText) && notifications == old(notifications)
      ensures Truthy(Get(body, "user_id")) ==>
        res == NoContent && notifications == MarkAllRead(old(notifications), Get(body, "user_id"))
    {
      var userId := Get(body, "user_id");
      if !Truthy(userId) {
        res := Error(400, UserIdBodyRequiredText);
        return;
      }
      notifications := MarkAllRead(notifications, userId);
      res := NoContent;
    }
  }

  /** The table after `UPDATE ... WHERE id = ?`: only that row changes, and only when it exists. */
  function PatchTable(table: map<Id, Row>, id: Id, columns: seq<string>, body: Value): (t: map<Id, Row>)
    ensures t.Keys == table.Keys
    ensures id in table ==> t[id] == PatchRow(table[id], columns, body)
    ensures forall other :: other in table && other != id ==> t[other] == table[other]
  {
    if id in table then table[id := PatchRow(table[id], columns, body)] else table
  }

  /** `UPDATE users SET email = ? WHERE id = ?`. */
  function SetEmail(users: map<Id, Row>, id: Id, email: Value): (t: map<Id, Row>)
    ensures t.Keys == users.Keys
    ensures id in users ==> t[id].Keys == users[id].Keys + {"email"} && t[id]["email"] == email
    ensures id in users ==> forall c :: c in users[id] && c != "email" ==> t[id][c] == users[id][c]
    ensures forall other :: other in users && other != id ==> t[other] == users[other]
  {
    if id in users then users[id := users[id]["email" := email]] else users
  }

  const SelectProfileSql := "SELECT id, email, full_name, role FROM profiles WHERE id = ? LIMIT 1"
  const UsersEmailUpdateSql := "UPDATE users SET email = ? WHERE id = ?"
  const NotificationsSelectSql := "SELECT * FROM notifications WHERE user_id = ? ORDER BY created_at DESC LIMIT ?"

  function SelectProfile(id: Id): Statement {
    Statement(SelectProfileSql, [Str(id)])
  }

  function UsersEmailUpdate(id: Id, email: Value): Statement {
    Statement(UsersEmailUpdateSql, [email, Str(id)])
  }

  /** The statements of PUT /profiles/:id, in transaction order: the users email first when it changes. */
  function ProfileStatements(id: Id, body: Value): (r: seq<Statement>)
    ensures |r| == if Truthy(Get(body, "email")) then 3 else 2
    ensures Truthy(Get(body, "email")) ==> r[0] == UsersEmailUpdate(id, Get(body, "email"))
    ensures r[|r| - 2].params == BodyValues(ProfileChanges(body), body) + [Str(id)]
  {
    var columns := ProfileChanges(body);
    (if Truthy(Get(body, "email")) then [UsersEmailUpdate(id, Get(body, "email"))] else [])
    + [UpdateSql("profiles", SetClauses(columns), BodyValues(columns, body), id), SelectProfile(id)]
  }

  function UserRow(body: Value, id: Id, hash: Value -> Value): Row {
    map["id" := Str(id), "email" := Get(body, "email"), "password_hash" := hash(Get(body, "password"))]
  }

  function ProfileRow(body: Value, id: Id): Row {
    map["id" := Str(id), "email" := Get(body, "email"), "full_name" := Get(body, "full_name"), "role" := Get(body, "role")]
  }

  /** GET /notifications: userId is required; the limit is `Number(limit || 20)`, and query values
      arrive as text. */
  function NotificationsQuery(userId: Value, limit: Value): (r: Result)
    ensures !Truthy(userId) <==> r.Rejected?
    ensures r.Rejected? ==> r.response == Error(400, UserIdQueryRequiredText)
    ensures r.Query? ==> |r.statement.params| == 2 && r.statement.params[0] == userId
    ensures r.Query? && !Truthy(limit) ==> r.statement.params[1] == Num(20)
    ensures r.Query? && limit.Str? && limit.s != "" ==>
      r.statement.params[1] == (match Strings.ParseNat(limit.s) case Some(n) => Num(n) case None => NaN)
  {
    if !Truthy(userId) then Rejected(Error(400, UserIdQueryRequiredText))
    else Query(Statement(NotificationsSelectSql, [userId, NumberOf(Or(limit, Num(20)))]))
  }

  /** A decimal limit in the query string is bound as that number. */
  lemma NotificationsLimitIsNumber(userId: string, n: nat)
    requires userId != ""
    ensures NotificationsQuery(Str(userId), Str(Strings.NatToString(n))).statement.params == [Str(userId), Num(n)]
  {
    Strings.ParseNatRoundTrip(n);
  }

  datatype Result = Rejected(response: Response) | Query(statement: Statement)
}
