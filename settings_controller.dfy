/**
 * Per-user settings (backend/src/controllers/settingsController.js):
 * building the dynamic UPDATE of `updateSettings` and the create-if-missing
 * read of `getSettings`. SQL text is not modelled; an UPDATE is its list of
 * `column = $k` assignments, its WHERE placeholder and its bound values.
 * The `user_settings` table is a map from user id to row.
 */
module SettingsController {
  import opened Common

  /** The updatable columns, in the order the controller tests them. */
  const ColumnOrder: seq<string> :=
    ["theme", "notifications_enabled", "email_notifications", "language", "timezone", "settings_data"]

  const ConstraintViolationCode := "23514"

  /** A value bound to a placeholder: verbatim, JSON-serialised, or the user id. */
  datatype Param = Plain(v: Value) | Serialized(v: Value) | UserKey(userId: int)

  /** `column = $placeholder`. */
  datatype Clause = Clause(column: string, placeholder: nat)

  /** `UPDATE user_settings SET assignments WHERE user_id = $wherePlaceholder`. */
  datatype UpdateStatement = UpdateStatement(assignments: seq<Clause>, wherePlaceholder: nat, values: seq<Param>)

  type Row = map<string, Param>

  /** The JSON reply and its status code. */
  datatype Reply = Reply(status: nat, success: bool, message: string, settings: Option<Row>)

  /** The destructured field is not `undefined`; `null` counts as provided. */
  predicate IsProvided(body: Payload, column: string)
  {
    column in body && body[column] != Undefined
  }

  /** What is bound for a provided column: `settings_data` is serialised, the rest verbatim. */
  function ParamFor(body: Payload, column: string): (p: Param)
    requires IsProvided(body, column)
    ensures column == "settings_data" ==> p == Serialized(body[column])
    ensures column != "settings_data" ==> p == Plain(body[column])
  {
    if column == "settings_data" then Serialized(body[column]) else Plain(body[column])
  }

  /** The provided columns among `cols`, in the order of `cols`. */
  function ProvidedColumns(body: Payload, cols: seq<string>): seq<string>
  {
    if cols == [] then []
    else
      var last := cols[|cols| - 1];
      ProvidedColumns(body, cols[..|cols| - 1]) + (if IsProvided(body, last) then [last] else [])
  }

  lemma {:induction false} ProvidedColumnsMembers(body: Payload, cols: seq<string>, c: string)
    ensures c in ProvidedColumns(body, cols) <==> c in cols && IsProvided(body, c)
  {
    if cols != [] {
      ProvidedColumnsMembers(body, cols[..|cols| - 1], c);
      assert cols == cols[..|cols| - 1] + [cols[|cols| - 1]];
    }
  }

  lemma {:induction false} ProvidedColumnsLength(body: Payload, cols: seq<string>)
    ensures |ProvidedColumns(body, cols)| <= |cols|
    ensures |ProvidedColumns(body, cols)| == 0 <==> forall c :: c in cols ==> !IsProvided(body, c)
  {
    if cols != [] {
      ProvidedColumnsLength(body, cols[..|cols| - 1]);
      assert cols == cols[..|cols| - 1] + [cols[|cols| - 1]];
    }
  }

  function ColumnsOf(updates: seq<Clause>): (cols: seq<string>)
    ensures |cols| == |updates|
    ensures forall k :: 0 <= k < |updates| ==> cols[k] == updates[k].column
  {
    seq(|updates|, k requires 0 <= k < |updates| => updates[k].column)
  }

  /** The clauses built so far match the provided columns among the first `j` of `ColumnOrder`. */
  ghost predicate ClausesFor(body: Payload, j: nat, updates: seq<Clause>, values: seq<Param>, paramCount: nat)
    requires j <= |ColumnOrder|
  {
    && ColumnsOf(updates) == ProvidedColumns(body, ColumnOrder[..j])
    && |values| == |updates|
    && paramCount == |updates| + 1
    && forall k :: 0 <= k < |updates| ==>
         updates[k].placeholder == k + 1 && IsProvided(body, updates[k].column) &&
         values[k] == ParamFor(body, updates[k].column)
  }

  /** One of the six `if (field !== undefined)` steps, for `ColumnOrder[j]`. */
  method AddIfProvided(body: Payload, j: nat, updates: seq<Clause>, values: seq<Param>, paramCount: nat)
    returns (updates': seq<Clause>, values': seq<Param>, paramCount': nat)
    requires j < |ColumnOrder|
    requires ClausesFor(body, j, updates, values, paramCount)
    ensures ClausesFor(body, j + 1, updates', values', paramCount')
  {
    var column := ColumnOrder[j];
    updates', values', paramCount' := updates, values, paramCount;
    if IsProvided(body, column) {
      updates' := updates' + [Clause(column, paramCount')];
      paramCount' := paramCount' + 1;
      values' := values' + [ParamFor(body, column)];
    }
    assert ColumnOrder[..j + 1][..j] == ColumnOrder[..j];
    assert ColumnsOf(updates') == ColumnsOf(updates) + (if IsProvided(body, column) then [column] else []);
  }

  /**
   * The SET clauses and values of `updateSettings`: one `col = $k` per provided
   * field in the fixed order, placeholders 1..n, `values[k-1]` bound to clause k.
   */
  method BuildSetClauses(body: Payload) returns (updates: seq<Clause>, values: seq<Param>, paramCount: nat)
    ensures ColumnsOf(updates) == ProvidedColumns(body, ColumnOrder)
    ensures |values| == |updates| && paramCount == |updates| + 1
    ensures forall k :: 0 <= k < |updates| ==>
      updates[k].placeholder == k + 1 && IsProvided(body, updates[k].column) &&
      values[k] == ParamFor(body, updates[k].column)
  {
    updates, values, paramCount := [], [], 1;
    assert ColumnOrder[..0] == [];
    updates, values, paramCount := AddIfProvided(body, 0, updates, values, paramCount);  // theme
    updates, values, paramCount := AddIfProvided(body, 1, updates, values, paramCount);  // notifications_enabled
    updates, values, paramCount := AddIfProvided(body, 2, updates, values, paramCount);  // email_notifications
    updates, values, paramCount := AddIfProvided(body, 3, updates, values, paramCount);  // language
    updates, values, paramCount := AddIfProvided(body, 4, updates, values, paramCount);  // timezone
    updates, values, paramCount := AddIfProvided(body, 5, updates, values, paramCount);  // settings_data
    assert ColumnOrder[..6] == ColumnOrder;
  }

  /** The assignments an UPDATE performs: every provided column gets its bound value. */
  function Assigned(body: Payload): (a: Row)
    ensures forall c :: c in a <==> c in ColumnOrder && IsProvided(body, c)
    ensures forall c :: c in a ==> a[c] == ParamFor(body, c)
  {
    map c | c in ColumnOrder && IsProvided(body, c) :: ParamFor(body, c)
  }

  /** The `user_settings` table. */
  class SettingsTable {
    var rows: map<int, Row>

    constructor(rows0: map<int, Row>)
      ensures rows == rows0
    {
      rows := rows0;
    }
  }

  /**
   * `updateSettings` for user `userId`. `storeError` is the error code the
   * database raises for the UPDATE, if it raises one.
   */
  method UpdateSettings(table: SettingsTable, userId: int, body: Payload, storeError: Option<string>)
    returns (reply: Reply, issued: Option<UpdateStatement>)
    modifies table
    ensures issued.None? <==> forall c :: c in ColumnOrder ==> !IsProvided(body, c)
    ensures issued.None? ==> reply.status == 400 && !reply.success && table.rows == old(table.rows)
    ensures issued.Some? ==>
      var n := |issued.value.assignments|;
      && ColumnsOf(issued.value.assignments) == ProvidedColumns(body, ColumnOrder)
      && |issued.value.values| == n + 1
      && issued.value.wherePlaceholder == n + 1
      && issued.value.values[n] == UserKey(userId)
      && forall k :: 0 <= k < n ==>
           issued.value.assignments[k].placeholder == k + 1 &&
           issued.value.assignments[k].column in Assigned(body) &&
           issued.value.values[k] == Assigned(body)[issued.value.assignments[k].column]
    ensures issued.Some? && storeError == Some(ConstraintViolationCode) ==>
      reply.status == 400 && !reply.success && table.rows == old(table.rows)
    ensures issued.Some? && storeError.Some? && storeError.value != ConstraintViolationCode ==>
      reply.status == 500 && !reply.success && table.rows == old(table.rows)
    ensures issued.Some? && storeError.None? && userId !in old(table.rows) ==>
      reply.status == 404 && !reply.success && table.rows == old(table.rows)
    ensures issued.Some? && storeError.None? && userId in old(table.rows) ==>
      && reply.status == 200 && reply.success
      && table.rows == old(table.rows)[userId := old(table.rows)[userId] + Assigned(body)]
      && reply.settings == Some(table.rows[userId])
  {
    var updates, values, paramCount := BuildSetClauses(body);
    ProvidedColumnsLength(body, ColumnOrder);
    if |updates| == 0 {
      reply := Reply(400, false, "No settings provided to update", None);
      issued := None;
      return;
    }
    forall k | 0 <= k < |updates|
      ensures updates[k].column in ColumnOrder
    {
      ProvidedColumnsMembers(body, ColumnOrder, updates[k].column);
      assert ColumnsOf(updates)[k] == updates[k].column;
    }
    values := values + [UserKey(userId)];
    issued := Some(UpdateStatement(updates, paramCount, values));
    if storeError.Some? {
      if storeError.value == ConstraintViolationCode {
        reply := Reply(400, false, "Invalid setting value provided", None);
      } else {
        reply := Reply(500, false, "Failed to update settings", None);
      }
      return;
    }
    if userId !in table.rows {
      reply := Reply(404, false, "Settings not found", None);
      return;
    }
    table.rows := table.rows[userId := table.rows[userId] + Assigned(body)];
    reply := Reply(200, true, "Settings updated successfully", Some(table.rows[userId]));
  }

  /**
   * The row `INSERT INTO user_settings (user_id) VALUES ($1) RETURNING *`
   * returns: the table's column defaults `defaults`, keyed by the user.
   */
  function InsertedRow(userId: int, defaults: Row): (r: Row)
    ensures "user_id" in r && r["user_id"] == UserKey(userId)
    ensures r.Keys == defaults.Keys + {"user_id"}
    ensures forall c :: c in defaults && c != "user_id" ==> r[c] == defaults[c]
  {
    defaults["user_id" := UserKey(userId)]
  }

  /**
   * `getSettings` for user `userId`: the existing row, or else a freshly
   * inserted one built by `InsertedRow`. `storeFails` is a database error on
   * either statement.
   */
  method GetSettings(table: SettingsTable, userId: int, defaults: Row, storeFails: bool) returns (reply: Reply)
    modifies table
    ensures storeFails ==> reply.status == 500 && !reply.success && table.rows == old(table.rows)
    ensures !storeFails && userId in old(table.rows) ==>
      reply == Reply(200, true, "", Some(old(table.rows)[userId])) && table.rows == old(table.rows)
    ensures !storeFails && userId !in old(table.rows) ==>
      reply == Reply(200, true, "", Some(InsertedRow(userId, defaults))) &&
      table.rows == old(table.rows)[userId := InsertedRow(userId, defaults)]
    ensures !storeFails ==> userId in table.rows && reply.settings == Some(table.rows[userId])
  {
    if storeFails {
      reply := Reply(500, false, "Failed to retrieve settings", None);
      return;
    }
    if userId !in table.rows {
      var row := InsertedRow(userId, defaults);
      table.rows := table.rows[userId := row];
      reply := Reply(200, true, "", Some(row));
      return;
    }
    reply := Reply(200, true, "", Some(table.rows[userId]));
  }

  /** A second `getSettings` finds the row the first one created and inserts nothing. */
  method GetSettingsTwice(table: SettingsTable, userId: int, defaults: Row) returns (first: Reply, second: Reply)
    modifies table
    ensures first == second && first.status == 200
    ensures userId in table.rows && (old(userId in table.rows) ==> table.rows == old(table.rows))
  {
    first := GetSettings(table, userId, defaults, false);
    second := GetSettings(table, userId, defaults, false);
  }
}
