/**
 The rows of the statements and transactions tables, and the effect each SQL statement of
 the repository has on them. A conditional UPDATE yields None when its WHERE clause rejects
 the row. NOW() is a parameter: PostgreSQL fixes it when the transaction starts, which can be
 long before the row is reached.
 */
module Statements {
  import opened Wrappers

  type StatementId = nat
  type Token = nat
  type Time = nat

  // Instants are counted in microseconds, the resolution of timestamptz.
  const SECOND: nat := 1_000_000

  datatype Status = UploadPending | Uploaded | Queued | Processing | Completed | Failed

  datatype FailureCode =
    | SourceObjectNotFound
    | SourceObjectInvalid
    | UnsupportedImage
    | InvalidOcrResponse
    | OcrNonRetryable
    | ProcessingFailed

  datatype Row = Row(
    status: Status,
    startedAt: Option<Time>,
    lease: Option<Time>,
    token: Option<Token>,
    processedAt: Option<Time>,
    failure: Option<FailureCode>)

  type Rows = map<StatementId, Row>
  type Lines = map<nat, Transaction>
  type Table = map<StatementId, Lines>

  const NEW_ROW := Row(UploadPending, None, None, None, None, None)

  predicate Terminal(status: Status) {
    status == Completed || status == Failed
  }

  // ---- the conditional updates ----

  function UploadedRow(row: Row): Option<Row> {
    if row.status == UploadPending then Some(row.(status := Uploaded)) else None
  }

  function QueuedRow(row: Row): Option<Row> {
    if row.status == Uploaded then Some(row.(status := Queued)) else None
  }

  function ResetRow(row: Row): Option<Row> {
    if row.status == Queued then Some(row.(status := Uploaded)) else None
  }

  predicate Claimable(row: Row, now: Time) {
    || row.status == Queued
    || (row.status == Processing && row.lease.Some? && row.lease.value < now)
  }

  function ClaimedRow(row: Row, token: Token, leaseSeconds: nat, now: Time): Option<Row> {
    if Claimable(row, now) then
      Some(row.(
        status := Processing,
        startedAt := Some(now),
        lease := Some(now + leaseSeconds * SECOND),
        token := Some(token)))
    else
      None
  }

  /** The caller still owns the row: the guard of completion, of failure and of the row lock. */
  predicate Holds(row: Row, token: Token, now: Time) {
    && row.status == Processing
    && row.token == Some(token)
    && row.lease.Some?
    && row.lease.value > now
  }

  function FailedRow(row: Row, token: Token, code: FailureCode, now: Time): Option<Row> {
    if Holds(row, token, now) then
      Some(row.(
        status := Failed,
        failure := Some(code),
        processedAt := None,
        lease := None,
        token := None))
    else
      None
  }

  function CompletedRow(row: Row, token: Token, now: Time): Option<Row> {
    if Holds(row, token, now) then
      Some(row.(
        status := Completed,
        processedAt := Some(now),
        lease := None,
        token := None,
        failure := None))
    else
      None
  }

  // ---- the tables ----

  function Updated(rows: Rows, id: StatementId, row: Option<Row>): Rows {
    if row.Some? then rows[id := row.value] else rows
  }

  function LinesOf(table: Table, id: StatementId): Lines {
    if id in table then table[id] else map[]
  }

  /** INSERT ... ON CONFLICT (statement_id, line_number) DO UPDATE, once per transaction in order. */
  function UpsertAll(lines: Lines, txs: seq<Transaction>): Lines {
    if txs == [] then lines
    else
      var last := txs[|txs| - 1];
      UpsertAll(lines, txs[..|txs| - 1])[last.line := last]
  }

  predicate DistinctLines(txs: seq<Transaction>) {
    forall i, j :: 0 <= i < j < |txs| ==> txs[i].line != txs[j].line
  }

  const MAX_LINES: nat := 100
  const MAX_AMOUNT: int := 100_000_000

  /** What an analysis may hand to the save: the schemas of the OCR result let nothing else through. */
  predicate Analyzable(txs: seq<Transaction>) {
    && |txs| <= MAX_LINES && DistinctLines(txs)
    && forall i :: 0 <= i < |txs| ==> 1 <= txs[i].line <= MAX_LINES && -MAX_AMOUNT <= txs[i].amount <= MAX_AMOUNT
  }

  /**
   What the tables keep however the system goes on: statements are never removed, none returns to
   waiting for its upload, and terminal statements keep their row and their lines.
   */
  predicate Progresses(rows: Rows, table: Table, laterRows: Rows, laterTable: Table) {
    forall id {:trigger id in rows} {:trigger id in laterRows} :: id in rows ==> StatementProgresses(rows, table, laterRows, laterTable, id)
  }

  predicate StatementProgresses(rows: Rows, table: Table, laterRows: Rows, laterTable: Table, id: StatementId)
    requires id in rows
  {
    && id in laterRows
    && (rows[id].status != UploadPending ==> laterRows[id].status != UploadPending)
    && (Terminal(rows[id].status) ==> laterRows[id] == rows[id] && LinesOf(laterTable, id) == LinesOf(table, id))
  }

  /** With distinct line numbers, upserting into an empty table stores every transaction, and nothing else. */
  lemma {:induction false} UpsertAllStoresEach(txs: seq<Transaction>)
    requires DistinctLines(txs)
    ensures forall i :: 0 <= i < |txs| ==> txs[i].line in UpsertAll(map[], txs) && UpsertAll(map[], txs)[txs[i].line] == txs[i]
    ensures forall k :: k in UpsertAll(map[], txs) ==> exists i :: 0 <= i < |txs| && txs[i].line == k
    ensures |UpsertAll(map[], txs)| == |txs|
  {
    if txs == [] {
    } else {
      var front, last := txs[..|txs| - 1], txs[|txs| - 1];
      UpsertAllStoresEach(front);
      assert forall i :: 0 <= i < |front| ==> front[i] == txs[i];
      var m := UpsertAll(map[], front);
      assert last.line !in m;
      assert m[last.line := last].Keys == m.Keys + {last.line};
      assert |m[last.line := last].Keys| == |m.Keys| + 1;
    }
  }

  lemma UpsertStep(lines: Lines, txs: seq<Transaction>, k: nat)
    requires k < |txs|
    ensures UpsertAll(lines, txs[..k + 1]) == UpsertAll(lines, txs[..k])[txs[k].line := txs[k]]
  {
    assert txs[..k + 1][..k] == txs[..k];
  }

  /** Lines that were there before an upsert never hide what the upsert writes. */
  lemma {:induction false} UpsertAllOver(lines: Lines, txs: seq<Transaction>)
    ensures forall k :: k in UpsertAll(map[], txs) ==>
      k in UpsertAll(lines, txs) && UpsertAll(lines, txs)[k] == UpsertAll(map[], txs)[k]
  {
    if txs == [] {
    } else {
      UpsertAllOver(lines, txs[..|txs| - 1]);
    }
  }
}
