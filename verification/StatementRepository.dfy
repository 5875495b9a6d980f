/** The repository: one method per database operation, over the committed contents of the two tables. */
module StatementRepository {
  import opened Wrappers
  import opened Statements
  import opened CallJournal

  datatype DbError = UniqueViolation | InvalidLease | StatementNotFound | ClaimLost | QueryFailed | RollbackFailed

  datatype Claim = Claim(statementId: StatementId, startedAt: Time, lease: Time, token: Token)

  /**
   Which query of a transaction throws, if any; whether a COMMIT that throws had taken effect all
   the same; and whether the ROLLBACK throws too.
   */
  datatype Faults = Faults(at: Option<nat>, commitLands: bool, rollbackFails: bool)

  const NO_FAULTS := Faults(None, true, false)

  function Thrown(error: DbError, faults: Faults): DbError {
    if faults.rollbackFails then RollbackFailed else error
  }

  /** The number of the COMMIT among the queries of a save: BEGIN, SELECT, one upsert per line, UPDATE, COMMIT. */
  function CommitQuery(txs: seq<Transaction>): nat {
    |txs| + 3
  }

  predicate Throws(faults: Faults, query: nat) {
    faults.at == Some(query)
  }

  /** No query up to the COMMIT throws. */
  predicate Heard(faults: Faults, txs: seq<Transaction>) {
    faults.at.None? || faults.at.value > CommitQuery(txs)
  }

  /** The queries before the COMMIT succeed, and the COMMIT takes effect. */
  predicate Lands(faults: Faults, txs: seq<Transaction>) {
    Heard(faults, txs) || (faults.at.value == CommitQuery(txs) && faults.commitLands)
  }

  class Repository {
    const journal: Journal
    var rows: Rows
    var transactions: Table

    constructor (journal: Journal)
      ensures this.journal == journal && rows == map[] && transactions == map[]
    {
      this.journal := journal;
      rows, transactions := map[], map[];
    }

    method Create(id: StatementId) returns (r: Result<Row, DbError>)
      modifies this, journal
      ensures id in old(rows) ==> r == Failure(UniqueViolation) && rows == old(rows)
      ensures id !in old(rows) ==> r == Success(NEW_ROW) && rows == old(rows)[id := NEW_ROW]
      ensures transactions == old(transactions)
      ensures journal.entries == old(journal.entries) + [RowCreated(id, id !in old(rows))]
      ensures Progresses(old(rows), old(transactions), rows, transactions)
    {
      journal.entries := journal.entries + [RowCreated(id, id !in rows)];
      if id in rows {
        return Failure(UniqueViolation);
      }
      rows := rows[id := NEW_ROW];
      r := Success(NEW_ROW);
    }

    method ClaimForProcessing(id: StatementId, token: Token, leaseSeconds: int, now: Time)
      returns (r: Result<Option<Claim>, DbError>)
      modifies this, journal
      ensures transactions == old(transactions)
      ensures leaseSeconds <= 0 ==> r == Failure(InvalidLease) && rows == old(rows)
      ensures leaseSeconds > 0 ==>
        var row := if id in old(rows) then ClaimedRow(old(rows)[id], token, leaseSeconds, now) else None;
        && rows == Updated(old(rows), id, row)
        && r == Success(if row.Some? then Some(Claim(id, now, now + leaseSeconds * SECOND, token)) else None)
        && journal.entries == old(journal.entries) + [Claimed(id, token, row.Some?)]
      ensures leaseSeconds <= 0 ==> journal.entries == old(journal.entries)
      ensures Progresses(old(rows), old(transactions), rows, transactions)
    {
      if leaseSeconds <= 0 {
        return Failure(InvalidLease);
      }
      journal.entries := journal.entries + [Claimed(id, token, id in rows && Claimable(rows[id], now))];
      if id !in rows || !Claimable(rows[id], now) {
        return Success(None);
      }
      var lease := now + leaseSeconds * SECOND;
      rows := rows[id := rows[id].(status := Processing, startedAt := Some(now), lease := Some(lease), token := Some(token))];
      r := Success(Some(Claim(id, now, lease, token)));
    }

    method FindById(id: StatementId) returns (row: Option<Row>)
      ensures row == if id in rows then Some(rows[id]) else None
    {
      row := if id in rows then Some(rows[id]) else None;
    }

    method MarkUploaded(id: StatementId) returns (row: Option<Row>)
      modifies this, journal
      ensures row == if id in old(rows) then UploadedRow(old(rows)[id]) else None
      ensures rows == Updated(old(rows), id, row) && transactions == old(transactions)
      ensures journal.entries == old(journal.entries) + [UploadMarked(id, row.Some?)]
      ensures Progresses(old(rows), old(transactions), rows, transactions)
    {
      journal.entries := journal.entries + [UploadMarked(id, id in rows && rows[id].status == UploadPending)];
      if id !in rows || rows[id].status != UploadPending {
        return None;
      }
      rows := rows[id := rows[id].(status := Uploaded)];
      row := Some(rows[id]);
    }

    method MarkQueued(id: StatementId) returns (row: Option<Row>)
      modifies this, journal
      ensures row == if id in old(rows) then QueuedRow(old(rows)[id]) else None
      ensures rows == Updated(old(rows), id, row) && transactions == old(transactions)
      ensures journal.entries == old(journal.entries) + [QueueMarked(id, row.Some?)]
      ensures Progresses(old(rows), old(transactions), rows, transactions)
    {
      journal.entries := journal.entries + [QueueMarked(id, id in rows && rows[id].status == Uploaded)];
      if id !in rows || rows[id].status != Uploaded {
        return None;
      }
      rows := rows[id := rows[id].(status := Queued)];
      row := Some(rows[id]);
    }

    method ResetQueuedToUploaded(id: StatementId) returns (row: Option<Row>)
      modifies this, journal
      ensures row == if id in old(rows) then ResetRow(old(rows)[id]) else None
      ensures rows == Updated(old(rows), id, row) && transactions == old(transactions)
      ensures journal.entries == old(journal.entries) + [QueueReset(id, row.Some?)]
      ensures Progresses(old(rows), old(transactions), rows, transactions)
    {
      journal.entries := journal.entries + [QueueReset(id, id in rows && rows[id].status == Queued)];
      if id !in rows || rows[id].status != Queued {
        return None;
      }
      rows := rows[id := rows[id].(status := Uploaded)];
      row := Some(rows[id]);
    }

    method MarkFailed(id: StatementId, token: Token, code: FailureCode, now: Time) returns (marked: bool)
      modifies this, journal
      ensures marked <==> id in old(rows) && Holds(old(rows)[id], token, now)
      ensures rows == Updated(old(rows), id, if id in old(rows) then FailedRow(old(rows)[id], token, code, now) else None)
      ensures transactions == old(transactions)
      ensures journal.entries == old(journal.entries) + [FailureMarked(id, token, code, marked)]
      ensures Progresses(old(rows), old(transactions), rows, transactions)
    {
      journal.entries := journal.entries + [FailureMarked(id, token, code, id in rows && Holds(rows[id], token, now))];
      if id !in rows || !Holds(rows[id], token, now) {
        return false;
      }
      rows := rows[id := rows[id].(status := Failed, failure := Some(code), processedAt := None, lease := None, token := None)];
      marked := true;
    }

    /**
     The save transaction. All or nothing: either the statement is completed and holds exactly the
     upserted lines, or nothing has changed; and the caller hears of success only if it took effect.
     */
    method SaveTransactionsAndComplete(
      id: StatementId, token: Token, txs: seq<Transaction>, now: Time, faults: Faults)
      returns (r: Result<(), DbError>)
      modifies this, journal
      ensures var landed := id in old(rows) && Holds(old(rows)[id], token, now) && Lands(faults, txs);
        && rows == (if landed then Updated(old(rows), id, CompletedRow(old(rows)[id], token, now)) else old(rows))
        && transactions ==
          (if landed then old(transactions)[id := UpsertAll(LinesOf(old(transactions), id), txs)] else old(transactions))
        && (r.Success? <==> landed && Heard(faults, txs))
        && journal.entries == old(journal.entries) + [Saved(id, token, txs, landed)]
      ensures Progresses(old(rows), old(transactions), rows, transactions)
      ensures faults == NO_FAULTS ==>
        r == if id !in old(rows) then Failure(StatementNotFound)
             else if Holds(old(rows)[id], token, now) then Success(())
             else Failure(ClaimLost)
      ensures r.Failure? && faults.rollbackFails ==> r.error == RollbackFailed
    {
      journal.entries := journal.entries +
        [Saved(id, token, txs, id in rows && Holds(rows[id], token, now) && Lands(faults, txs))];
      if Throws(faults, 0) || Throws(faults, 1) {
        return Failure(Thrown(QueryFailed, faults));
      }
      if id !in rows {
        return Failure(Thrown(StatementNotFound, faults));
      }
      var row := rows[id];
      if row.status != Processing || row.token != Some(token) || row.lease.None? || row.lease.value <= now {
        return Failure(Thrown(ClaimLost, faults));
      }

      var pending := LinesOf(transactions, id);
      for k := 0 to |txs|
        invariant rows == old(rows) && transactions == old(transactions)
        invariant journal.entries == old(journal.entries) +
          [Saved(id, token, txs, id in rows && Holds(rows[id], token, now) && Lands(faults, txs))]
        invariant pending == UpsertAll(LinesOf(transactions, id), txs[..k])
        invariant faults.at.Some? ==> faults.at.value >= k + 2
      {
        if Throws(faults, k + 2) {
          return Failure(Thrown(QueryFailed, faults));
        }
        UpsertStep(LinesOf(transactions, id), txs, k);
        pending := pending[txs[k].line := txs[k]];
      }
      assert txs[..|txs|] == txs;

      if Throws(faults, |txs| + 2) {
        return Failure(Thrown(QueryFailed, faults));
      }
      if !Holds(row, token, now) {
        return Failure(Thrown(ClaimLost, faults));
      }
      row := row.(status := Completed, processedAt := Some(now), lease := None, token := None, failure := None);

      if !Throws(faults, CommitQuery(txs)) {
        rows, transactions := rows[id := row], transactions[id := pending];
        return Success(());
      }
      if faults.commitLands {
        rows, transactions := rows[id := row], transactions[id := pending];
      }
      r := Failure(Thrown(QueryFailed, faults));
    }
  }
}
