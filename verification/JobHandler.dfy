/** The job handler as the worker runs it, with the rest of the system at work between its calls. */
module JobHandler {
  import opened Wrappers
  import opened Statements
  import opened JobErrors
  import opened CallJournal
  import opened StatementRepository
  import opened Interference

  datatype Disposition = Ack | Retry | Thrown

  /** What the calls of one handler execution come to. */
  datatype Script = Script(
    claim: Fate,
    findThrows: bool,
    download: Result<bool, JobError>,          // Success: do type and length match the statement?
    analysis: Result<seq<Transaction>, JobError>,
    saveFaults: Faults,
    mark: Fate)

  predicate Settled(rows: Rows, id: StatementId) {
    id !in rows || Terminal(rows[id].status)
  }

  /** The error download and analysis come to, with its stage. */
  function Met(script: Script): Option<(Stage, JobError)> {
    if script.download.Failure? then Some((ObjectStore, script.download.error))
    else if !script.download.value then Some((ObjectStore, InvalidSourceObjectError))
    else if script.analysis.Failure? then Some((Ocr, script.analysis.error))
    else None
  }

  function Verdict(script: Script): Classification
    requires Met(script).Some?
  {
    Classify(Met(script).value.0, Met(script).value.1)
  }

  /**
   The writes of a handler: one claim, and only after a claim that was granted and heard of at most one
   more: the save of the analysis, or the failure mark with the code of the permanent error that was met.
   */
  predicate HandlerCalls(own: seq<Entry>, id: StatementId, token: Token, script: Script) {
    && 1 <= |own| <= 2
    && own[0].Claimed? && own[0].id == id && own[0].token == token
    && (|own| == 2 <==>
      own[0].took && script.claim == Succeeds &&
      (Met(script).None? || (Verdict(script).Permanent? && script.mark != Fails)))
    && (|own| == 2 && Met(script).None? ==>
      own[1].Saved? && own[1].id == id && own[1].token == token && own[1].lines == script.analysis.value)
    && (|own| == 2 && Met(script).Some? ==>
      own[1].FailureMarked? && own[1].id == id && own[1].token == token && own[1].code == Verdict(script).code)
  }

  /** Download and analysis: where they have ended, and how. */
  method Process(repo: Repository, script: Script) returns (met: Option<(Stage, JobError)>)
    modifies repo
    ensures met == Met(script)
    ensures Progresses(old(repo.rows), old(repo.transactions), repo.rows, repo.transactions)
  {
    Others(repo);
    if script.download.Failure? { return Some((ObjectStore, script.download.error)); }
    if !script.download.value { return Some((ObjectStore, InvalidSourceObjectError)); }
    Others(repo);
    if script.analysis.Failure? { return Some((Ocr, script.analysis.error)); }
    met := None;
  }

  /** A claim that was refused: acknowledge what is settled by now, leave the rest to another delivery. */
  method ResolveUnclaimed(repo: Repository, id: StatementId, findThrows: bool) returns (d: Disposition)
    modifies repo
    ensures Progresses(old(repo.rows), old(repo.transactions), repo.rows, repo.transactions)
    ensures d == if !findThrows && Settled(repo.rows, id) then Ack else Retry
  {
    Others(repo);
    if findThrows { return Retry; }
    var row := repo.FindById(id);
    d := if row.None? || Terminal(row.value.status) then Ack else Retry;
  }

  /** The save; an error of the database stage is always left to another delivery. */
  method SaveAnalysis(repo: Repository, id: StatementId, token: Token, lines: seq<Transaction>, now: Time, faults: Faults)
    returns (d: Disposition)
    modifies repo, repo.journal
    ensures Progresses(old(repo.rows), old(repo.transactions), repo.rows, repo.transactions)
    ensures repo.journal.entries == old(repo.journal.entries) + [Saved(id, token, lines, true)]
         || repo.journal.entries == old(repo.journal.entries) + [Saved(id, token, lines, false)]
    ensures d ==
      if repo.journal.entries == old(repo.journal.entries) + [Saved(id, token, lines, true)] && Heard(faults, lines) then Ack else Retry
    ensures d == Ack ==>
      && repo.journal.entries == old(repo.journal.entries) + [Saved(id, token, lines, true)]
      && id in repo.rows && repo.rows[id].status == Completed && Stores(LinesOf(repo.transactions, id), lines)
  {
    Others(repo);
    ghost var before := LinesOf(repo.transactions, id);
    var r := repo.SaveTransactionsAndComplete(id, token, lines, now, faults);
    if r.Success? {
      UpsertAllOver(before, lines);
      return Ack;
    }
    assert Heard(faults, lines) ==> !repo.journal.entries[|repo.journal.entries| - 1].took;
    var error := if r.error == ClaimLost then ClaimLostError else OtherError;
    d := if Classify(Database, error).Retryable? then Retry else Thrown;
  }

  /** Every line is stored as it was analyzed. */
  predicate Stores(stored: Lines, lines: seq<Transaction>) {
    forall k :: k in UpsertAll(map[], lines) ==> k in stored && stored[k] == UpsertAll(map[], lines)[k]
  }

  /** The failure mark of a permanent error. */
  method FailJob(repo: Repository, id: StatementId, token: Token, code: FailureCode, now: Time, mark: Fate) returns (d: Disposition)
    modifies repo, repo.journal
    ensures Progresses(old(repo.rows), old(repo.transactions), repo.rows, repo.transactions)
    ensures mark == Fails ==> repo.journal.entries == old(repo.journal.entries) && d == Thrown
    ensures mark != Fails ==>
      || (repo.journal.entries == old(repo.journal.entries) + [FailureMarked(id, token, code, true)]
          && d == (if mark == Succeeds then Ack else Thrown)
          && id in repo.rows && repo.rows[id].status == Failed && repo.rows[id].failure == Some(code))
      || (repo.journal.entries == old(repo.journal.entries) + [FailureMarked(id, token, code, false)]
          && d == (if mark == Succeeds then Retry else Thrown))
  {
    Others(repo);
    if mark == Fails { return Thrown; }
    var marked := repo.MarkFailed(id, token, code, now);
    if mark == FailsAfterEffect { return Thrown; }
    d := if marked then Ack else Retry;
  }

  /** What the tables hold when a job is acknowledged after a write. */
  predicate Outcome(writes: seq<Entry>, rows: Rows, table: Table, id: StatementId) {
    && |writes| == 1 && !writes[0].JobSent? && writes[0].took && id in rows
    && (writes[0].Saved? ==> rows[id].status == Completed && Stores(LinesOf(table, id), writes[0].lines))
    && (writes[0].FailureMarked? ==> rows[id].status == Failed && rows[id].failure == Some(writes[0].code))
  }

  /** The answer after a granted claim that was heard of. */
  function AnswerToWork(writes: seq<Entry>, script: Script): Disposition
    requires Met(script).None? ==> |writes| == 1 && writes[0].Saved?
    requires Met(script).Some? && Verdict(script).Permanent? && script.mark == Succeeds ==> |writes| == 1 && writes[0].FailureMarked?
  {
    if Met(script).None? then (if writes[0].took && Heard(script.saveFaults, script.analysis.value) then Ack else Retry)
    else if Verdict(script).Retryable? then Retry
    else if script.mark != Succeeds then Thrown
    else if writes[0].took then Ack
    else Retry
  }

  /**
   The answer to a job, by the writes made for it and by whether the statement is settled in the end:
   thrown is only the failure to mark a permanent error, and what took effect and was heard is
   acknowledged.
   */
  function AnswerTo(own: seq<Entry>, settled: bool, id: StatementId, token: Token, script: Script): Disposition
    requires own == [] || HandlerCalls(own, id, token, script)
  {
    if own == [] || script.claim != Succeeds then Retry
    else if own[0].took then AnswerToWork(own[1..], script)
    else if settled && !script.findThrows then Ack
    else Retry
  }

  /** The outcome of a granted claim that was heard of. */
  method WorkOn(repo: Repository, id: StatementId, token: Token, now: nat -> Time, script: Script) returns (d: Disposition)
    modifies repo, repo.journal
    ensures Progresses(old(repo.rows), old(repo.transactions), repo.rows, repo.transactions)
    ensures old(repo.journal.entries) <= repo.journal.entries
    ensures |Own(repo.journal)| <= 1
    ensures |Own(repo.journal)| == 1 <==> Met(script).None? || (Verdict(script).Permanent? && script.mark != Fails)
    ensures Met(script).None? ==>
      || Own(repo.journal) == [Saved(id, token, script.analysis.value, true)]
      || Own(repo.journal) == [Saved(id, token, script.analysis.value, false)]
    ensures |Own(repo.journal)| == 1 && Met(script).Some? ==>
      || Own(repo.journal) == [FailureMarked(id, token, Verdict(script).code, true)]
      || Own(repo.journal) == [FailureMarked(id, token, Verdict(script).code, false)]
    ensures d == AnswerToWork(Own(repo.journal), script)
    ensures d == Ack ==> Outcome(Own(repo.journal), repo.rows, repo.transactions, id)
  {
    var met := Process(repo, script);
    if met.None? {
      d := SaveAnalysis(repo, id, token, script.analysis.value, now(1), script.saveFaults);
      return;
    }
    var verdict := Classify(met.value.0, met.value.1);
    if verdict.Retryable? { return Retry; }
    d := FailJob(repo, id, token, verdict.code, now(2), script.mark);
  }

  /**
   The handler writes what HandlerCalls allows. It acknowledges only what is settled: a statement it
   completed with exactly the analyzed lines, or failed with the code of the error it met, or found
   settled; and it does acknowledge jobs delivered again after that, without touching the statement.
   */
  method HandleJob(repo: Repository, id: StatementId, token: Token, leaseSeconds: int, now: nat -> Time, script: Script)
    returns (d: Disposition)
    modifies repo, repo.journal
    ensures Progresses(old(repo.rows), old(repo.transactions), repo.rows, repo.transactions)
    ensures old(repo.journal.entries) <= repo.journal.entries
    ensures if leaseSeconds <= 0 || script.claim == Fails
            then Own(repo.journal) == []
            else HandlerCalls(Own(repo.journal), id, token, script)
    ensures Own(repo.journal) != [] ==>
      (Own(repo.journal)[0].took <==> id in old(repo.rows) && Claimable(old(repo.rows)[id], now(0)))
    ensures d == AnswerTo(Own(repo.journal), Settled(repo.rows, id), id, token, script)
    ensures d == Ack ==> Settled(repo.rows, id)
    ensures d == Ack && |Own(repo.journal)| == 2 ==> Outcome(Own(repo.journal)[1..], repo.rows, repo.transactions, id)
    ensures id in old(repo.rows) && Terminal(old(repo.rows)[id].status) ==>
      && id in repo.rows && repo.rows[id] == old(repo.rows)[id]
      && LinesOf(repo.transactions, id) == LinesOf(old(repo.transactions), id)
      && (leaseSeconds > 0 && script.claim == Succeeds && !script.findThrows ==> d == Ack && |Own(repo.journal)| == 1)
    ensures id !in old(repo.rows) && id !in repo.rows && leaseSeconds > 0 && script.claim == Succeeds && !script.findThrows ==>
      d == Ack && |Own(repo.journal)| == 1
  {
    if script.claim == Fails { return Retry; }
    var claimed := repo.ClaimForProcessing(id, token, leaseSeconds, now(0));
    if claimed.Failure? || script.claim == FailsAfterEffect { return Retry; }
    if claimed.value.None? {
      d := ResolveUnclaimed(repo, id, script.findThrows);
      return;
    }
    d := WorkOn(repo, id, token, now, script);
  }
}
