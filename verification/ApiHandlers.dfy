/**
 The requests that move a statement towards the worker: creation, upload completion and analysis.
 What a request does is stated over the journal of its own calls; the rest of the system is at work
 between them.
 */
module ApiHandlers {
  import opened Wrappers
  import opened Statements
  import opened CallJournal
  import opened StatementRepository
  import opened JobQueue
  import opened Interference

  datatype Conflict = StatementConflict | NotUploadable | MetadataMismatch | NotReady | NotAnalyzable | AnalyzeConflict

  /** 200, 201, 202, 400, 404, 409 and 503. */
  datatype Response =
    | Ok(status: Status)
    | Created(status: Status)
    | Accepted(status: Status)
    | InvalidRequest
    | StatementMissing
    | UploadMissing
    | Refused(conflict: Conflict)
    | Unavailable

  datatype HeadError = ObjectNotFound | HeadFailed

  predicate Has(rows: Rows, id: StatementId, status: Status) {
    id in rows && rows[id].status == status
  }

  /** Creation stores a new statement that waits for its upload, once its upload address is signed. */
  method CreateStatement(repo: Repository, id: StatementId, presignFails: bool, create: Fate) returns (r: Response)
    modifies repo, repo.journal
    ensures Progresses(old(repo.rows), old(repo.transactions), repo.rows, repo.transactions)
    ensures repo.journal.entries == old(repo.journal.entries) +
      (if presignFails || create == Fails then [] else [RowCreated(id, id !in old(repo.rows))])
    ensures repo.transactions == old(repo.transactions)
    ensures repo.rows ==
      if !presignFails && create != Fails && id !in old(repo.rows) then old(repo.rows)[id := NEW_ROW] else old(repo.rows)
    ensures r.Created? <==> !presignFails && create == Succeeds && id !in old(repo.rows)
    ensures r.Created? ==> r.status == UploadPending
    ensures r == Refused(StatementConflict) <==> !presignFails && create == Succeeds && id in old(repo.rows)
    ensures !r.Created? && r != Refused(StatementConflict) ==> r == Unavailable
  {
    if presignFails || create == Fails { return Unavailable; }
    var created := repo.Create(id);
    if create == FailsAfterEffect { return Unavailable; }
    r := if created.Failure? then Refused(StatementConflict) else Created(created.value.status);
  }

  /**
   The request marks the upload exactly when it found the statement waiting and an object of the
   announced type and length in the store; that is its only write. The answer never shows a statement
   that still waits or has failed.
   */
  method CompleteUpload(repo: Repository, id: StatementId, validId: bool, findFails: bool,
                        head: Result<bool, HeadError>, mark: Fate, refindFails: bool)
    returns (r: Response)
    modifies repo, repo.journal
    ensures Progresses(old(repo.rows), old(repo.transactions), repo.rows, repo.transactions)
    ensures old(repo.journal.entries) <= repo.journal.entries
    ensures if validId && !findFails && Has(old(repo.rows), id, UploadPending) && head == Success(true) && mark != Fails
            then Own(repo.journal) == [UploadMarked(id, true)] || Own(repo.journal) == [UploadMarked(id, false)]
            else Own(repo.journal) == []
    ensures r.Ok? ==> r.status != UploadPending && r.status != Failed && id in repo.rows && repo.rows[id].status != UploadPending
    ensures r == Refused(MetadataMismatch) <==>
      head == Success(false) && validId && !findFails && Has(old(repo.rows), id, UploadPending)
    ensures !validId ==> r == InvalidRequest
    ensures validId && findFails ==> r == Unavailable
    ensures validId && !findFails && id !in old(repo.rows) ==> r == StatementMissing
    ensures validId && !findFails && id in old(repo.rows) && old(repo.rows)[id].status != UploadPending ==>
      r == if old(repo.rows)[id].status == Failed then Refused(NotUploadable) else Ok(old(repo.rows)[id].status)
    ensures validId && !findFails && Has(old(repo.rows), id, UploadPending) && head.Failure? ==>
      r == if head.error == ObjectNotFound then UploadMissing else Unavailable
    ensures validId && !findFails && Has(old(repo.rows), id, UploadPending) && head == Success(true) && mark != Succeeds ==>
      r == Unavailable
    ensures Own(repo.journal) == [UploadMarked(id, true)] && mark == Succeeds ==> r == Ok(Uploaded)
    ensures Own(repo.journal) == [UploadMarked(id, false)] && mark == Succeeds ==>
      id in repo.rows && r ==
        if refindFails then Unavailable
        else if repo.rows[id].status == Failed then Refused(NotUploadable)
        else Ok(repo.rows[id].status)
  {
    if !validId { return InvalidRequest; }
    if findFails { return Unavailable; }
    var row := repo.FindById(id);
    if row.None? { return StatementMissing; }
    if row.value.status == Failed { return Refused(NotUploadable); }
    if row.value.status != UploadPending { return Ok(row.value.status); }
    Others(repo);

    if head.Failure? {
      return if head.error == ObjectNotFound then UploadMissing else Unavailable;
    }
    if !head.value { return Refused(MetadataMismatch); }

    if mark == Fails { return Unavailable; }
    var uploaded := repo.MarkUploaded(id);
    if mark == FailsAfterEffect { return Unavailable; }
    if uploaded.None? {
      Others(repo);
      if refindFails { return Unavailable; }
      uploaded := repo.FindById(id);
    }
    if uploaded.None? { return StatementMissing; }
    if uploaded.value.status == Failed { return Refused(NotUploadable); }
    r := Ok(uploaded.value.status);
  }

  /** The calls of an analyze request: it queues; if it heard that it did, it sends; if that was not heard to succeed, it resets. */
  predicate AnalyzeCalls(own: seq<Entry>, id: StatementId, mark: Fate, send: Fate, reset: Fate) {
    && 1 <= |own| <= 3
    && own[0].QueueMarked? && own[0].id == id
    && (|own| > 1 <==> own[0].took && mark == Succeeds)
    && (|own| > 1 ==> own[1] == JobSent(id, send))
    && (|own| > 2 <==> |own| > 1 && send != Succeeds && reset != Fails)
    && (|own| > 2 ==> own[2].QueueReset? && own[2].id == id)
  }

  predicate Sends(own: seq<Entry>, id: StatementId, send: Fate) {
    |own| > 1 && own[1] == JobSent(id, send)
  }

  /** What is answered when the statement could not be queued: what it has become. */
  function Explained(rows: Rows, id: StatementId, refindFails: bool): Response {
    if refindFails then Unavailable
    else if id !in rows then StatementMissing
    else if rows[id].status != Uploaded then Ok(rows[id].status)
    else Refused(AnalyzeConflict)
  }

  /** What is answered for a statement that is not found uploaded. */
  function AnswerAsFound(status: Status): Response {
    match status
    case UploadPending => Refused(NotReady)
    case Failed => Refused(NotAnalyzable)
    case _ => Ok(status)
  }

  /** Queue the statement; if another request was faster, answer with what it has become. */
  method MarkOrExplain(repo: Repository, id: StatementId, mark: Fate, refindFails: bool) returns (took: bool, r: Response)
    requires mark != Fails && id in repo.rows && repo.rows[id].status != UploadPending
    modifies repo, repo.journal
    ensures Progresses(old(repo.rows), old(repo.transactions), repo.rows, repo.transactions)
    ensures repo.journal.entries == old(repo.journal.entries) + [QueueMarked(id, took)]
    ensures id in repo.rows && repo.rows[id].status != UploadPending
    ensures r == if took || mark == FailsAfterEffect then Unavailable else Explained(repo.rows, id, refindFails)
  {
    r := Unavailable;
    var marked := repo.MarkQueued(id);
    took := marked.Some?;
    if mark != FailsAfterEffect && !took {
      Others(repo);
      if refindFails { return false, Unavailable; }
      var again := repo.FindById(id);
      if again.None? { return false, StatementMissing; }
      r := if again.value.status != Uploaded then Ok(again.value.status) else Refused(AnalyzeConflict);
    }
  }

  /** The job of a statement just queued is sent; if that is not heard to succeed the statement is taken back. */
  method SendOrReset(repo: Repository, queue: Queue, id: StatementId, send: Fate, reset: Fate) returns (sent: bool)
    requires queue.journal == repo.journal && id in repo.rows
    modifies repo, queue, repo.journal
    ensures Progresses(old(repo.rows), old(repo.transactions), repo.rows, repo.transactions)
    ensures sent <==> send == Succeeds
    ensures queue.messages == old(queue.messages) + (if send == Fails then [] else [id])
    ensures send == Succeeds || reset == Fails ==>
      repo.journal.entries == old(repo.journal.entries) + [JobSent(id, send)]
    ensures send != Succeeds && reset != Fails ==>
      || repo.journal.entries == old(repo.journal.entries) + [JobSent(id, send), QueueReset(id, true)]
      || repo.journal.entries == old(repo.journal.entries) + [JobSent(id, send), QueueReset(id, false)]
    ensures id in repo.rows && (send != Succeeds && reset != Fails ==> repo.rows[id].status != Queued)
  {
    Others(repo);
    queue.SendAnalyzeJob(id, send);
    if send == Succeeds { return true; }
    Others(repo);
    if reset != Fails {
      var undone := repo.ResetQueuedToUploaded(id);
    }
    sent := false;
  }

  method QueueAndSend(repo: Repository, queue: Queue, id: StatementId, mark: Fate, refindFails: bool, send: Fate, reset: Fate)
    returns (r: Response)
    requires queue.journal == repo.journal && mark != Fails && id in repo.rows && repo.rows[id].status != UploadPending
    modifies repo, queue, repo.journal
    ensures Progresses(old(repo.rows), old(repo.transactions), repo.rows, repo.transactions)
    ensures old(repo.journal.entries) <= repo.journal.entries
    ensures AnalyzeCalls(Own(repo.journal), id, mark, send, reset)
    ensures queue.messages == old(queue.messages) + (if Sends(Own(repo.journal), id, send) && send != Fails then [id] else [])
    ensures r.Accepted? <==> Sends(Own(repo.journal), id, send) && send == Succeeds
    ensures r.Accepted? ==> r.status == Queued
    ensures Sends(Own(repo.journal), id, send) && send != Succeeds ==>
      r == Unavailable && id in repo.rows && (reset != Fails ==> repo.rows[id].status != Queued)
    ensures !Sends(Own(repo.journal), id, send) ==>
      r == if mark == FailsAfterEffect then Unavailable else Explained(repo.rows, id, refindFails)
  {
    var took;
    took, r := MarkOrExplain(repo, id, mark, refindFails);
    if took && mark == Succeeds {
      var sent := SendOrReset(repo, queue, id, send, reset);
      r := if sent then Accepted(Queued) else Unavailable;
    }
  }

  /**
   The request tries to queue exactly the statements it found uploaded. A job is sent only after this
   very request has queued the statement, 202 is answered exactly when that send was heard to succeed,
   and otherwise what the request leaves behind is not a queued statement, except where the reset call
   itself does not get through.
   */
  method Analyze(repo: Repository, queue: Queue, id: StatementId, validId: bool, findFails: bool,
                 mark: Fate, refindFails: bool, send: Fate, reset: Fate)
    returns (r: Response)
    requires queue.journal == repo.journal
    modifies repo, queue, repo.journal
    ensures Progresses(old(repo.rows), old(repo.transactions), repo.rows, repo.transactions)
    ensures old(repo.journal.entries) <= repo.journal.entries
    ensures if validId && !findFails && Has(old(repo.rows), id, Uploaded) && mark != Fails
            then AnalyzeCalls(Own(repo.journal), id, mark, send, reset)
            else Own(repo.journal) == []
    ensures queue.messages == old(queue.messages) + (if Sends(Own(repo.journal), id, send) && send != Fails then [id] else [])
    ensures r.Accepted? <==> Own(repo.journal) == [QueueMarked(id, true), JobSent(id, Succeeds)]
    ensures r.Accepted? ==> r.status == Queued
    ensures Sends(Own(repo.journal), id, send) && send != Succeeds ==>
      r == Unavailable && id in repo.rows && (reset != Fails ==> repo.rows[id].status != Queued)
    ensures r.Ok? ==> !Sends(Own(repo.journal), id, send) && r.status != UploadPending && r.status != Uploaded
    ensures !validId ==> r == InvalidRequest
    ensures validId && findFails ==> r == Unavailable
    ensures validId && !findFails && id !in old(repo.rows) ==> r == StatementMissing
    ensures validId && !findFails && id in old(repo.rows) && old(repo.rows)[id].status != Uploaded ==>
      r == AnswerAsFound(old(repo.rows)[id].status)
    ensures validId && !findFails && Has(old(repo.rows), id, Uploaded) && mark != Succeeds ==> r == Unavailable
    ensures Own(repo.journal) == [QueueMarked(id, false)] && mark == Succeeds ==> r == Explained(repo.rows, id, refindFails)
  {
    if !validId { return InvalidRequest; }
    if findFails { return Unavailable; }
    var row := repo.FindById(id);
    if row.None? { return StatementMissing; }
    if row.value.status == UploadPending { return Refused(NotReady); }
    if row.value.status == Failed { return Refused(NotAnalyzable); }
    if row.value.status != Uploaded { return Ok(row.value.status); }
    Others(repo);
    if mark == Fails { return Unavailable; }
    r := QueueAndSend(repo, queue, id, mark, refindFails, send, reset);
  }
}
