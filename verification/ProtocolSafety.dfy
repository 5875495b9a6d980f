/** Safety of the protocol over every run: exactly-once effect, fencing, the life cycle, and no lost job. */
module ProtocolSafety {
  import opened Wrappers
  import opened Statements
  import opened Protocol
  import opened ProtocolInvariant

  ghost predicate Reachable(s: State) {
    exists init, actions :: Init(init) && Runs(init, actions) && After(init, actions) == s
  }

  lemma {:induction false} RunsKeep(s: State, actions: seq<Action>)
    requires Inv(s) && Runs(s, actions)
    ensures Inv(After(s, actions))
    decreases |actions|
  {
    if actions == [] {
    } else {
      StepKeeps(s, actions[0]);
      RunsKeep(Next(s, actions[0]), actions[1..]);
    }
  }

  lemma ReachableInv(s: State)
    requires Reachable(s)
    ensures Inv(s)
  {
    var init, actions :| Init(init) && Runs(init, actions) && After(init, actions) == s;
    InitInv(init);
    RunsKeep(init, actions);
  }

  // ---- exactly-once effect ----

  /** Attempt a's save for statement sid took effect. */
  predicate Won(s: State, a: nat, sid: StatementId) {
    a < |s.attempts| && s.attempts[a].sid == sid && s.attempts[a].save.Committed?
  }

  /** The committed rows of a statement are, line by line, what attempt a read from the image. */
  ghost predicate StoresExactly(lines: Lines, txs: seq<Transaction>) {
    && |lines| == |txs|
    && forall i :: 0 <= i < |txs| ==> txs[i].line in lines && lines[txs[i].line] == txs[i]
  }

  lemma ExactlyOnce(s: State, sid: StatementId)
    requires Reachable(s) && sid in s.rows
    ensures s.rows[sid].status != Completed ==> LinesOf(s.table, sid) == map[] && forall a :: !Won(s, a, sid)
    ensures s.rows[sid].status == Completed ==>
      exists w: nat ::
        && Won(s, w, sid) && s.attempts[w].claim == Done(true)
        && StoresExactly(LinesOf(s.table, sid), s.attempts[w].lines)
        && forall a :: Won(s, a, sid) ==> a == w
  {
    ReachableInv(s);
    assert RowInv(s, sid);
    forall a | Won(s, a, sid) ensures s.rows[sid].status == Completed && a == s.closer[sid] { WinnerCloses(s, sid, a); }
    if s.rows[sid].status == Completed { CloserWon(s, sid); }
  }

  lemma WinnerCloses(s: State, sid: StatementId, a: nat)
    requires Inv(s) && sid in s.rows && Won(s, a, sid)
    ensures s.rows[sid].status == Completed && sid in s.closer && a == s.closer[sid]
  {
    assert AttemptInv(s, a);
  }

  lemma CloserWon(s: State, sid: StatementId)
    requires Inv(s) && sid in s.rows && s.rows[sid].status == Completed
    ensures sid in s.closer && var w := s.closer[sid];
      Won(s, w, sid) && s.attempts[w].claim == Done(true) && StoresExactly(LinesOf(s.table, sid), s.attempts[w].lines)
  {
    assert RowInv(s, sid);
    var w := s.closer[sid];
    assert AttemptInv(s, w);
    UpsertAllStoresEach(s.attempts[w].lines);
  }

  lemma NothingStoredForUnknown(s: State, sid: StatementId)
    requires Reachable(s) && sid !in s.rows
    ensures LinesOf(s.table, sid) == map[]
  {
    ReachableInv(s);
  }

  // ---- fencing ----

  /** One step of a statement's status. */
  predicate Edge(from: Status, to: Status) {
    || (from == UploadPending && to == Uploaded)
    || (from == Uploaded && to == Queued)
    || (from == Queued && to == Uploaded)
    || (from == Queued && to == Processing)
    || (from == Processing && to == Processing)
    || (from == Processing && to == Completed)
    || (from == Processing && to == Failed)
  }

  predicate Ends(s: State, t: State, sid: StatementId) {
    sid in s.rows && sid in t.rows && !Terminal(s.rows[sid].status) && Terminal(t.rows[sid].status)
  }

  /** The transition of the database that ends a statement. */
  predicate Closes(action: Action) {
    action.OnServer? && (action.server == CommitSave || action.server == ApplyFail)
  }

  /** Statement k keeps its row and its transactions. */
  predicate Untouched(s: State, t: State, k: StatementId) {
    k in s.rows ==> k in t.rows && t.rows[k] == s.rows[k] && LinesOf(t.table, k) == LinesOf(s.table, k)
  }

  predicate Carries(row: Row, token: Token) {
    row.status == Processing && row.token == Some(token)
  }

  /** What a step may do to statement k: leave it, move it before any ending, or end it for its token holder. */
  predicate Change(s: State, t: State, action: Action, k: StatementId)
    requires k in s.rows
  {
    || Untouched(s, t, k)
    || (k in t.rows && LinesOf(t.table, k) == LinesOf(s.table, k)
        && !Terminal(t.rows[k].status) && Edge(s.rows[k].status, t.rows[k].status))
    || (Closes(action) && action.b < |s.attempts| && s.attempts[action.b].sid == k && Carries(s.rows[k], action.b)
        && k in t.rows && t.rows[k].status == if action.server.CommitSave? then Completed else Failed)
  }

  lemma CommitChange(s: State, a: nat, k: StatementId)
    requires Inv(s) && k in s.rows && a < |s.attempts| && s.attempts[a].save.RowUpdated?
    ensures Change(s, SaveCommitted(s, a), OnServer(a, CommitSave), k)
  {
    FinalUpdateMatches(s, a);
    assert AttemptInv(s, a);
  }

  lemma OtherServerChange(s: State, a: nat, e: ServerEvent, k: StatementId)
    requires k in s.rows && ServerEnabled(s, a, e) && !e.CommitSave?
    ensures Change(s, ServerNext(s, a, e), OnServer(a, e), k)
  {
    if e.ApplyClaim? || e.ApplyFail? { RowUpdateChange(s, a, e, k); } else { QuietServerChange(s, a, e, k); }
  }

  lemma RowUpdateChange(s: State, a: nat, e: ServerEvent, k: StatementId)
    requires k in s.rows && ServerEnabled(s, a, e) && (e.ApplyClaim? || e.ApplyFail?)
    ensures Change(s, ServerNext(s, a, e), OnServer(a, e), k)
  {
  }

  lemma QuietServerChange(s: State, a: nat, e: ServerEvent, k: StatementId)
    requires k in s.rows && ServerEnabled(s, a, e) && !e.CommitSave? && !e.ApplyClaim? && !e.ApplyFail?
    ensures Change(s, ServerNext(s, a, e), OnServer(a, e), k)
  {
    QuietServer(s, a, e);
  }

  lemma QuietServer(s: State, a: nat, e: ServerEvent)
    requires ServerEnabled(s, a, e) && !e.CommitSave? && !e.ApplyClaim? && !e.ApplyFail?
    ensures ServerNext(s, a, e).rows == s.rows && ServerNext(s, a, e).table == s.table
  {
    match e
    case BeginClaim =>
    case BeginSave =>
    case LockRow =>
    case Upsert =>
    case UpdateRow =>
    case AbortSave =>
    case BeginFail =>
    case LandDelete =>
  }

  lemma OtherServerKeys(s: State, a: nat, e: ServerEvent)
    requires ServerEnabled(s, a, e) && !e.CommitSave?
    ensures ServerNext(s, a, e).rows.Keys == s.rows.Keys
  {
    match e
    case ApplyClaim =>
    case ApplyFail =>
    case _ =>
  }

  lemma ApiChange(s: State, action: Action, k: StatementId)
    requires k in s.rows && Enabled(s, action) && (action.OnRow? || action.OnRequest?)
    ensures Change(s, Next(s, action), action, k)
  {
    // by the definitions of the two row-changing steps
  }

  lemma StepChange(s: State, action: Action, k: StatementId)
    requires Inv(s) && k in s.rows && Enabled(s, action)
    ensures Change(s, Next(s, action), action, k)
  {
    match action
    case OnServer(a, e) => if e.CommitSave? { CommitChange(s, a, k); } else { OtherServerChange(s, a, e, k); }
    case OnRow(_, _) => ApiChange(s, action, k);
    case OnRequest(_, _) => ApiChange(s, action, k);
    case Tick(_) =>
    case StraySend(_) =>
    case OnQueue(_, _) =>
    case OnHandler(_, _) =>
  }

  /**
   A statement ends only by the save or the failure mark of the attempt whose token the row
   carries at that moment, however late the step lands.
   */
  lemma OnlyTokenHolderEnds(s: State, action: Action, sid: StatementId)
    requires Inv(s) && Enabled(s, action)
    ensures Ends(s, Next(s, action), sid) ==>
      && Closes(action)
      && action.b < |s.attempts| && s.attempts[action.b].sid == sid && Carries(s.rows[sid], action.b)
  {
    if sid in s.rows { StepChange(s, action, sid); }
  }

  /** After its row is terminal nothing about a statement ever changes: not the row, not its transactions. */
  lemma TerminalStepAbsorbs(s: State, action: Action, sid: StatementId)
    requires Inv(s) && Enabled(s, action) && sid in s.rows && Terminal(s.rows[sid].status)
    ensures Untouched(s, Next(s, action), sid)
  {
    StepChange(s, action, sid);
    TerminalChange(s, Next(s, action), action, sid);
  }

  lemma TerminalChange(s: State, t: State, action: Action, sid: StatementId)
    requires sid in s.rows && Terminal(s.rows[sid].status) && Change(s, t, action, sid)
    ensures Untouched(s, t, sid)
  {
  }

  lemma {:induction false} TerminalAbsorbs(s: State, actions: seq<Action>, sid: StatementId)
    requires Inv(s) && Runs(s, actions) && sid in s.rows && Terminal(s.rows[sid].status)
    ensures Untouched(s, After(s, actions), sid)
    decreases |actions|
  {
    if actions == [] {
    } else {
      StepKeeps(s, actions[0]);
      TerminalStepAbsorbs(s, actions[0], sid);
      TerminalAbsorbs(Next(s, actions[0]), actions[1..], sid);
    }
  }

  /** How often a run ends a statement. */
  function Endings(s: State, actions: seq<Action>, sid: StatementId): nat
    requires Runs(s, actions)
    decreases |actions|
  {
    if actions == [] then 0
    else
      var t := Next(s, actions[0]);
      (if Ends(s, t, sid) then 1 else 0) + Endings(t, actions[1..], sid)
  }

  lemma {:induction false} AtMostOneEnding(s: State, actions: seq<Action>, sid: StatementId)
    requires Inv(s) && Runs(s, actions)
    ensures Endings(s, actions, sid) <= 1
    ensures sid in s.rows && Terminal(s.rows[sid].status) ==> Endings(s, actions, sid) == 0
    decreases |actions|
  {
    if actions == [] {
    } else {
      StepKeeps(s, actions[0]);
      if sid in s.rows && Terminal(s.rows[sid].status) { TerminalStepAbsorbs(s, actions[0], sid); }
      AtMostOneEnding(Next(s, actions[0]), actions[1..], sid);
    }
  }

  /** NOW() is fixed at BEGIN, so a commit may land any time, beyond any lease, and it still wins. */
  lemma CommitMayLandLate(s: State, a: nat, late: nat)
    requires Inv(s) && a < |s.attempts| && s.attempts[a].save.RowUpdated?
    ensures var run := [Tick(late), OnServer(a, CommitSave)];
      && Runs(s, run)
      && After(s, run).now == s.now + late
      && s.attempts[a].sid in s.rows && Holds(s.rows[s.attempts[a].sid], a, s.attempts[a].save.at)
      && (late > s.rows[s.attempts[a].sid].lease.value ==> After(s, run).now > s.rows[s.attempts[a].sid].lease.value)
      && s.attempts[a].sid in After(s, run).rows
      && After(s, run).rows[s.attempts[a].sid].status == Completed
  {
    FinalUpdateMatches(s, a);
    assert AttemptInv(s, a);
    TwoSteps(s, Tick(late), OnServer(a, CommitSave));
  }

  // ---- the life cycle ----

  lemma StatusFollowsEdges(s: State, action: Action, sid: StatementId)
    requires Inv(s) && Enabled(s, action)
    ensures sid in s.rows ==> sid in Next(s, action).rows
    ensures sid in s.rows ==> Untouched(s, Next(s, action), sid) || Edge(s.rows[sid].status, Next(s, action).rows[sid].status)
  {
    if sid in s.rows { StepChange(s, action, sid); }
  }

  lemma RowsAddedOnlyByCreate(s: State, action: Action)
    requires Enabled(s, action) && !action.OnServer?
    ensures (action.OnRow? && action.row.Create?) || Next(s, action).rows.Keys == s.rows.Keys
  {
    match action
    case OnRow(sid, e) => match e { case Create => case MarkUploaded => case MarkQueued(_) => }
    case OnRequest(_, _) =>
    case Tick(_) =>
    case StraySend(_) =>
    case OnQueue(_, _) =>
    case OnHandler(_, _) =>
  }

  lemma StatementsStartPending(s: State, action: Action, sid: StatementId)
    requires Inv(s) && Enabled(s, action) && sid !in s.rows
    ensures sid in Next(s, action).rows ==> action == OnRow(sid, Create) && Next(s, action).rows[sid].status == UploadPending
  {
    if !action.OnServer? {
      RowsAddedOnlyByCreate(s, action);
    } else if action.server.CommitSave? {
      FinalUpdateMatches(s, action.b);
    } else {
      OtherServerKeys(s, action.b, action.server);
    }
  }

  function Rank(status: Status): nat {
    match status
    case UploadPending => 0
    case Uploaded => 1
    case Queued => 1
    case Processing => 2
    case Completed => 3
    case Failed => 3
  }

  predicate Forward(from: Status, to: Status) {
    from == to || Rank(from) < Rank(to) || Rank(from) == Rank(to) == 1
  }

  lemma StepForward(s: State, action: Action, sid: StatementId)
    requires Inv(s) && Enabled(s, action) && sid in s.rows
    ensures sid in Next(s, action).rows && Forward(s.rows[sid].status, Next(s, action).rows[sid].status)
  {
    StatusFollowsEdges(s, action, sid);
  }

  /** Over any run a status moves forward, apart from the API's own step back from QUEUED to UPLOADED. */
  lemma {:induction false} LifeCycle(s: State, actions: seq<Action>, sid: StatementId)
    requires Inv(s) && Runs(s, actions) && sid in s.rows
    ensures sid in After(s, actions).rows
    ensures Forward(s.rows[sid].status, After(s, actions).rows[sid].status)
    decreases |actions|
  {
    if actions == [] {
    } else {
      StepKeeps(s, actions[0]);
      StepForward(s, actions[0], sid);
      LifeCycle(Next(s, actions[0]), actions[1..], sid);
    }
  }

  /** What the handlers rely on between their calls: over any run of the whole system the tables progress. */
  lemma RunsProgress(s: State, actions: seq<Action>)
    requires Inv(s) && Runs(s, actions)
    ensures Progresses(s.rows, s.table, After(s, actions).rows, After(s, actions).table)
  {
    var t := After(s, actions);
    forall id | id in s.rows ensures StatementProgresses(s.rows, s.table, t.rows, t.table, id) {
      RunProgresses(s, actions, id);
    }
  }

  lemma RunProgresses(s: State, actions: seq<Action>, id: StatementId)
    requires Inv(s) && Runs(s, actions) && id in s.rows
    ensures StatementProgresses(s.rows, s.table, After(s, actions).rows, After(s, actions).table, id)
  {
    LifeCycle(s, actions, id);
    if Terminal(s.rows[id].status) { TerminalAbsorbs(s, actions, id); }
  }

  lemma ShapeOfEveryRow(s: State, sid: StatementId)
    requires Reachable(s) && sid in s.rows
    ensures RowShape(s.rows[sid])
  {
    ReachableInv(s);
    assert RowInv(s, sid);
  }

  /** A compensating reset only ever takes back the marking of its own request. */
  lemma ResetUndoesOwnMark(s: State, r: nat)
    requires Inv(s) && RequestEnabled(s, r, ApplyReset)
    ensures RequestNext(s, r, ApplyReset).rows != s.rows ==>
      var sid := s.requests[r].sid;
      sid in s.rows && s.rows[sid].status == Queued && sid in s.owner && s.owner[sid] == r
  {
    assert RequestInv(s, r);
  }

  // ---- no job is lost ----

  /** A message for the statement is in the main queue or in the dead-letter queue. */
  predicate Pending(s: State, m: nat, sid: StatementId) {
    m < |s.messages| && s.messages[m].sid == sid && !s.messages[m].deleted
  }

  /** The request is between markQueued and a delivered send: in the window, dead in it, or not rolled back. */
  predicate InWindow(s: State, r: nat, sid: StatementId) {
    r < |s.requests| && s.requests[r].sid == sid && !s.requests[r].resetDone
  }

  lemma DeletedOnlyWhenSettled(s: State, m: nat)
    requires Reachable(s) && m < |s.messages| && s.messages[m].deleted
    ensures Settled(s, s.messages[m].sid)
  {
    ReachableInv(s);
    assert MessageInv(s, m);
  }

  lemma ProcessingHasMessage(s: State, sid: StatementId)
    requires Reachable(s) && sid in s.rows && s.rows[sid].status == Processing
    ensures exists m :: Pending(s, m, sid)
  {
    ReachableInv(s);
    assert RowInv(s, sid);
    var a := s.rows[sid].token.value;
    assert AttemptInv(s, a);
    assert MessageInv(s, s.attempts[a].mid);
    assert Pending(s, s.attempts[a].mid, sid);
  }

  lemma MessageOfQueuedRequest(s: State, r: nat)
    requires Inv(s) && r < |s.requests| && s.requests[r].message.Some? && !Settled(s, s.requests[r].sid)
    ensures Pending(s, s.requests[r].message.value, s.requests[r].sid)
  {
    assert RequestInv(s, r);
    assert MessageInv(s, s.requests[r].message.value);
  }

  /**
   A queued statement without a message has exactly one request that can be to blame: one whose
   marking is not rolled back and whose send has not been confirmed.
   */
  lemma QueuedHasMessageOrOpenRequest(s: State, sid: StatementId)
    requires Reachable(s) && sid in s.rows && s.rows[sid].status == Queued
    requires forall m :: !Pending(s, m, sid)
    ensures exists r: nat ::
      && InWindow(s, r, sid)
      && s.requests[r].pc != Accepted && s.requests[r].pc != RolledBack && s.requests[r].message.None?
      && forall q :: InWindow(s, q, sid) ==> q == r
  {
    ReachableInv(s);
    assert RowInv(s, sid);
    var r := s.owner[sid];
    assert RequestInv(s, r);
    if s.requests[r].message.Some? {
      MessageOfQueuedRequest(s, r);
    }
    forall q | InWindow(s, q, sid) ensures q == r { assert RequestInv(s, q); }
    assert InWindow(s, r, sid);
  }

  /** A job the API accepted (202) is finished, or its message is still there. */
  lemma AcceptedJobIsKept(s: State, r: nat)
    requires Reachable(s) && r < |s.requests| && s.requests[r].pc == Accepted
    ensures Settled(s, s.requests[r].sid) || exists m :: Pending(s, m, s.requests[r].sid)
  {
    ReachableInv(s);
    assert RequestInv(s, r);
    if !Settled(s, s.requests[r].sid) { MessageOfQueuedRequest(s, r); }
  }
}
