/**
 The statement-processing protocol as a labelled step system.

 Every delivery of a queue message starts an Attempt: one handler execution with its own fresh
 processing token, which is the attempt's index. An attempt has two halves that move separately.
 `pc` is the handler in the worker; `claim`, `save` and `fail` are its database calls as the
 server sees them. A handler may stop at any point (crash, thrown call, RETRY) while a call it
 has issued goes on to take effect, so a call that throws after its effect, and a stale worker
 that comes back late, are runs like any other. Requests to the analyze endpoint are split the
 same way.
 */
module Protocol {
  import opened Wrappers
  import opened Statements
  import opened JobErrors

  const VISIBILITY: nat := 900 * SECOND
  const MAX_RECEIVES: nat := 3
  const LEASE_SECONDS: nat := 600

  /** A single-statement database call: issued, started (NOW() captured), then applied. */
  datatype Call = NotSent | Sent | Begun(at: Time) | Done(ok: bool)

  /** The save transaction on the server. Pending lines and the pending row are not yet visible. */
  datatype Save =
    | Unsent
    | Issued
    | Open(at: Time)
    | Locked(at: Time, next: nat, pending: Lines)
    | RowUpdated(at: Time, pending: Lines, row: Row)
    | Committed
    | Aborted

  datatype Pc =
    | Received | Claiming | Resolving | Fetching | Analyzing | Saving | Failing | Acked | Ended

  datatype Attempt = Attempt(
    sid: StatementId,
    mid: nat,
    receivedAt: Time,
    pc: Pc,
    leaseSeconds: nat,
    claim: Call,
    lines: seq<Transaction>,
    save: Save,
    code: FailureCode,
    fail: Call,
    deleteSent: bool,
    met: Option<(Stage, JobError)>)  // history: the error that ended the handler's work, and its stage

  datatype Message = Message(sid: StatementId, count: nat, visibleAt: Time, deleted: bool, dead: bool)

  /** An analyze request, from the moment its markQueued took effect. */
  datatype RequestPc = Marked | Sending | Accepted | Resetting | RolledBack | Died

  datatype Request = Request(
    sid: StatementId,
    pc: RequestPc,
    sendIssued: bool,
    message: Option<nat>,
    resetIssued: bool,
    resetDone: bool)

  datatype State = State(
    now: Time,
    rows: Rows,
    table: Table,
    locks: map<StatementId, nat>,
    messages: seq<Message>,
    attempts: seq<Attempt>,
    requests: seq<Request>,
    owner: map<StatementId, nat>,   // history: the request whose markQueued last took effect
    closer: map<StatementId, nat>)  // history: the attempt whose terminal transition took effect

  // ---- actions ----

  /** An update of a statement row on behalf of the API. */
  datatype RowEvent = Create | MarkUploaded | MarkQueued(heard: bool)

  /** A step of an analyze request after its markQueued. */
  datatype RequestEvent = IssueSend | Enqueue | SendReturned | SendFailed | ApplyReset | ResetReturned | Die

  datatype QueueEvent = Receive | MoveToDlq

  /** A step of a handler in a worker. */
  datatype HandlerEvent =
    | SendClaim(leaseSeconds: nat)
    | ClaimReturned
    | Resolve
    | Fetched
    | Analyzed(lines: seq<Transaction>)
    | StageFailed(error: JobError)
    | SaveReturned
    | FailReturned
    | SendDelete
    | Stop

  /** A step the database or the queue takes for a call some handler has issued. */
  datatype ServerEvent =
    | BeginClaim
    | ApplyClaim
    | BeginSave
    | LockRow
    | Upsert
    | UpdateRow
    | CommitSave
    | AbortSave
    | BeginFail
    | ApplyFail
    | LandDelete

  datatype Action =
    | Tick(elapsed: nat)
    | OnRow(sid: StatementId, row: RowEvent)
    | OnRequest(r: nat, request: RequestEvent)
    | StraySend(stray: StatementId)
    | OnQueue(m: nat, queue: QueueEvent)
    | OnHandler(a: nat, handler: HandlerEvent)
    | OnServer(b: nat, server: ServerEvent)

  predicate Init(s: State) {
    && s.rows == map[] && s.table == map[] && s.locks == map[]
    && s.messages == [] && s.attempts == [] && s.requests == []
    && s.owner == map[] && s.closer == map[]
  }

  /** The statement is absent or terminal: resolveUnclaimedJob acknowledges exactly then. */
  predicate Settled(s: State, sid: StatementId) {
    sid !in s.rows || Terminal(s.rows[sid].status)
  }

  function WithAttempt(s: State, a: nat, x: Attempt): State
    requires a < |s.attempts|
  {
    s.(attempts := s.attempts[a := x])
  }

  // ---- the API ----

  /** No open transaction holds the row lock, so a statement that touches the row does not wait. */
  predicate Unlocked(s: State, sid: StatementId) {
    sid !in s.locks
  }

  predicate RowEnabled(s: State, sid: StatementId, e: RowEvent) {
    match e
    case Create => sid !in s.rows && forall m :: 0 <= m < |s.messages| ==> s.messages[m].sid != sid
    case MarkUploaded => sid in s.rows && Unlocked(s, sid) && UploadedRow(s.rows[sid]).Some?
    case MarkQueued(_) => sid in s.rows && Unlocked(s, sid) && QueuedRow(s.rows[sid]).Some?
  }

  function RowNext(s: State, sid: StatementId, e: RowEvent): State
    requires RowEnabled(s, sid, e)
  {
    match e
    case Create => s.(rows := s.rows[sid := NEW_ROW])
    case MarkUploaded => s.(rows := Updated(s.rows, sid, UploadedRow(s.rows[sid])))
    case MarkQueued(heard) =>
      s.(
        rows := Updated(s.rows, sid, QueuedRow(s.rows[sid])),
        owner := s.owner[sid := |s.requests|],
        requests := s.requests + [Request(sid, if heard then Marked else Died, false, None, false, false)])
  }

  predicate RequestEnabled(s: State, r: nat, e: RequestEvent) {
    r < |s.requests| &&
    var q := s.requests[r];
    match e
    case IssueSend => q.pc == Marked
    case Enqueue => q.sendIssued
    case SendReturned => q.pc == Sending && q.message.Some?
    case SendFailed => q.pc == Sending
    case ApplyReset => q.resetIssued && !q.resetDone && Unlocked(s, q.sid)
    case ResetReturned => q.pc == Resetting && q.resetDone
    case Die => q.pc == Marked || q.pc == Sending || q.pc == Resetting
  }

  function RequestAfter(s: State, q: Request, e: RequestEvent): Request {
    match e
    case IssueSend => q.(pc := Sending, sendIssued := true)
    case Enqueue => q.(message := Some(|s.messages|))
    case SendReturned => q.(pc := Accepted)
    case SendFailed => q.(pc := Resetting, resetIssued := true)
    case ApplyReset => q.(resetDone := true)
    case ResetReturned => q.(pc := RolledBack)
    case Die => q.(pc := Died)
  }

  function NewMessage(s: State, sid: StatementId): Message {
    Message(sid, 0, s.now, false, false)
  }

  function RequestNext(s: State, r: nat, e: RequestEvent): State
    requires r < |s.requests|
  {
    var q := s.requests[r];
    s.(
      requests := s.requests[r := RequestAfter(s, q, e)],
      messages := if e.Enqueue? then s.messages + [NewMessage(s, q.sid)] else s.messages,
      rows := if e.ApplyReset? && q.sid in s.rows then Updated(s.rows, q.sid, ResetRow(s.rows[q.sid])) else s.rows)
  }

  // ---- the queue ----

  /**
   A standard queue may deliver a message again before its visibility timeout has passed, so
   visibility is no part of the guard; each delivery is counted, and the fourth goes to the
   dead-letter queue instead.
   */
  predicate QueueEnabled(s: State, m: nat, e: QueueEvent) {
    m < |s.messages| &&
    var x := s.messages[m];
    match e
    case Receive => !x.deleted && !x.dead && x.count < MAX_RECEIVES
    case MoveToDlq => !x.deleted && !x.dead && x.count >= MAX_RECEIVES && x.visibleAt <= s.now
  }

  function NewAttempt(s: State, m: nat): Attempt
    requires m < |s.messages|
  {
    Attempt(s.messages[m].sid, m, s.now, Received, 0, NotSent, [], Unsent, ProcessingFailed, NotSent, false, None)
  }

  function QueueNext(s: State, m: nat, e: QueueEvent): State
    requires m < |s.messages|
  {
    var x := s.messages[m];
    match e
    case Receive =>
      s.(
        messages := s.messages[m := x.(count := x.count + 1, visibleAt := s.now + VISIBILITY)],
        attempts := s.attempts + [NewAttempt(s, m)])
    case MoveToDlq => s.(messages := s.messages[m := x.(dead := true)])
  }

  // ---- the handler ----

  function CurrentStage(pc: Pc): Stage {
    if pc == Fetching then ObjectStore else if pc == Analyzing then Ocr else Database
  }

  predicate HandlerEnabled(x: Attempt, e: HandlerEvent) {
    match e
    case SendClaim(leaseSeconds) => x.pc == Received && leaseSeconds > 0
    case ClaimReturned => x.pc == Claiming && x.claim.Done?
    case Resolve => x.pc == Resolving
    case Fetched => x.pc == Fetching
    case Analyzed(lines) => x.pc == Analyzing && Analyzable(lines)
    case StageFailed(_) => x.pc == Fetching || x.pc == Analyzing
    case SaveReturned => x.pc == Saving && x.save.Committed?
    case FailReturned => x.pc == Failing && x.fail.Done?
    case SendDelete => x.pc == Acked
    case Stop => true
  }

  function AfterStageError(x: Attempt, error: JobError): Attempt {
    var met := Some((CurrentStage(x.pc), error));
    match Classify(CurrentStage(x.pc), error)
    case Retryable => x.(pc := Ended, met := met)
    case Permanent(code) => x.(pc := Failing, code := code, fail := Sent, met := met)
  }

  function HandlerAfter(x: Attempt, settled: bool, e: HandlerEvent): Attempt
    requires HandlerEnabled(x, e)
  {
    match e
    case SendClaim(leaseSeconds) => x.(pc := Claiming, claim := Sent, leaseSeconds := leaseSeconds)
    case ClaimReturned => x.(pc := if x.claim.ok then Fetching else Resolving)
    case Resolve => x.(pc := if settled then Acked else Ended)
    case Fetched => x.(pc := Analyzing)
    case Analyzed(lines) => x.(pc := Saving, lines := lines, save := Issued)
    case StageFailed(error) => AfterStageError(x, error)
    case SaveReturned => x.(pc := Acked)
    case FailReturned => x.(pc := if x.fail.ok then Acked else Ended)
    case SendDelete => x.(pc := Ended, deleteSent := true)
    case Stop => x.(pc := Ended)
  }

  // ---- the database ----

  predicate ServerEnabled(s: State, a: nat, e: ServerEvent) {
    a < |s.attempts| &&
    var x := s.attempts[a];
    match e
    case BeginClaim => x.claim.Sent?
    case ApplyClaim => x.claim.Begun? && Unlocked(s, x.sid)
    case BeginSave => x.save.Issued?
    case LockRow => x.save.Open? && Unlocked(s, x.sid)
    case Upsert => x.save.Locked? && x.save.next < |x.lines|
    case UpdateRow => x.save.Locked? && x.save.next >= |x.lines| && x.sid in s.rows
    case CommitSave => x.save.RowUpdated?
    case AbortSave => x.save.Issued? || x.save.Open? || InTransaction(x.save)
    case BeginFail => x.fail.Sent?
    case ApplyFail => x.fail.Begun? && Unlocked(s, x.sid)
    case LandDelete => x.deleteSent && x.mid < |s.messages|
  }

  /** The save holds the row lock; its changes are not yet visible. */
  predicate InTransaction(save: Save) {
    save.Locked? || save.RowUpdated?
  }

  function Unlock(s: State, sid: StatementId): State {
    s.(locks := s.locks - {sid})
  }

  function Claimed(s: State, a: nat): State
    requires a < |s.attempts| && s.attempts[a].claim.Begun?
  {
    var x := s.attempts[a];
    var row := if x.sid in s.rows then ClaimedRow(s.rows[x.sid], a, x.leaseSeconds, x.claim.at) else None;
    WithAttempt(s, a, x.(claim := Done(row.Some?))).(rows := Updated(s.rows, x.sid, row))
  }

  function LockedRow(s: State, a: nat): State
    requires a < |s.attempts| && s.attempts[a].save.Open?
  {
    var x := s.attempts[a];
    if x.sid in s.rows && Holds(s.rows[x.sid], a, x.save.at) then
      WithAttempt(s, a, x.(save := Locked(x.save.at, 0, LinesOf(s.table, x.sid)))).(locks := s.locks[x.sid := a])
    else
      WithAttempt(s, a, x.(save := Aborted))
  }

  function Upserted(x: Attempt): Attempt
    requires x.save.Locked? && x.save.next < |x.lines|
  {
    var tx := x.lines[x.save.next];
    x.(save := Locked(x.save.at, x.save.next + 1, x.save.pending[tx.line := tx]))
  }

  function RowCompleted(s: State, a: nat): State
    requires a < |s.attempts| && s.attempts[a].save.Locked? && s.attempts[a].sid in s.rows
  {
    var x := s.attempts[a];
    var row := CompletedRow(s.rows[x.sid], a, x.save.at);
    if row.Some? then
      WithAttempt(s, a, x.(save := RowUpdated(x.save.at, x.save.pending, row.value)))
    else
      Unlock(WithAttempt(s, a, x.(save := Aborted)), x.sid)
  }

  function SaveCommitted(s: State, a: nat): State
    requires a < |s.attempts| && s.attempts[a].save.RowUpdated?
  {
    var x := s.attempts[a];
    Unlock(
      WithAttempt(s, a, x.(save := Committed)).(
        rows := s.rows[x.sid := x.save.row],
        table := s.table[x.sid := x.save.pending],
        closer := s.closer[x.sid := a]),
      x.sid)
  }

  function SaveAborted(s: State, a: nat): State
    requires a < |s.attempts|
  {
    var x := s.attempts[a];
    var t := WithAttempt(s, a, x.(save := Aborted));
    if InTransaction(x.save) then Unlock(t, x.sid) else t
  }

  function MarkedFailed(s: State, a: nat): State
    requires a < |s.attempts| && s.attempts[a].fail.Begun?
  {
    var x := s.attempts[a];
    var row := if x.sid in s.rows then FailedRow(s.rows[x.sid], a, x.code, x.fail.at) else None;
    var t := WithAttempt(s, a, x.(fail := Done(row.Some?)));
    if row.Some? then
      t.(rows := s.rows[x.sid := row.value], closer := s.closer[x.sid := a])
    else
      t
  }

  function Deleted(s: State, a: nat): State
    requires a < |s.attempts| && s.attempts[a].mid < |s.messages|
  {
    var m := s.attempts[a].mid;
    s.(messages := s.messages[m := s.messages[m].(deleted := true)])
  }

  function ServerNext(s: State, a: nat, e: ServerEvent): State
    requires ServerEnabled(s, a, e)
  {
    var x := s.attempts[a];
    match e
    case BeginClaim => WithAttempt(s, a, x.(claim := Begun(s.now)))
    case ApplyClaim => Claimed(s, a)
    case BeginSave => WithAttempt(s, a, x.(save := Open(s.now)))
    case LockRow => LockedRow(s, a)
    case Upsert => WithAttempt(s, a, Upserted(x))
    case UpdateRow => RowCompleted(s, a)
    case CommitSave => SaveCommitted(s, a)
    case AbortSave => SaveAborted(s, a)
    case BeginFail => WithAttempt(s, a, x.(fail := Begun(s.now)))
    case ApplyFail => MarkedFailed(s, a)
    case LandDelete => Deleted(s, a)
  }

  // ---- the whole system, and its runs ----

  predicate Enabled(s: State, action: Action) {
    match action
    case Tick(_) => true
    case OnRow(sid, e) => RowEnabled(s, sid, e)
    case OnRequest(r, e) => RequestEnabled(s, r, e)
    case StraySend(_) => true
    case OnQueue(m, e) => QueueEnabled(s, m, e)
    case OnHandler(a, e) => a < |s.attempts| && HandlerEnabled(s.attempts[a], e)
    case OnServer(a, e) => ServerEnabled(s, a, e)
  }

  function Next(s: State, action: Action): State
    requires Enabled(s, action)
  {
    match action
    case Tick(elapsed) => s.(now := s.now + elapsed)
    case OnRow(sid, e) => RowNext(s, sid, e)
    case OnRequest(r, e) => RequestNext(s, r, e)
    case StraySend(sid) => s.(messages := s.messages + [NewMessage(s, sid)])
    case OnQueue(m, e) => QueueNext(s, m, e)
    case OnHandler(a, e) => WithAttempt(s, a, HandlerAfter(s.attempts[a], Settled(s, s.attempts[a].sid), e))
    case OnServer(a, e) => ServerNext(s, a, e)
  }

  /** The actions can be taken one after the other from s. */
  predicate Runs(s: State, actions: seq<Action>)
    decreases |actions|
  {
    actions == [] || (Enabled(s, actions[0]) && Runs(Next(s, actions[0]), actions[1..]))
  }

  function After(s: State, actions: seq<Action>): State
    requires Runs(s, actions)
    decreases |actions|
  {
    if actions == [] then s else After(Next(s, actions[0]), actions[1..])
  }

  lemma TwoSteps(s: State, x: Action, y: Action)
    requires Enabled(s, x) && Enabled(Next(s, x), y)
    ensures Runs(s, [x, y]) && After(s, [x, y]) == Next(Next(s, x), y)
  {
    var t := Next(s, x);
    var u := Next(t, y);
    assert [x, y][1..] == [y] && [y][1..] == [];
    assert Runs(u, []) && After(u, []) == u;
    assert Runs(t, [y]) && After(t, [y]) == After(u, []);
  }
}
