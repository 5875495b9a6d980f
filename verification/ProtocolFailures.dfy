/** Why statements fail: over every run the stored code is that of the error its closing attempt met. */
module ProtocolFailures {
  import opened Wrappers
  import opened Statements
  import opened JobErrors
  import opened Protocol
  import opened ProtocolInvariant
  import opened ProtocolSafety
  import opened ProtocolQueue

  /** An attempt that asked for the failure mark did so for the error it met, with that error's code. */
  predicate AttemptCode(x: Attempt) {
    !x.fail.NotSent? ==> x.met.Some? && Classify(x.met.value.0, x.met.value.1) == Permanent(x.code)
  }

  predicate RowCode(s: State, sid: StatementId)
    requires sid in s.rows
  {
    s.rows[sid].status == Failed ==>
      sid in s.closer && s.closer[sid] < |s.attempts| && s.rows[sid].failure == Some(s.attempts[s.closer[sid]].code)
  }

  ghost predicate Codes(s: State) {
    && (forall a :: 0 <= a < |s.attempts| ==> AttemptCode(s.attempts[a]))
    && (forall sid :: sid in s.rows ==> RowCode(s, sid))
  }

  lemma HandlerCode(x: Attempt, settled: bool, e: HandlerEvent)
    requires HandlerInv(x) && HandlerEnabled(x, e) && AttemptCode(x)
    ensures AttemptCode(HandlerAfter(x, settled, e))
    ensures !x.fail.NotSent? ==> HandlerAfter(x, settled, e).code == x.code
  {
  }

  lemma HandlerCodes(s: State, a: nat, e: HandlerEvent)
    requires Inv(s) && Codes(s) && a < |s.attempts| && HandlerEnabled(s.attempts[a], e)
    ensures Codes(WithAttempt(s, a, HandlerAfter(s.attempts[a], Settled(s, s.attempts[a].sid), e)))
  {
    var t := WithAttempt(s, a, HandlerAfter(s.attempts[a], Settled(s, s.attempts[a].sid), e));
    assert AttemptInv(s, a);
    HandlerCode(s.attempts[a], Settled(s, s.attempts[a].sid), e);
    forall sid | sid in t.rows ensures RowCode(t, sid) { assert RowCode(s, sid) && RowInv(s, sid); }
  }

  lemma ServerAttemptCode(s: State, a: nat, e: ServerEvent)
    requires ServerEnabled(s, a, e) && !e.LandDelete? && AttemptCode(s.attempts[a])
    ensures a < |ServerNext(s, a, e).attempts| && AttemptCode(ServerNext(s, a, e).attempts[a])
  {
    match e
    case BeginClaim => case ApplyClaim => case BeginSave => case LockRow => case Upsert => case UpdateRow =>
    case CommitSave => case AbortSave => case BeginFail => case ApplyFail =>
  }

  lemma CommitRowCode(s: State, a: nat, sid: StatementId)
    requires Inv(s) && ServerEnabled(s, a, CommitSave) && sid in SaveCommitted(s, a).rows && sid in s.rows && RowCode(s, sid)
    ensures RowCode(SaveCommitted(s, a), sid)
  {
    FinalUpdateMatches(s, a);
    assert AttemptInv(s, a);
  }

  lemma FailRowCode(s: State, a: nat, sid: StatementId)
    requires ServerEnabled(s, a, ApplyFail) && sid in s.rows && RowCode(s, sid)
    ensures sid in MarkedFailed(s, a).rows && RowCode(MarkedFailed(s, a), sid)
  {
  }

  predicate QuietForFailures(e: ServerEvent) { !e.CommitSave? && !e.ApplyFail? && !e.LandDelete? }

  lemma OtherRowCode(s: State, a: nat, e: ServerEvent, sid: StatementId)
    requires ServerEnabled(s, a, e) && QuietForFailures(e) && sid in s.rows && RowCode(s, sid)
    ensures sid in ServerNext(s, a, e).rows && RowCode(ServerNext(s, a, e), sid)
  {
    ServerAttempts(s, a, e);
    match e
    case BeginClaim => case ApplyClaim => case BeginSave => case LockRow => case Upsert => case UpdateRow =>
    case AbortSave => case BeginFail =>
  }

  lemma ServerRowCode(s: State, a: nat, e: ServerEvent, sid: StatementId)
    requires Inv(s) && Codes(s) && ServerEnabled(s, a, e) && sid in ServerNext(s, a, e).rows
    ensures RowCode(ServerNext(s, a, e), sid)
  {
    ServerKeys(s, a, e);
    assert sid in s.rows && RowCode(s, sid);
    if e.CommitSave? { CommitRowCode(s, a, sid); }
    else if e.ApplyFail? { FailRowCode(s, a, sid); }
    else if QuietForFailures(e) { OtherRowCode(s, a, e, sid); }
  }

  lemma ServerCodes(s: State, a: nat, e: ServerEvent)
    requires Inv(s) && Codes(s) && ServerEnabled(s, a, e)
    ensures Codes(ServerNext(s, a, e))
  {
    var t := ServerNext(s, a, e);
    if !e.LandDelete? {
      ServerAttempts(s, a, e);
      ServerAttemptCode(s, a, e);
    }
    forall i | 0 <= i < |t.attempts| ensures AttemptCode(t.attempts[i]) { assert i != a ==> AttemptCode(s.attempts[i]); }
    forall sid | sid in t.rows ensures RowCode(t, sid) { ServerRowCode(s, a, e, sid); }
  }

  lemma ApiCodes(s: State, action: Action)
    requires Codes(s) && Enabled(s, action) && (action.OnRow? || action.OnRequest?)
    ensures Codes(Next(s, action))
  {
    var t := Next(s, action);
    ApiLeavesFailed(s, action);
    forall sid | sid in t.rows ensures RowCode(t, sid) {
      if sid in s.rows { assert RowCode(s, sid); }
    }
  }

  ghost predicate LeavesFailed(s: State, t: State) {
    && t.attempts == s.attempts && t.closer == s.closer
    && forall sid :: sid in t.rows && t.rows[sid].status == Failed ==> sid in s.rows && t.rows[sid] == s.rows[sid]
  }

  lemma RowLeavesFailed(s: State, sid: StatementId, e: RowEvent)
    requires RowEnabled(s, sid, e)
    ensures LeavesFailed(s, RowNext(s, sid, e))
  {
  }

  lemma RequestLeavesFailed(s: State, r: nat, e: RequestEvent)
    requires RequestEnabled(s, r, e)
    ensures LeavesFailed(s, RequestNext(s, r, e))
  {
  }

  lemma ApiLeavesFailed(s: State, action: Action)
    requires Enabled(s, action) && (action.OnRow? || action.OnRequest?)
    ensures LeavesFailed(s, Next(s, action))
  {
    if action.OnRow? { RowLeavesFailed(s, action.sid, action.row); } else { RequestLeavesFailed(s, action.r, action.request); }
  }

  lemma QueueCodes(s: State, m: nat, e: QueueEvent)
    requires Inv(s) && Codes(s) && QueueEnabled(s, m, e)
    ensures Codes(QueueNext(s, m, e))
  {
    var t := QueueNext(s, m, e);
    forall sid | sid in t.rows ensures RowCode(t, sid) { assert RowCode(s, sid) && RowInv(s, sid); }
  }

  lemma StepCodes(s: State, action: Action)
    requires Inv(s) && Codes(s) && Enabled(s, action)
    ensures Codes(Next(s, action))
  {
    match action
    case OnHandler(a, e) => HandlerCodes(s, a, e);
    case OnServer(a, e) => ServerCodes(s, a, e);
    case OnRow(_, _) => ApiCodes(s, action);
    case OnRequest(_, _) => ApiCodes(s, action);
    case OnQueue(m, e) => QueueCodes(s, m, e);
    case Tick(_) =>
    case StraySend(_) =>
  }

  lemma {:induction false} RunCodes(s: State, actions: seq<Action>)
    requires Inv(s) && Codes(s) && Runs(s, actions)
    ensures Codes(After(s, actions))
    decreases |actions|
  {
    if actions == [] {
    } else {
      StepKeeps(s, actions[0]);
      StepCodes(s, actions[0]);
      RunCodes(Next(s, actions[0]), actions[1..]);
    }
  }

  lemma ReachableCodes(s: State)
    requires Reachable(s)
    ensures Inv(s) && Codes(s)
  {
    var init, actions :| Init(init) && Runs(init, actions) && After(init, actions) == s;
    InitInv(init);
    RunCodes(init, actions);
    ReachableInv(s);
  }

  lemma ClosedByFailure(s: State, sid: StatementId)
    requires Inv(s) && sid in s.rows && s.rows[sid].status == Failed
    ensures sid in s.closer && s.closer[sid] < |s.attempts|
    ensures var x := s.attempts[s.closer[sid]]; x.sid == sid && x.claim == Done(true) && x.fail == Done(true)
  {
    assert RowInv(s, sid);
    assert AttemptInv(s, s.closer[sid]);
  }

  /** Database errors, aborts and passing service errors are never permanent; each code stands for one kind of error. */
  lemma PermanentErrors(stage: Stage, error: JobError)
    ensures stage.Database? || error.AbortError? || error.RetryableServiceError? ==> Classify(stage, error).Retryable?
    ensures Classify(stage, error) == Permanent(SourceObjectNotFound) <==> stage.ObjectStore? && error.ObjectNotFoundError?
    ensures Classify(stage, error) == Permanent(SourceObjectInvalid) <==> stage.ObjectStore? && error.InvalidSourceObjectError?
    ensures Classify(stage, error) == Permanent(UnsupportedImage) <==> stage.Ocr? && error.InvalidOcrImageError?
    ensures Classify(stage, error) == Permanent(InvalidOcrResponse) <==> stage.Ocr? && error.InvalidOcrResponseError?
    ensures Classify(stage, error) != Permanent(ProcessingFailed)
  {
  }

  /**
   A statement is FAILED because of an error that the attempt which closed it met while it held the
   claim, and the stored code is what that error in that stage is answered with: so never the general
   code, and never anything the database or an abort brought about.
   */
  lemma FailedForTheErrorItMet(s: State, sid: StatementId)
    requires Reachable(s) && sid in s.rows && s.rows[sid].status == Failed
    ensures sid in s.closer && s.closer[sid] < |s.attempts|
    ensures var x := s.attempts[s.closer[sid]];
      && x.sid == sid && x.claim == Done(true) && x.fail == Done(true) && x.met.Some?
      && Classify(x.met.value.0, x.met.value.1).Permanent?
      && s.rows[sid].failure == Some(Classify(x.met.value.0, x.met.value.1).code)
      && !x.met.value.0.Database? && !x.met.value.1.AbortError? && s.rows[sid].failure != Some(ProcessingFailed)
  {
    ReachableCodes(s);
    ClosedByFailure(s, sid);
    var x := s.attempts[s.closer[sid]];
    assert RowCode(s, sid) && AttemptCode(x);
    PermanentErrors(x.met.value.0, x.met.value.1);
  }
}
