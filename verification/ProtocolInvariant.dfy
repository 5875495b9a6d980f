/** What every step of the protocol keeps. */
module ProtocolInvariant {
  import opened Wrappers
  import opened Statements
  import opened JobErrors
  import opened Protocol

  /** Token and lease are set exactly while processing; the other columns say how processing went. */
  predicate RowShape(row: Row) {
    && (row.token.Some? <==> row.status == Processing)
    && (row.lease.Some? <==> row.status == Processing)
    && (row.startedAt.Some? <==> row.status == Processing || Terminal(row.status))
    && (row.processedAt.Some? <==> row.status == Completed)
    && (row.failure.Some? <==> row.status == Failed)
  }

  /** The handler owns a successful claim. */
  predicate Working(pc: Pc) {
    pc == Fetching || pc == Analyzing || pc == Saving || pc == Failing
  }

  /** The handler has not asked for the save or for the failure mark. */
  predicate BeforeOutcome(pc: Pc) {
    pc == Received || pc == Claiming || pc == Resolving || pc == Fetching || pc == Analyzing
  }

  ghost predicate RowInv(s: State, sid: StatementId)
    requires sid in s.rows
  {
    var row := s.rows[sid];
    && RowShape(row)
    && (row.token.Some? ==>
      var t := row.token.value;
      t < |s.attempts| && s.attempts[t].sid == sid && s.attempts[t].claim == Done(true))
    && (sid in s.closer <==> Terminal(row.status))
    && (sid in s.closer ==> s.closer[sid] < |s.attempts| && s.attempts[s.closer[sid]].sid == sid)
    && (row.status == Completed ==>
      && s.attempts[s.closer[sid]].save == Committed
      && LinesOf(s.table, sid) == UpsertAll(map[], s.attempts[s.closer[sid]].lines))
    && (row.status == Failed ==> s.attempts[s.closer[sid]].fail == Done(true))
    && (row.status != Completed ==> LinesOf(s.table, sid) == map[])
    && (row.status == Queued ==>
      && sid in s.owner && s.owner[sid] < |s.requests|
      && s.requests[s.owner[sid]].sid == sid && !s.requests[s.owner[sid]].resetDone)
  }

  /** A held lock belongs to the save whose token and lease the row still carries. */
  ghost predicate LockInv(s: State, sid: StatementId)
    requires sid in s.locks
  {
    var a := s.locks[sid];
    && sid in s.rows
    && a < |s.attempts|
    && s.attempts[a].sid == sid
    && InTransaction(s.attempts[a].save)
    && Holds(s.rows[sid], a, s.attempts[a].save.at)
  }

  /** The handler's program counter and its database calls agree. */
  predicate HandlerInv(x: Attempt) {
    && (x.pc == Received ==> x.claim.NotSent?)
    && (Working(x.pc) || !x.save.Unsent? || !x.fail.NotSent? ==> x.claim == Done(true))
    && (BeforeOutcome(x.pc) ==> x.save.Unsent? && x.fail.NotSent?)
    && (x.pc == Saving ==> !x.save.Unsent?)
    && (x.pc == Failing ==> !x.fail.NotSent?)
    && (x.save.Unsent? || x.fail.NotSent?)
    && DistinctLines(x.lines)
    && (x.save.Locked? ==> x.save.next <= |x.lines| && x.save.pending == UpsertAll(map[], x.lines[..x.save.next]))
    && (x.save.RowUpdated? ==> x.save.pending == UpsertAll(map[], x.lines))
  }

  ghost predicate AttemptInv(s: State, a: nat)
    requires a < |s.attempts|
  {
    var x := s.attempts[a];
    && HandlerInv(x)
    && x.mid < |s.messages| && s.messages[x.mid].sid == x.sid
    && (x.pc == Acked || x.deleteSent ==> Settled(s, x.sid))
    && (InTransaction(x.save) ==> x.sid in s.locks && s.locks[x.sid] == a)
    && (x.save.RowUpdated? ==> x.sid in s.rows && Some(x.save.row) == CompletedRow(s.rows[x.sid], a, x.save.at))
    && (x.save.Committed? ==>
      x.sid in s.rows && s.rows[x.sid].status == Completed && x.sid in s.closer && s.closer[x.sid] == a)
    && (x.fail == Done(true) ==>
      x.sid in s.rows && s.rows[x.sid].status == Failed && x.sid in s.closer && s.closer[x.sid] == a)
  }

  ghost predicate MessageInv(s: State, m: nat)
    requires m < |s.messages|
  {
    && s.messages[m].count <= MAX_RECEIVES
    && (s.messages[m].deleted ==> Settled(s, s.messages[m].sid))
  }

  /** An open request owns the queued row; once the row is back to UPLOADED every request has been reset. */
  ghost predicate RequestInv(s: State, r: nat)
    requires r < |s.requests|
  {
    var q := s.requests[r];
    && q.sid in s.rows
    && s.rows[q.sid].status != UploadPending
    && (s.rows[q.sid].status == Uploaded ==> q.resetDone)
    && (s.rows[q.sid].status == Queued && !q.resetDone ==> q.sid in s.owner && s.owner[q.sid] == r)
    && (q.message.Some? ==> q.message.value < |s.messages| && s.messages[q.message.value].sid == q.sid)
    && (q.pc == Accepted ==> q.message.Some?)
    && (q.resetDone ==> q.resetIssued)
    && (q.resetIssued ==> (q.pc == Resetting || q.pc == RolledBack || q.pc == Died))
    && (q.pc == RolledBack ==> q.resetDone)
  }

  ghost predicate RowsInv(s: State) {
    && s.table.Keys <= s.rows.Keys && s.closer.Keys <= s.rows.Keys
    && forall sid :: sid in s.rows ==> RowInv(s, sid)
  }

  ghost predicate LocksInv(s: State) {
    forall sid :: sid in s.locks ==> LockInv(s, sid)
  }

  ghost predicate AttemptsInv(s: State) {
    forall a :: 0 <= a < |s.attempts| ==> AttemptInv(s, a)
  }

  ghost predicate MessagesInv(s: State) {
    forall m :: 0 <= m < |s.messages| ==> MessageInv(s, m)
  }

  ghost predicate RequestsInv(s: State) {
    forall r :: 0 <= r < |s.requests| ==> RequestInv(s, r)
  }

  ghost predicate Inv(s: State) {
    RowsInv(s) && LocksInv(s) && AttemptsInv(s) && MessagesInv(s) && RequestsInv(s)
  }

  lemma InitInv(s: State)
    requires Init(s)
    ensures Inv(s)
  {
  }

  // ---- stability: what a step on statement sid by attempt a may change, and what survives it ----

  /** Outside statement sid and attempt a nothing changes; requests, messages and the history of sid may. */
  ghost predicate Local(s: State, t: State, sid: StatementId, a: nat) {
    && (forall k :: k != sid ==> (k in t.rows <==> k in s.rows) && (k in t.closer <==> k in s.closer) && (k in t.locks <==> k in s.locks))
    && (forall k :: k != sid && k in s.rows ==> t.rows[k] == s.rows[k] && LinesOf(t.table, k) == LinesOf(s.table, k))
    && (forall k :: k != sid && k in s.closer ==> t.closer[k] == s.closer[k])
    && (forall k :: k != sid && k in s.locks ==> t.locks[k] == s.locks[k])
    && |t.attempts| == |s.attempts|
    && (forall i :: 0 <= i < |s.attempts| && i != a ==> t.attempts[i] == s.attempts[i])
    && (a < |s.attempts| ==> s.attempts[a].sid == t.attempts[a].sid == sid && s.attempts[a].mid == t.attempts[a].mid)
  }

  ghost predicate SameRequests(s: State, t: State) {
    t.requests == s.requests && t.owner == s.owner
  }

  ghost predicate SameMessages(s: State, t: State) {
    t.messages == s.messages
  }

  /** Terminal rows are never changed. */
  ghost predicate RowFree(s: State, t: State, sid: StatementId) {
    sid in s.rows ==> sid in t.rows && (t.rows[sid] == s.rows[sid] || !Terminal(s.rows[sid].status))
  }

  lemma OtherRowsStable(s: State, t: State, sid: StatementId, a: nat)
    requires RowsInv(s) && Local(s, t, sid, a) && SameRequests(s, t)
    requires t.table.Keys <= t.rows.Keys && t.closer.Keys <= t.rows.Keys
    requires sid in t.rows ==> RowInv(t, sid)
    ensures RowsInv(t)
  {
    forall k | k in t.rows ensures RowInv(t, k) {
      if k != sid { assert RowInv(s, k); }
    }
  }

  lemma OtherLocksStable(s: State, t: State, sid: StatementId, a: nat)
    requires LocksInv(s) && Local(s, t, sid, a)
    requires sid in t.locks ==> LockInv(t, sid)
    ensures LocksInv(t)
  {
    forall k | k in t.locks ensures LockInv(t, k) {
      if k != sid { assert LockInv(s, k); }
    }
  }

  /** What an attempt relies on: its message, its lock, and that its terminal transition is never undone. */
  lemma AttemptStable(s: State, t: State, i: nat)
    requires i < |s.attempts| && AttemptInv(s, i)
    requires i < |t.attempts| && t.attempts[i] == s.attempts[i]
    requires |s.messages| <= |t.messages| && t.messages[s.attempts[i].mid].sid == s.messages[s.attempts[i].mid].sid
    requires s.attempts[i].sid in t.rows <==> s.attempts[i].sid in s.rows
    requires s.attempts[i].sid in s.rows ==>
      || t.rows[s.attempts[i].sid] == s.rows[s.attempts[i].sid]
      || (!Terminal(s.rows[s.attempts[i].sid].status) && !InTransaction(s.attempts[i].save))
    requires InTransaction(s.attempts[i].save) ==> s.attempts[i].sid in t.locks && t.locks[s.attempts[i].sid] == i
    requires s.attempts[i].sid in s.closer ==>
      s.attempts[i].sid in t.closer && t.closer[s.attempts[i].sid] == s.closer[s.attempts[i].sid]
    ensures AttemptInv(t, i)
  {
  }

  lemma OtherAttemptsStable(s: State, t: State, sid: StatementId, a: nat)
    requires AttemptsInv(s) && Local(s, t, sid, a) && SameMessages(s, t)
    requires RowFree(s, t, sid) && (sid !in s.rows ==> sid !in t.rows)
    requires sid in s.rows ==> t.rows[sid] == s.rows[sid] || sid !in s.locks || s.locks[sid] == a
    requires sid in s.locks && s.locks[sid] != a ==> sid in t.locks && t.locks[sid] == s.locks[sid]
    requires sid in s.closer ==> sid in t.closer && t.closer[sid] == s.closer[sid]
    requires a < |t.attempts| ==> AttemptInv(t, a)
    ensures AttemptsInv(t)
  {
    forall i | 0 <= i < |t.attempts| ensures AttemptInv(t, i) {
      if i != a {
        assert AttemptInv(s, i);
        AttemptStable(s, t, i);
      }
    }
  }

  lemma MessagesStable(s: State, t: State, sid: StatementId, a: nat)
    requires MessagesInv(s) && Local(s, t, sid, a) && SameMessages(s, t)
    requires RowFree(s, t, sid) && (sid !in s.rows ==> sid !in t.rows)
    ensures MessagesInv(t)
  {
    forall m | 0 <= m < |t.messages| ensures MessageInv(t, m) { assert MessageInv(s, m); }
  }

  /** A step that leaves the row alone, or takes it beyond the reach of requests. */
  lemma RequestsStable(s: State, t: State, sid: StatementId, a: nat)
    requires RequestsInv(s) && Local(s, t, sid, a) && SameRequests(s, t) && SameMessages(s, t)
    requires sid in s.rows ==> sid in t.rows
    requires sid in s.rows ==> t.rows[sid] == s.rows[sid] || t.rows[sid].status == Processing || Terminal(t.rows[sid].status)
    ensures RequestsInv(t)
  {
    forall r | 0 <= r < |t.requests| ensures RequestInv(t, r) { assert RequestInv(s, r); }
  }

  /** All that has to be shown of a step on statement sid by attempt a. */
  ghost predicate Effect(s: State, t: State, sid: StatementId, a: nat) {
    && Local(s, t, sid, a) && SameRequests(s, t) && SameMessages(s, t)
    && t.table.Keys <= t.rows.Keys && t.closer.Keys <= t.rows.Keys
    && RowFree(s, t, sid) && (sid !in s.rows ==> sid !in t.rows)
    && (sid in s.rows ==>
      || t.rows[sid] == s.rows[sid]
      || ((t.rows[sid].status == Processing || Terminal(t.rows[sid].status)) && (sid !in s.locks || s.locks[sid] == a)))
    && (sid in s.locks && s.locks[sid] != a ==> sid in t.locks && t.locks[sid] == s.locks[sid])
    && (sid in s.closer ==> sid in t.closer && t.closer[sid] == s.closer[sid])
    && (sid in t.rows ==> RowInv(t, sid))
    && (sid in t.locks ==> LockInv(t, sid))
    && (a < |t.attempts| ==> AttemptInv(t, a))
  }

  lemma EffectKeeps(s: State, t: State, sid: StatementId, a: nat)
    requires Inv(s) && Effect(s, t, sid, a)
    ensures Inv(t)
  {
    OtherRowsStable(s, t, sid, a);
    OtherLocksStable(s, t, sid, a);
    OtherAttemptsStable(s, t, sid, a);
    MessagesStable(s, t, sid, a);
    RequestsStable(s, t, sid, a);
  }

  // ---- steps that change one attempt and nothing else ----

  /** The change keeps whatever a row, a lock or the tables may rely on. */
  predicate Private(x: Attempt, y: Attempt) {
    && y.sid == x.sid
    && y.mid == x.mid
    && (x.claim == Done(true) ==> y.claim == x.claim)
    && (InTransaction(x.save) ==> InTransaction(y.save) && y.save.at == x.save.at)
    && (x.save.Committed? ==> y.save == x.save && y.lines == x.lines)
    && (x.fail == Done(true) ==> y.fail == x.fail)
  }

  lemma PrivateStep(s: State, a: nat, y: Attempt)
    requires Inv(s) && a < |s.attempts| && Private(s.attempts[a], y)
    requires AttemptInv(WithAttempt(s, a, y), a)
    ensures Inv(WithAttempt(s, a, y))
  {
    var t, sid := WithAttempt(s, a, y), y.sid;
    if sid in s.rows { assert RowInv(s, sid); }
    if sid in s.locks { assert LockInv(s, sid); }
    EffectKeeps(s, t, sid, a);
  }

  lemma HandlerAfterKeeps(x: Attempt, settled: bool, e: HandlerEvent)
    requires HandlerInv(x) && HandlerEnabled(x, e)
    ensures HandlerInv(HandlerAfter(x, settled, e)) && Private(x, HandlerAfter(x, settled, e))
    ensures var y := HandlerAfter(x, settled, e);
      && (y.save == x.save || y.save == Issued) && (y.fail == x.fail || y.fail == Sent)
      && (y.pc == Acked || y.deleteSent ==>
        x.pc == Acked || x.deleteSent || settled || x.save.Committed? || x.fail == Done(true))
  {
  }

  /** A step of the handler, or of a call that has not touched the row. */
  lemma PrivateEffect(s: State, a: nat, y: Attempt)
    requires a < |s.attempts| && AttemptInv(s, a) && Private(s.attempts[a], y) && HandlerInv(y)
    requires y.pc == Acked || y.deleteSent ==> Settled(s, y.sid)
    requires y.save == s.attempts[a].save || !(InTransaction(y.save) || y.save.Committed?)
    requires y.fail == s.attempts[a].fail || y.fail != Done(true)
    ensures AttemptInv(WithAttempt(s, a, y), a)
  {
  }

  lemma HandlerKeeps(s: State, a: nat, e: HandlerEvent)
    requires Inv(s) && a < |s.attempts| && HandlerEnabled(s.attempts[a], e)
    ensures Inv(WithAttempt(s, a, HandlerAfter(s.attempts[a], Settled(s, s.attempts[a].sid), e)))
  {
    assert AttemptInv(s, a);
    var y := HandlerAfter(s.attempts[a], Settled(s, s.attempts[a].sid), e);
    HandlerAfterKeeps(s.attempts[a], Settled(s, s.attempts[a].sid), e);
    PrivateEffect(s, a, y);
    PrivateStep(s, a, y);
  }

  lemma BeginKeeps(s: State, a: nat, y: Attempt)
    requires Inv(s) && a < |s.attempts|
    requires
      || (s.attempts[a].claim.Sent? && y == s.attempts[a].(claim := Begun(s.now)))
      || (s.attempts[a].save.Issued? && y == s.attempts[a].(save := Open(s.now)))
      || (s.attempts[a].fail.Sent? && y == s.attempts[a].(fail := Begun(s.now)))
    ensures Inv(WithAttempt(s, a, y))
  {
    assert AttemptInv(s, a);
    PrivateEffect(s, a, y);
    PrivateStep(s, a, y);
  }

  // ---- the database steps that touch a row or its lock ----

  lemma ApplyClaimOwn(s: State, a: nat)
    requires a < |s.attempts| && s.attempts[a].claim.Begun? && AttemptInv(s, a)
    requires s.attempts[a].sid in s.rows && RowInv(s, s.attempts[a].sid)
    requires Claimable(s.rows[s.attempts[a].sid], s.attempts[a].claim.at)
    ensures RowInv(Claimed(s, a), s.attempts[a].sid)
    ensures AttemptInv(Claimed(s, a), a)
  {
  }

  lemma ApplyClaimEffect(s: State, a: nat)
    requires a < |s.attempts| && s.attempts[a].claim.Begun? && AttemptInv(s, a)
    requires s.attempts[a].sid in s.rows && RowInv(s, s.attempts[a].sid)
    requires Claimable(s.rows[s.attempts[a].sid], s.attempts[a].claim.at)
    requires s.table.Keys <= s.rows.Keys && s.closer.Keys <= s.rows.Keys
    requires Unlocked(s, s.attempts[a].sid)
    ensures Effect(s, Claimed(s, a), s.attempts[a].sid, a)
  {
    var x, t := s.attempts[a], Claimed(s, a);
    ApplyClaimOwn(s, a);
  }

  lemma ApplyClaimKeeps(s: State, a: nat)
    requires Inv(s) && a < |s.attempts| && s.attempts[a].claim.Begun? && Unlocked(s, s.attempts[a].sid)
    ensures Inv(Claimed(s, a))
  {
    var x, t := s.attempts[a], Claimed(s, a);
    assert AttemptInv(s, a);
    if x.sid in s.rows && Claimable(s.rows[x.sid], x.claim.at) {
      assert RowInv(s, x.sid);
      ApplyClaimEffect(s, a);
      EffectKeeps(s, t, x.sid, a);
    } else {
      PrivateEffect(s, a, t.attempts[a]);
      PrivateStep(s, a, t.attempts[a]);
    }
  }

  lemma LockRowEffect(s: State, a: nat)
    requires a < |s.attempts| && s.attempts[a].save.Open? && AttemptInv(s, a)
    requires s.attempts[a].sid in s.rows && RowInv(s, s.attempts[a].sid)
    requires Holds(s.rows[s.attempts[a].sid], a, s.attempts[a].save.at)
    requires s.table.Keys <= s.rows.Keys && s.closer.Keys <= s.rows.Keys
    requires s.attempts[a].sid !in s.locks || s.locks[s.attempts[a].sid] == a
    ensures Effect(s, LockedRow(s, a), s.attempts[a].sid, a)
  {
  }

  lemma LockRowKeeps(s: State, a: nat)
    requires Inv(s) && a < |s.attempts| && s.attempts[a].save.Open? && Unlocked(s, s.attempts[a].sid)
    ensures Inv(LockedRow(s, a))
  {
    var x, t := s.attempts[a], LockedRow(s, a);
    assert AttemptInv(s, a);
    if x.sid in s.rows && Holds(s.rows[x.sid], a, x.save.at) {
      assert RowInv(s, x.sid);
      LockRowEffect(s, a);
      EffectKeeps(s, t, x.sid, a);
    } else {
      PrivateEffect(s, a, t.attempts[a]);
      PrivateStep(s, a, t.attempts[a]);
    }
  }

  lemma UpsertedInv(x: Attempt)
    requires HandlerInv(x) && x.save.Locked? && x.save.next < |x.lines|
    ensures HandlerInv(Upserted(x)) && Private(x, Upserted(x))
  {
    UpsertStep(map[], x.lines, x.save.next);
  }

  lemma UpsertKeeps(s: State, a: nat)
    requires Inv(s) && a < |s.attempts| && s.attempts[a].save.Locked? && s.attempts[a].save.next < |s.attempts[a].lines|
    ensures Inv(WithAttempt(s, a, Upserted(s.attempts[a])))
  {
    assert AttemptInv(s, a);
    UpsertedInv(s.attempts[a]);
    PrivateStep(s, a, Upserted(s.attempts[a]));
  }

  /** The row lock makes the second check of token and lease redundant: the final update always matches. */
  lemma FinalUpdateMatches(s: State, a: nat)
    requires Inv(s) && a < |s.attempts| && InTransaction(s.attempts[a].save)
    ensures s.attempts[a].sid in s.rows
    ensures CompletedRow(s.rows[s.attempts[a].sid], a, s.attempts[a].save.at).Some?
  {
    assert AttemptInv(s, a);
    assert LockInv(s, s.attempts[a].sid);
  }

  lemma UpdateRowKeeps(s: State, a: nat)
    requires Inv(s) && ServerEnabled(s, a, UpdateRow)
    ensures Inv(RowCompleted(s, a))
  {
    var x := s.attempts[a];
    assert AttemptInv(s, a);
    FinalUpdateMatches(s, a);
    assert x.lines[..x.save.next] == x.lines;
    PrivateStep(s, a, RowCompleted(s, a).attempts[a]);
  }

  lemma CommitEffect(s: State, a: nat)
    requires a < |s.attempts| && s.attempts[a].save.RowUpdated? && AttemptInv(s, a)
    requires s.attempts[a].sid in s.rows && RowInv(s, s.attempts[a].sid)
    requires Holds(s.rows[s.attempts[a].sid], a, s.attempts[a].save.at)
    requires s.table.Keys <= s.rows.Keys && s.closer.Keys <= s.rows.Keys
    requires s.attempts[a].sid !in s.locks || s.locks[s.attempts[a].sid] == a
    ensures Effect(s, SaveCommitted(s, a), s.attempts[a].sid, a)
  {
    CommitRow(s, a);
    CommitLocal(s, a);
    CommitAttempt(s, a);
  }

  lemma CommitLocal(s: State, a: nat)
    requires a < |s.attempts| && s.attempts[a].save.RowUpdated?
    ensures Local(s, SaveCommitted(s, a), s.attempts[a].sid, a)
  {
  }

  lemma CommitAttempt(s: State, a: nat)
    requires a < |s.attempts| && s.attempts[a].save.RowUpdated? && AttemptInv(s, a)
    requires s.attempts[a].sid in s.rows && Holds(s.rows[s.attempts[a].sid], a, s.attempts[a].save.at)
    ensures a < |SaveCommitted(s, a).attempts| && AttemptInv(SaveCommitted(s, a), a)
  {
  }

  lemma CommitRow(s: State, a: nat)
    requires a < |s.attempts| && s.attempts[a].save.RowUpdated? && AttemptInv(s, a)
    requires s.attempts[a].sid in s.rows && RowInv(s, s.attempts[a].sid)
    requires Holds(s.rows[s.attempts[a].sid], a, s.attempts[a].save.at)
    ensures RowInv(SaveCommitted(s, a), s.attempts[a].sid)
  {
  }

  lemma CommitKeeps(s: State, a: nat)
    requires Inv(s) && a < |s.attempts| && s.attempts[a].save.RowUpdated?
    ensures Inv(SaveCommitted(s, a))
  {
    var x := s.attempts[a];
    assert AttemptInv(s, a);
    FinalUpdateMatches(s, a);
    assert RowInv(s, x.sid);
    CommitEffect(s, a);
    EffectKeeps(s, SaveCommitted(s, a), x.sid, a);
  }

  lemma AbortEffect(s: State, a: nat)
    requires a < |s.attempts| && AttemptInv(s, a) && InTransaction(s.attempts[a].save)
    requires s.attempts[a].sid in s.rows && RowInv(s, s.attempts[a].sid)
    requires s.rows[s.attempts[a].sid].status == Processing
    requires s.table.Keys <= s.rows.Keys && s.closer.Keys <= s.rows.Keys
    requires s.attempts[a].sid !in s.locks || s.locks[s.attempts[a].sid] == a
    ensures Effect(s, SaveAborted(s, a), s.attempts[a].sid, a)
  {
  }

  lemma AbortKeeps(s: State, a: nat)
    requires Inv(s) && ServerEnabled(s, a, AbortSave)
    ensures Inv(SaveAborted(s, a))
  {
    var x, t := s.attempts[a], SaveAborted(s, a);
    assert AttemptInv(s, a);
    if InTransaction(x.save) {
      FinalUpdateMatches(s, a);
      assert RowInv(s, x.sid);
      AbortEffect(s, a);
      EffectKeeps(s, t, x.sid, a);
    } else {
      PrivateEffect(s, a, t.attempts[a]);
      PrivateStep(s, a, t.attempts[a]);
    }
  }

  lemma ApplyFailOwn(s: State, a: nat)
    requires a < |s.attempts| && s.attempts[a].fail.Begun? && AttemptInv(s, a)
    requires s.attempts[a].sid in s.rows && RowInv(s, s.attempts[a].sid)
    requires Holds(s.rows[s.attempts[a].sid], a, s.attempts[a].fail.at)
    ensures RowInv(MarkedFailed(s, a), s.attempts[a].sid)
    ensures AttemptInv(MarkedFailed(s, a), a)
  {
  }

  lemma ApplyFailEffect(s: State, a: nat)
    requires a < |s.attempts| && s.attempts[a].fail.Begun? && AttemptInv(s, a)
    requires s.attempts[a].sid in s.rows && RowInv(s, s.attempts[a].sid)
    requires Holds(s.rows[s.attempts[a].sid], a, s.attempts[a].fail.at)
    requires s.table.Keys <= s.rows.Keys && s.closer.Keys <= s.rows.Keys
    requires Unlocked(s, s.attempts[a].sid)
    ensures Effect(s, MarkedFailed(s, a), s.attempts[a].sid, a)
  {
    var x, t := s.attempts[a], MarkedFailed(s, a);
    ApplyFailOwn(s, a);
  }

  lemma ApplyFailKeeps(s: State, a: nat)
    requires Inv(s) && a < |s.attempts| && s.attempts[a].fail.Begun? && Unlocked(s, s.attempts[a].sid)
    ensures Inv(MarkedFailed(s, a))
  {
    var x, t := s.attempts[a], MarkedFailed(s, a);
    assert AttemptInv(s, a);
    if x.sid in s.rows && Holds(s.rows[x.sid], a, x.fail.at) {
      assert RowInv(s, x.sid);
      ApplyFailEffect(s, a);
      EffectKeeps(s, t, x.sid, a);
    } else {
      PrivateEffect(s, a, t.attempts[a]);
      PrivateStep(s, a, t.attempts[a]);
    }
  }

  lemma DeleteKeeps(s: State, a: nat)
    requires Inv(s) && ServerEnabled(s, a, LandDelete)
    ensures Inv(Deleted(s, a))
  {
    var t := Deleted(s, a);
    assert AttemptInv(s, a);
    forall m | 0 <= m < |s.messages|
      ensures t.messages[m].count <= MAX_RECEIVES && (t.messages[m].deleted ==> Settled(s, t.messages[m].sid))
    {
      assert MessageInv(s, m);
    }
    MessagesGrow(s, t);
  }

  lemma ServerKeeps(s: State, a: nat, e: ServerEvent)
    requires Inv(s) && ServerEnabled(s, a, e)
    ensures Inv(ServerNext(s, a, e))
  {
    match e
    case BeginClaim => BeginKeeps(s, a, s.attempts[a].(claim := Begun(s.now)));
    case ApplyClaim => ApplyClaimKeeps(s, a);
    case BeginSave => BeginKeeps(s, a, s.attempts[a].(save := Open(s.now)));
    case LockRow => LockRowKeeps(s, a);
    case Upsert => UpsertKeeps(s, a);
    case UpdateRow => UpdateRowKeeps(s, a);
    case CommitSave => CommitKeeps(s, a);
    case AbortSave => AbortKeeps(s, a);
    case BeginFail => BeginKeeps(s, a, s.attempts[a].(fail := Begun(s.now)));
    case ApplyFail => ApplyFailKeeps(s, a);
    case LandDelete => DeleteKeeps(s, a);
  }

  // ---- the API, the queue and the clock ----

  /** Messages may be added or change state, but never change the statement they name. */
  lemma MessagesGrow(s: State, t: State)
    requires Inv(s)
    requires t == s.(now := t.now, messages := t.messages)
    requires |s.messages| <= |t.messages| && forall m :: 0 <= m < |s.messages| ==> t.messages[m].sid == s.messages[m].sid
    requires forall m :: 0 <= m < |t.messages| ==>
      t.messages[m].count <= MAX_RECEIVES && (t.messages[m].deleted ==> Settled(s, t.messages[m].sid))
    ensures Inv(t)
  {
    forall k | k in t.rows ensures RowInv(t, k) { assert RowInv(s, k); }
    forall k | k in t.locks ensures LockInv(t, k) { assert LockInv(s, k); }
    forall i | 0 <= i < |t.attempts| ensures AttemptInv(t, i) {
      assert AttemptInv(s, i);
      AttemptStable(s, t, i);
    }
    forall r | 0 <= r < |t.requests| ensures RequestInv(t, r) { assert RequestInv(s, r); }
  }

  lemma NewAttemptKeeps(s: State, m: nat)
    requires Inv(s) && m < |s.messages|
    ensures Inv(s.(attempts := s.attempts + [NewAttempt(s, m)]))
  {
    var t := s.(attempts := s.attempts + [NewAttempt(s, m)]);
    forall k | k in t.rows ensures RowInv(t, k) { assert RowInv(s, k); }
    forall k | k in t.locks ensures LockInv(t, k) { assert LockInv(s, k); }
    forall i | 0 <= i < |t.attempts| ensures AttemptInv(t, i) {
      if i < |s.attempts| {
        assert AttemptInv(s, i);
        AttemptStable(s, t, i);
      }
    }
    forall i | 0 <= i < |t.messages| ensures MessageInv(t, i) { assert MessageInv(s, i); }
    forall r | 0 <= r < |t.requests| ensures RequestInv(t, r) { assert RequestInv(s, r); }
  }

  lemma QueueKeeps(s: State, m: nat, e: QueueEvent)
    requires Inv(s) && QueueEnabled(s, m, e)
    ensures Inv(QueueNext(s, m, e))
  {
    var t := QueueNext(s, m, e);
    var grown := s.(messages := t.messages);
    forall i | 0 <= i < |s.messages|
      ensures t.messages[i].count <= MAX_RECEIVES && (t.messages[i].deleted ==> Settled(s, t.messages[i].sid))
    {
      assert MessageInv(s, i);
    }
    MessagesGrow(s, grown);
    if e.Receive? {
      NewAttemptKeeps(grown, m);
    }
  }

  lemma StrayKeeps(s: State, sid: StatementId)
    requires Inv(s)
    ensures Inv(s.(messages := s.messages + [NewMessage(s, sid)]))
  {
    var t := s.(messages := s.messages + [NewMessage(s, sid)]);
    forall i | 0 <= i < |t.messages|
      ensures t.messages[i].count <= MAX_RECEIVES && (t.messages[i].deleted ==> Settled(s, t.messages[i].sid))
    {
      if i < |s.messages| { assert MessageInv(s, i); }
    }
    MessagesGrow(s, t);
  }

  /** Locks, attempts and messages do not mind what requests do. */
  lemma RequestLeavesOthers(s: State, r: nat, q: Request)
    requires Inv(s) && r < |s.requests|
    ensures var t := s.(requests := s.requests[r := q]); LocksInv(t) && AttemptsInv(t) && MessagesInv(t)
  {
    var t := s.(requests := s.requests[r := q]);
    forall k | k in t.locks ensures LockInv(t, k) { assert LockInv(s, k); }
    forall i | 0 <= i < |t.attempts| ensures AttemptInv(t, i) { assert AttemptInv(s, i); }
    forall i | 0 <= i < |t.messages| ensures MessageInv(t, i) { assert MessageInv(s, i); }
  }

  /** A request that moves without touching its row. */
  lemma RequestMoves(s: State, r: nat, q: Request)
    requires Inv(s) && r < |s.requests| && q.sid == s.requests[r].sid && q.resetDone == s.requests[r].resetDone
    requires RequestInv(s.(requests := s.requests[r := q]), r)
    ensures Inv(s.(requests := s.requests[r := q]))
  {
    var t := s.(requests := s.requests[r := q]);
    RequestLeavesOthers(s, r, q);
    forall k | k in t.rows ensures RowInv(t, k) { assert RowInv(s, k); }
    forall i | 0 <= i < |t.requests| ensures RequestInv(t, i) { assert RequestInv(s, i); }
  }

  /** A row of the API's half of the life cycle changes status; no attempt, lock or message minds. */
  lemma ApiRowOthers(s: State, t: State, sid: StatementId)
    requires Inv(s) && Unlocked(s, sid) && t == s.(rows := t.rows, requests := t.requests, owner := t.owner)
    requires sid in s.rows && !Terminal(s.rows[sid].status)
    requires sid in t.rows && !Terminal(t.rows[sid].status) && t.rows == s.rows[sid := t.rows[sid]]
    ensures LocksInv(t) && AttemptsInv(t) && MessagesInv(t)
  {
    forall k | k in t.locks ensures LockInv(t, k) { assert LockInv(s, k); }
    forall i | 0 <= i < |t.attempts| ensures AttemptInv(t, i) {
      assert AttemptInv(s, i);
      AttemptStable(s, t, i);
    }
    forall i | 0 <= i < |t.messages| ensures MessageInv(t, i) { assert MessageInv(s, i); }
  }

  lemma ResetKeeps(s: State, r: nat)
    requires Inv(s) && RequestEnabled(s, r, ApplyReset)
    ensures Inv(RequestNext(s, r, ApplyReset))
  {
    var q, t := s.requests[r], RequestNext(s, r, ApplyReset);
    assert RequestInv(s, r);
    assert RowInv(s, q.sid);
    if s.rows[q.sid].status == Queued {
      ApiRowOthers(s, t, q.sid);
      forall k | k in t.rows ensures RowInv(t, k) { assert RowInv(s, k); }
      forall i | 0 <= i < |t.requests| ensures RequestInv(t, i) { assert RequestInv(s, i); }
    } else {
      ResetTooLate(s, r);
    }
  }

  lemma ResetTooLate(s: State, r: nat)
    requires Inv(s) && RequestEnabled(s, r, ApplyReset) && s.requests[r].sid in s.rows
    requires s.rows[s.requests[r].sid].status != Queued
    ensures Inv(RequestNext(s, r, ApplyReset))
  {
    var q := s.requests[r].(resetDone := true);
    var t := s.(requests := s.requests[r := q]);
    assert RequestNext(s, r, ApplyReset) == t;
    assert RequestInv(s, r);
    RequestLeavesOthers(s, r, q);
    forall k | k in t.rows ensures RowInv(t, k) { assert RowInv(s, k); }
    forall i | 0 <= i < |t.requests| ensures RequestInv(t, i) { assert RequestInv(s, i); }
  }

  lemma RequestKeeps(s: State, r: nat, e: RequestEvent)
    requires Inv(s) && RequestEnabled(s, r, e)
    ensures Inv(RequestNext(s, r, e))
  {
    assert RequestInv(s, r);
    if e.ApplyReset? {
      ResetKeeps(s, r);
    } else if e.Enqueue? {
      var grown := s.(messages := s.messages + [NewMessage(s, s.requests[r].sid)]);
      StrayKeeps(s, s.requests[r].sid);
      assert RequestInv(grown, r);
      RequestMoves(grown, r, RequestAfter(s, s.requests[r], e));
    } else {
      RequestMoves(s, r, RequestAfter(s, s.requests[r], e));
    }
  }

  lemma CreatedRows(s: State, sid: StatementId)
    requires RowsInv(s) && RowEnabled(s, sid, Create)
    ensures RowsInv(RowNext(s, sid, Create))
  {
    var t := RowNext(s, sid, Create);
    forall k | k in t.rows ensures RowInv(t, k) { if k in s.rows { assert RowInv(s, k); } }
  }

  lemma CreateKeeps(s: State, sid: StatementId)
    requires Inv(s) && RowEnabled(s, sid, Create)
    ensures Inv(RowNext(s, sid, Create))
  {
    var t := RowNext(s, sid, Create);
    CreatedRows(s, sid);
    forall k | k in t.locks ensures LockInv(t, k) { assert LockInv(s, k); }
    forall i | 0 <= i < |t.attempts| ensures AttemptInv(t, i) {
      assert AttemptInv(s, i);
      AttemptStable(s, t, i);
    }
    forall i | 0 <= i < |t.messages| ensures MessageInv(t, i) { assert MessageInv(s, i); }
    forall i | 0 <= i < |t.requests| ensures RequestInv(t, i) { assert RequestInv(s, i); }
  }

  lemma UploadedRows(s: State, sid: StatementId)
    requires RowsInv(s) && RowEnabled(s, sid, MarkUploaded)
    ensures RowsInv(RowNext(s, sid, MarkUploaded))
  {
    var t := RowNext(s, sid, MarkUploaded);
    forall k | k in t.rows ensures RowInv(t, k) { assert RowInv(s, k); }
  }

  lemma UploadedRequests(s: State, sid: StatementId)
    requires RequestsInv(s) && RowEnabled(s, sid, MarkUploaded)
    ensures RequestsInv(RowNext(s, sid, MarkUploaded))
  {
    var t := RowNext(s, sid, MarkUploaded);
    forall i | 0 <= i < |t.requests| ensures RequestInv(t, i) { assert RequestInv(s, i); }
  }

  lemma UploadedKeeps(s: State, sid: StatementId)
    requires Inv(s) && RowEnabled(s, sid, MarkUploaded)
    ensures Inv(RowNext(s, sid, MarkUploaded))
  {
    UploadedRows(s, sid);
    UploadedRequests(s, sid);
    ApiRowOthers(s, RowNext(s, sid, MarkUploaded), sid);
  }

  lemma QueuedRows(s: State, sid: StatementId, heard: bool)
    requires RowsInv(s) && RowEnabled(s, sid, MarkQueued(heard))
    ensures RowsInv(RowNext(s, sid, MarkQueued(heard)))
  {
    var t := RowNext(s, sid, MarkQueued(heard));
    forall k | k in t.rows ensures RowInv(t, k) { assert RowInv(s, k); }
  }

  lemma QueuedRequests(s: State, sid: StatementId, heard: bool)
    requires RequestsInv(s) && RowEnabled(s, sid, MarkQueued(heard))
    ensures RequestsInv(RowNext(s, sid, MarkQueued(heard)))
  {
    var t := RowNext(s, sid, MarkQueued(heard));
    forall i | 0 <= i < |t.requests| ensures RequestInv(t, i) { if i < |s.requests| { assert RequestInv(s, i); } }
  }

  lemma QueuedKeeps(s: State, sid: StatementId, heard: bool)
    requires Inv(s) && RowEnabled(s, sid, MarkQueued(heard))
    ensures Inv(RowNext(s, sid, MarkQueued(heard)))
  {
    QueuedRows(s, sid, heard);
    QueuedRequests(s, sid, heard);
    ApiRowOthers(s, RowNext(s, sid, MarkQueued(heard)), sid);
  }

  /** Every step of the system keeps the invariant. */
  lemma StepKeeps(s: State, action: Action)
    requires Inv(s) && Enabled(s, action)
    ensures Inv(Next(s, action))
  {
    match action
    case Tick(_) => MessagesSame(s, Next(s, action));
    case OnRow(sid, Create) => CreateKeeps(s, sid);
    case OnRow(sid, MarkUploaded) => UploadedKeeps(s, sid);
    case OnRow(sid, MarkQueued(heard)) => QueuedKeeps(s, sid, heard);
    case OnRequest(r, e) => RequestKeeps(s, r, e);
    case StraySend(sid) => StrayKeeps(s, sid);
    case OnQueue(m, e) => QueueKeeps(s, m, e);
    case OnHandler(a, e) => HandlerKeeps(s, a, e);
    case OnServer(a, e) => ServerKeeps(s, a, e);
  }

  lemma MessagesSame(s: State, t: State)
    requires Inv(s) && t == s.(now := t.now)
    ensures Inv(t)
  {
    forall i | 0 <= i < |t.messages|
      ensures t.messages[i].count <= MAX_RECEIVES && (t.messages[i].deleted ==> Settled(s, t.messages[i].sid))
    {
      assert MessageInv(s, i);
    }
    MessagesGrow(s, t);
  }
}
