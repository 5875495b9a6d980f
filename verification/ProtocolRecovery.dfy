/** Whatever has happened, a job whose message can still be received can still be completed. */
module ProtocolRecovery {
  import opened Wrappers
  import opened Statements
  import opened Protocol
  import opened ProtocolInvariant
  import opened ProtocolSafety
  import opened ProtocolRefinement

  ghost predicate Reaches(s: State, t: State) {
    exists actions :: Runs(s, actions) && After(s, actions) == t
  }

  lemma ReachesSelf(s: State)
    ensures Reaches(s, s)
  {
    assert Runs(s, []) && After(s, []) == s;
  }

  lemma {:induction false} Concatenate(s: State, first: seq<Action>, rest: seq<Action>)
    requires Runs(s, first) && Runs(After(s, first), rest)
    ensures Runs(s, first + rest) && After(s, first + rest) == After(After(s, first), rest)
    decreases |first|
  {
    if first == [] {
      assert first + rest == rest;
    } else {
      Concatenate(Next(s, first[0]), first[1..], rest);
      assert (first + rest)[1..] == first[1..] + rest;
    }
  }

  lemma Regroup<T>(x: seq<T>, y: seq<T>, z: seq<T>)
    ensures x + y + z == x + (y + z)
  {
  }

  lemma ThenReaches(s: State, t: State, u: State)
    requires Reaches(s, t) && Reaches(t, u)
    ensures Reaches(s, u)
  {
    var first :| Runs(s, first) && After(s, first) == t;
    var rest :| Runs(t, rest) && After(t, rest) == u;
    Concatenate(s, first, rest);
  }

  lemma ThenStep(s: State, t: State, action: Action)
    requires Reaches(s, t) && Enabled(t, action)
    ensures Reaches(s, Next(t, action))
  {
    var u := Next(t, action);
    assert [action][1..] == [];
    assert Runs(u, []) && After(u, []) == u;
    assert Runs(t, [action]) && After(t, [action]) == u;
    ThenReaches(s, t, u);
  }

  /** Messages may have changed state, but there are no new ones, and each names its statement still. */
  predicate SameJobs(s: State, t: State) {
    |t.messages| == |s.messages| && forall i :: 0 <= i < |s.messages| ==> t.messages[i].sid == s.messages[i].sid
  }

  /** The row can be claimed by a call that starts now, and nobody holds its lock. */
  predicate Free(s: State, sid: StatementId) {
    sid in s.rows && Unlocked(s, sid) && Claimable(s.rows[sid], s.now)
  }

  /** An open save can be rolled back, and time passes every lease. */
  lemma FreeAfterWaiting(s: State, sid: StatementId) returns (t: State)
    requires Inv(s) && sid in s.rows && (s.rows[sid].status == Queued || s.rows[sid].status == Processing)
    ensures Reaches(s, t) && Inv(t) && Free(t, sid) && t.messages == s.messages && t.table == s.table && t.rows == s.rows
  {
    t := s;
    ReachesSelf(s);
    assert RowInv(s, sid);
    if sid in s.locks {
      assert LockInv(s, sid);
      ThenStep(s, s, OnServer(s.locks[sid], AbortSave));
      AbortKeeps(s, s.locks[sid]);
      t := SaveAborted(s, s.locks[sid]);
    }
    var wait := Tick(if s.rows[sid].lease.Some? then s.rows[sid].lease.value + 1 else 0);
    ThenStep(s, t, wait);
    StepKeeps(t, wait);
    t := Next(t, wait);
  }

  /** A fresh delivery of m that has claimed the row and is about to download the image. */
  predicate HoldsClaim(s: State, a: nat, m: nat, sid: StatementId) {
    && a < |s.attempts| && s.attempts[a].sid == sid && s.attempts[a].mid == m
    && s.attempts[a].pc == Fetching && s.attempts[a].claim == Done(true)
    && s.attempts[a].save.Unsent? && s.attempts[a].fail.NotSent?
    && sid in s.rows && s.rows[sid].status == Processing && s.rows[sid].token == Some(a)
    && s.rows[sid].lease.Some? && s.rows[sid].lease.value > s.now && Unlocked(s, sid)
  }

  lemma DeliverAndClaim(s: State, m: nat, sid: StatementId) returns (t: State)
    requires Free(s, sid) && QueueEnabled(s, m, Receive) && s.messages[m].sid == sid
    ensures Reaches(s, t) && HoldsClaim(t, |s.attempts|, m, sid) && t.table == s.table && t.now == s.now
    ensures SameJobs(s, t) && t.rows.Keys == s.rows.Keys && t.locks == s.locks
    ensures t.rows[sid].lease == Some(s.now + LEASE_SECONDS * SECOND)
  {
    var u := DeliverJob(s, m, sid);
    t := ClaimJob(u, |s.attempts|, m, sid);
    ThenReaches(s, u, t);
  }

  /** A fresh delivery of m has sent its claim. */
  predicate AsksForClaim(s: State, a: nat, m: nat, sid: StatementId) {
    && a < |s.attempts|
    && s.attempts[a] == Attempt(sid, m, s.now, Claiming, LEASE_SECONDS, Sent, [], Unsent, ProcessingFailed, NotSent, false, None)
  }

  lemma DeliverJob(s: State, m: nat, sid: StatementId) returns (t: State)
    requires QueueEnabled(s, m, Receive) && s.messages[m].sid == sid
    ensures Reaches(s, t) && AsksForClaim(t, |s.attempts|, m, sid) && SameJobs(s, t)
    ensures t.rows == s.rows && t.table == s.table && t.now == s.now && t.locks == s.locks
  {
    ReachesSelf(s);
    t := Advance(s, s, OnQueue(m, Receive));
    t := Advance(s, t, OnHandler(|s.attempts|, SendClaim(LEASE_SECONDS)));
  }

  lemma ClaimJob(s: State, a: nat, m: nat, sid: StatementId) returns (t: State)
    requires Free(s, sid) && AsksForClaim(s, a, m, sid)
    ensures Reaches(s, t) && HoldsClaim(t, a, m, sid) && t.table == s.table && t.now == s.now
    ensures t.messages == s.messages && t.rows.Keys == s.rows.Keys && t.locks == s.locks
    ensures t.rows[sid].lease == Some(s.now + LEASE_SECONDS * SECOND)
  {
    ReachesSelf(s);
    t := Advance(s, s, OnServer(a, BeginClaim));
    t := Advance(s, t, OnServer(a, ApplyClaim));
    t := Advance(s, t, OnHandler(a, ClaimReturned));
  }

  lemma Advance(s: State, t: State, action: Action) returns (u: State)
    requires Reaches(s, t) && Enabled(t, action)
    ensures Reaches(s, u) && u == Next(t, action)
  {
    ThenStep(s, t, action);
    u := Next(t, action);
  }

  lemma AnalyzeAndSave(s: State, a: nat, m: nat, sid: StatementId, lines: seq<Transaction>) returns (t: State)
    requires HoldsClaim(s, a, m, sid) && Analyzable(lines)
    ensures Reaches(s, t) && sid in t.rows && t.rows[sid].status == Completed
    ensures LinesOf(t.table, sid) == UpsertAll(LinesOf(s.table, sid), lines)
    ensures t.messages == s.messages && t.rows.Keys == s.rows.Keys
    ensures a < |t.attempts| && t.attempts[a] == s.attempts[a].(pc := Saving, lines := lines, save := Committed)
  {
    var u := AnalyzeAndBegin(s, a, m, sid, lines);
    t := SaveAll(u, a);
    ThenReaches(s, u, t);
  }

  lemma AnalyzeAndBegin(s: State, a: nat, m: nat, sid: StatementId, lines: seq<Transaction>) returns (t: State)
    requires HoldsClaim(s, a, m, sid) && Analyzable(lines)
    ensures Reaches(s, t) && t.rows == s.rows && t.table == s.table && t.locks == s.locks && t.now == s.now
    ensures t.messages == s.messages
    ensures a < |t.attempts| && t.attempts[a] == s.attempts[a].(pc := Saving, lines := lines, save := Open(s.now))
  {
    ReachesSelf(s);
    t := Advance(s, s, OnHandler(a, Fetched));
    t := Advance(s, t, OnHandler(a, Analyzed(lines)));
    t := Advance(s, t, OnServer(a, BeginSave));
  }

  /** The save runs through without interruption. */
  lemma SaveAll(s: State, a: nat) returns (t: State)
    requires a < |s.attempts| && s.attempts[a].save.Open? && Unlocked(s, s.attempts[a].sid)
    requires s.attempts[a].sid in s.rows && Holds(s.rows[s.attempts[a].sid], a, s.attempts[a].save.at)
    ensures var sid := s.attempts[a].sid;
      && Reaches(s, t) && sid in t.rows && t.rows[sid].status == Completed
      && LinesOf(t.table, sid) == UpsertAll(LinesOf(s.table, sid), s.attempts[a].lines)
      && t.messages == s.messages && t.rows.Keys == s.rows.Keys
      && t.attempts == s.attempts[a := s.attempts[a].(save := Committed)]
  {
    SaveRefines(s, a);
    t := After(s, SaveRun(a, |s.attempts[a].lines|));
  }

  /**
   From every reachable state: a queued or processing statement with a message that can still be
   received can be completed with any valid analysis, storing exactly that analysis.
   */
  lemma CanAlwaysComplete(s: State, m: nat, lines: seq<Transaction>) returns (t: State)
    requires Reachable(s) && QueueEnabled(s, m, Receive) && Analyzable(lines)
    requires s.messages[m].sid in s.rows
    requires s.rows[s.messages[m].sid].status == Queued || s.rows[s.messages[m].sid].status == Processing
    ensures Reaches(s, t) && s.messages[m].sid in t.rows
    ensures t.rows[s.messages[m].sid].status == Completed
    ensures LinesOf(t.table, s.messages[m].sid) == UpsertAll(map[], lines)
    ensures SameJobs(s, t) && t.rows.Keys == s.rows.Keys
  {
    var sid := s.messages[m].sid;
    ReachableInv(s);
    assert RowInv(s, sid);
    var u := FreeAfterWaiting(s, sid);
    var v := DeliverAndClaim(u, m, sid);
    ThenReaches(s, u, v);
    t := AnalyzeAndSave(v, |u.attempts|, m, sid, lines);
    ThenReaches(s, v, t);
  }

  /** A new statement is uploaded and queued, and its job sent. */
  predicate Arrives(s: State, t: State, sid: StatementId) {
    && sid in t.rows && t.rows == s.rows[sid := t.rows[sid]] && t.rows[sid].status == Queued
    && t.messages == s.messages + [Message(sid, 0, s.now, false, false)]
    && t.table == s.table && t.locks == s.locks && t.attempts == s.attempts && t.now == s.now
  }

  lemma NewRow(s: State, sid: StatementId) returns (t: State)
    requires RowEnabled(s, sid, Create) && Unlocked(s, sid)
    ensures Reaches(s, t) && sid in t.rows && t.rows[sid].status == Queued
    ensures t == s.(rows := s.rows[sid := t.rows[sid]], owner := t.owner,
                    requests := s.requests + [Request(sid, Marked, false, None, false, false)])
  {
    ReachesSelf(s);
    t := Advance(s, s, OnRow(sid, Create));
    t := Advance(s, t, OnRow(sid, MarkUploaded));
    t := Advance(s, t, OnRow(sid, MarkQueued(true)));
  }

  lemma NewJob(s: State, sid: StatementId) returns (t: State)
    requires RowEnabled(s, sid, Create) && Unlocked(s, sid)
    ensures Reaches(s, t) && Arrives(s, t, sid)
  {
    var r := |s.requests|;
    t := NewRow(s, sid);
    t := Advance(s, t, OnRequest(r, IssueSend));
    t := Advance(s, t, OnRequest(r, Enqueue));
  }
}
