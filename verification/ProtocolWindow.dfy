/** Runs at the edges of the lease: a claim outside its window, and a commit beyond the lease. */
module ProtocolWindow {
  import opened Wrappers
  import opened Statements
  import opened Protocol
  import opened ProtocolQueue
  import opened ProtocolRefinement
  import opened ProtocolRecovery

  /** Statement 0 is queued and its one message delivered once; the handler has sent its claim. */
  predicate Delivered(s: State) {
    && 0 in s.rows && s.rows[0].status == Queued && s.locks == map[]
    && |s.messages| == 1 && s.messages[0] == Message(0, 1, s.now + VISIBILITY, false, false)
    && |s.attempts| == 1 && s.attempts[0].sid == 0 && s.attempts[0].mid == 0 && s.attempts[0].receivedAt == s.now
    && s.attempts[0].claim == Sent && s.attempts[0].leaseSeconds == LEASE_SECONDS
  }

  lemma Deliver(init: State) returns (t: State)
    requires Init(init)
    ensures Reaches(init, t) && Delivered(t) && t.now == init.now
  {
    t := NewJob(init, 0);
    t := Advance(init, t, OnQueue(0, Receive));
    t := Advance(init, t, OnHandler(0, SendClaim(LEASE_SECONDS)));
  }

  /** The claim starts `wait` after the receipt, and the lease counts from there. */
  predicate ClaimedLate(s: State, wait: nat) {
    && 0 in s.rows && s.rows[0].status == Processing && s.rows[0].token == Some(0) && s.locks == map[]
    && |s.attempts| == 1 && s.attempts[0].sid == 0 && s.attempts[0].mid == 0
    && s.rows[0].startedAt == Some(s.attempts[0].receivedAt + wait)
    && s.rows[0].lease == Some(s.attempts[0].receivedAt + wait + LEASE_SECONDS * SECOND)
    && |s.messages| == 1 && s.messages[0] == Message(0, 1, s.attempts[0].receivedAt + VISIBILITY, false, false)
    && s.now == s.attempts[0].receivedAt + wait
  }

  lemma ClaimLate(s: State, wait: nat) returns (t: State)
    requires Delivered(s)
    ensures Reaches(s, t) && ClaimedLate(t, wait) && t.attempts[0].receivedAt == s.now
  {
    ReachesSelf(s);
    t := Advance(s, s, Tick(wait));
    t := Advance(s, t, OnServer(0, BeginClaim));
    t := Advance(s, t, OnServer(0, ApplyClaim));
  }

  /** The second delivery, at the first instant the message is visible again, has tried to claim. */
  predicate Refused(s: State, wait: nat) {
    && 0 in s.rows && s.rows[0].status == Processing && s.rows[0].token == Some(0)
    && |s.attempts| == 2 && s.attempts[0].sid == s.attempts[1].sid == 0 && s.attempts[0].mid == s.attempts[1].mid == 0
    && s.rows[0].startedAt == Some(s.attempts[0].receivedAt + wait)
    && s.attempts[0].receivedAt + VISIBILITY <= s.attempts[1].receivedAt
    && s.attempts[1].claim == Done(false)
  }

  /** The message is delivered again, and the second handler has sent its claim. */
  predicate Redelivered(s: State, wait: nat) {
    && 0 in s.rows && s.rows[0].status == Processing && s.rows[0].token == Some(0) && s.locks == map[]
    && |s.attempts| == 2 && s.attempts[0].sid == s.attempts[1].sid == 0 && s.attempts[0].mid == s.attempts[1].mid == 0
    && s.rows[0].startedAt == Some(s.attempts[0].receivedAt + wait)
    && s.attempts[0].receivedAt + VISIBILITY <= s.attempts[1].receivedAt
    && s.attempts[1].claim == Sent
    && s.rows[0].lease.Some? && s.now <= s.rows[0].lease.value
  }

  lemma Redeliver(s: State, wait: nat) returns (t: State)
    requires ClaimedLate(s, wait) && wait >= CLAIM_WINDOW
    ensures Reaches(s, t) && Redelivered(t, wait)
  {
    ReachesSelf(s);
    t := Advance(s, s, Tick(if wait < VISIBILITY then VISIBILITY - wait else 0));
    t := Advance(s, t, OnQueue(0, Receive));
    t := Advance(s, t, OnHandler(1, SendClaim(LEASE_SECONDS)));
  }

  lemma ClaimAgain(s: State, wait: nat) returns (t: State)
    requires Redelivered(s, wait)
    ensures Reaches(s, t) && Refused(t, wait)
  {
    ReachesSelf(s);
    t := Advance(s, s, OnServer(1, BeginClaim));
    t := Advance(s, t, OnServer(1, ApplyClaim));
  }

  /**
   However little the claim misses its window of 300 seconds, there is a run from the start in which
   the redelivered job, visible again after its full timeout, is refused while its statement is still
   PROCESSING.
   */
  lemma LateClaimShutsOutRedelivery(init: State, wait: nat) returns (t: State)
    requires Init(init) && wait >= CLAIM_WINDOW
    ensures Reaches(init, t) && Refused(t, wait)
  {
    var u := Deliver(init);
    var v := ClaimLate(u, wait);
    ThenReaches(init, u, v);
    var w := Redeliver(v, wait);
    ThenReaches(init, v, w);
    t := ClaimAgain(w, wait);
    ThenReaches(init, w, t);
  }

  // ---- a commit beyond the lease ----

  lemma {:induction false} UpsertRest(s: State, a: nat, before: Lines) returns (t: State)
    requires InSave(s, a, before)
    ensures Reaches(s, t) && SavesOn(s, t, a, before)
    ensures t.attempts[a].save.next == |t.attempts[a].lines|
    decreases |s.attempts[a].lines| - s.attempts[a].save.next
  {
    ReachesSelf(s);
    if s.attempts[a].save.next == |s.attempts[a].lines| {
      t := s;
    } else {
      var u := OneUpsert(s, a, before);
      t := UpsertRest(u, a, before);
      ThenReaches(s, u, t);
    }
  }

  /** The same save, further on. */
  predicate SavesOn(s: State, t: State, a: nat, before: Lines)
    requires InSave(s, a, before)
  {
    && InSave(t, a, before) && t.rows == s.rows && t.now == s.now
    && t.attempts[a].sid == s.attempts[a].sid && t.attempts[a].lines == s.attempts[a].lines
  }

  lemma OneUpsert(s: State, a: nat, before: Lines) returns (t: State)
    requires InSave(s, a, before) && s.attempts[a].save.next < |s.attempts[a].lines|
    ensures Reaches(s, t) && SavesOn(s, t, a, before) && t.attempts[a].save.next == s.attempts[a].save.next + 1
  {
    ReachesSelf(s);
    UpsertInSave(s, a, before);
    t := Advance(s, s, OnServer(a, Upsert));
  }

  /** The save has done all but its COMMIT. */
  predicate Uncommitted(s: State, a: nat, sid: StatementId, lines: seq<Transaction>) {
    && a < |s.attempts| && s.attempts[a].sid == sid && s.attempts[a].save.RowUpdated?
    && s.attempts[a].save.row.status == Completed && s.attempts[a].save.pending == UpsertAll(map[], lines)
  }

  lemma SaveUpToCommit(s: State, a: nat, sid: StatementId, lines: seq<Transaction>) returns (t: State)
    requires a < |s.attempts| && s.attempts[a].sid == sid && s.attempts[a].save.Open? && s.attempts[a].lines == lines
    requires sid in s.rows && Holds(s.rows[sid], a, s.attempts[a].save.at) && Unlocked(s, sid) && LinesOf(s.table, sid) == map[]
    ensures Reaches(s, t) && t.rows == s.rows && t.now == s.now && Uncommitted(t, a, sid, lines)
  {
    ReachesSelf(s);
    var u := Advance(s, s, OnServer(a, LockRow));
    var v := UpsertRest(u, a, map[]);
    ThenReaches(s, u, v);
    assert lines[..|lines|] == lines;
    t := Advance(s, v, OnServer(a, UpdateRow));
  }

  lemma CommitLate(s: State, a: nat, sid: StatementId, lines: seq<Transaction>, late: nat) returns (t: State)
    requires Uncommitted(s, a, sid, lines)
    ensures Reaches(s, t) && t.now == s.now + late
    ensures sid in t.rows && t.rows[sid].status == Completed && LinesOf(t.table, sid) == UpsertAll(map[], lines)
  {
    ReachesSelf(s);
    t := Advance(s, s, Tick(late));
    t := Advance(s, t, OnServer(a, CommitSave));
  }

  lemma OpenSave(init: State, lines: seq<Transaction>) returns (t: State)
    requires Init(init) && Analyzable(lines)
    ensures Reaches(init, t) && 0 in t.rows && t.rows[0].status == Processing && t.rows[0].token == Some(0)
    ensures t.rows[0].lease == Some(t.now + LEASE_SECONDS * SECOND) && Unlocked(t, 0) && LinesOf(t.table, 0) == map[]
    ensures |t.attempts| > 0 && t.attempts[0].sid == 0 && t.attempts[0].save == Open(t.now) && t.attempts[0].lines == lines
  {
    var u := NewJob(init, 0);
    var v := DeliverAndClaim(u, 0, 0);
    ThenReaches(init, u, v);
    t := AnalyzeAndBegin(v, 0, 0, 0, lines);
    ThenReaches(init, v, t);
  }

  /**
   For every analysis and every delay beyond the lease there is a run from the start in which the
   save of a statement still PROCESSING commits when its lease is over, and completes it.
   */
  lemma CommitLandsBeyondTheLease(init: State, lines: seq<Transaction>, late: nat) returns (u: State, t: State)
    requires Init(init) && Analyzable(lines) && late > LEASE_SECONDS * SECOND
    ensures Reaches(init, u) && Uncommitted(u, 0, 0, lines)
    ensures 0 in u.rows && u.rows[0].status == Processing && u.rows[0].token == Some(0) && u.rows[0].lease.Some?
    ensures Reaches(u, t) && Reaches(init, t) && t.now > u.rows[0].lease.value
    ensures 0 in t.rows && t.rows[0].status == Completed && LinesOf(t.table, 0) == UpsertAll(map[], lines)
  {
    var s := OpenSave(init, lines);
    u := SaveUpToCommit(s, 0, 0, lines);
    ThenReaches(init, s, u);
    t := CommitLate(u, 0, 0, lines, late);
    ThenReaches(init, u, t);
  }
}
