/** How many completed statements the monthly report bears: exactly 900,719, over all the system can get into. */
module ProtocolOverflow {
  import opened Wrappers
  import opened Documents
  import Calendar
  import opened Statements
  import opened Months
  import opened Aggregation
  import OcrSchema
  import OcrLimits
  import opened Protocol
  import opened ProtocolInvariant
  import opened ProtocolSafety
  import opened ProtocolRecovery
  import opened ProtocolReports

  // ---- any number of statements with the same analysis ----

  /** The statements are 0 to n - 1, all completed with these lines, and no job names any other. */
  ghost predicate CompletedUpTo(s: State, n: nat, lines: seq<Transaction>) {
    && (forall id: StatementId :: id in s.rows <==> id < n)
    && (forall id: StatementId :: id < n ==> IsCompleted(s, id, lines))
    && (forall m :: 0 <= m < |s.messages| ==> s.messages[m].sid < n)
  }

  predicate IsCompleted(s: State, id: StatementId, lines: seq<Transaction>) {
    id in s.rows && s.rows[id].status == Completed && LinesOf(s.table, id) == UpsertAll(map[], lines)
  }

  lemma StaysReachable(s: State, t: State)
    requires Reachable(s) && Reaches(s, t)
    ensures Reachable(t)
  {
    var init, first :| Init(init) && Runs(init, first) && After(init, first) == s;
    assert Reaches(init, s);
    ThenReaches(init, s, t);
    var actions :| Runs(init, actions) && After(init, actions) == t;
  }

  /** What has been completed stays as it is. */
  lemma CompletedStay(s: State, t: State, id: StatementId, lines: seq<Transaction>)
    requires Inv(s) && Reaches(s, t) && IsCompleted(s, id, lines)
    ensures IsCompleted(t, id, lines)
  {
    var actions :| Runs(s, actions) && After(s, actions) == t;
    TerminalAbsorbs(s, actions, id);
  }

  lemma UnknownIsFree(s: State, n: nat, lines: seq<Transaction>)
    requires Inv(s) && CompletedUpTo(s, n, lines)
    ensures RowEnabled(s, n, Create) && Unlocked(s, n)
  {
    if n in s.locks { LockedIsKnown(s, n); }
  }

  lemma LockedIsKnown(s: State, sid: StatementId)
    requires LocksInv(s) && sid in s.locks
    ensures sid in s.rows
  {
    assert LockInv(s, sid);
  }

  /** The next statement's job is in the queue, and all others are completed. */
  ghost predicate NextArrived(s: State, n: nat, lines: seq<Transaction>) {
    && (forall id: StatementId :: id in s.rows <==> id <= n) && s.rows[n].status == Queued
    && (forall id: StatementId :: id < n ==> IsCompleted(s, id, lines))
    && (forall m :: 0 <= m < |s.messages| ==> s.messages[m].sid <= n)
    && |s.messages| > 0 && s.messages[|s.messages| - 1].sid == n && QueueEnabled(s, |s.messages| - 1, Receive)
  }

  lemma Arrive(s: State, n: nat, lines: seq<Transaction>) returns (t: State)
    requires Inv(s) && CompletedUpTo(s, n, lines)
    ensures Reaches(s, t) && NextArrived(t, n, lines)
  {
    UnknownIsFree(s, n, lines);
    t := NewJob(s, n);
    forall id: StatementId | id < n ensures IsCompleted(t, id, lines) { assert IsCompleted(s, id, lines); }
  }

  lemma FinishNext(s: State, n: nat, lines: seq<Transaction>) returns (t: State)
    requires Reachable(s) && NextArrived(s, n, lines) && Analyzable(lines)
    ensures Reaches(s, t) && CompletedUpTo(t, n + 1, lines)
  {
    ReachableInv(s);
    t := CanAlwaysComplete(s, |s.messages| - 1, lines);
    forall id: StatementId | id < n + 1 ensures IsCompleted(t, id, lines) {
      if id < n { CompletedStay(s, t, id, lines); }
    }
    KeysTell(s, t);
  }

  lemma KeysTell(s: State, t: State)
    requires t.rows.Keys == s.rows.Keys
    ensures forall id: StatementId :: id in t.rows <==> id in s.rows
  {
    forall id: StatementId ensures id in t.rows <==> id in s.rows { assert id in t.rows.Keys <==> id in s.rows.Keys; }
  }

  lemma {:induction false} Complete(init: State, n: nat, lines: seq<Transaction>) returns (s: State)
    requires Init(init) && Analyzable(lines)
    ensures Reaches(init, s) && Reachable(s) && CompletedUpTo(s, n, lines)
  {
    if n == 0 {
      s := init;
      ReachesSelf(init);
      assert Runs(init, []) && After(init, []) == init;
    } else {
      var front := Complete(init, n - 1, lines);
      ReachableInv(front);
      var u := Arrive(front, n - 1, lines);
      StaysReachable(front, u);
      s := FinishNext(u, n - 1, lines);
      StaysReachable(u, s);
      ThenReaches(init, front, u);
      ThenReaches(init, u, s);
    }
  }

  // ---- what the report makes of them ----

  function UpTo(n: nat): set<nat> {
    if n == 0 then {} else UpTo(n - 1) + {n}
  }

  lemma {:induction false} UpToHolds(n: nat)
    ensures |UpTo(n)| == n && forall k :: k in UpTo(n) <==> 1 <= k <= n
  {
    if n > 0 { UpToHolds(n - 1); }
  }

  lemma SubsetOfSameSize(a: set<nat>, b: set<nat>)
    requires a <= b && |a| == |b|
    ensures a == b
  {
    assert b == a + (b - a);
  }

  /** 100 lines with numbers from 1 to 100 have every such number. */
  lemma EveryNumberIsStored(lines: seq<Transaction>)
    requires Analyzable(lines) && |lines| == MAX_LINES
    ensures forall k :: 1 <= k <= MAX_LINES ==> k in UpsertAll(map[], lines)
  {
    var stored := UpsertAll(map[], lines);
    UpsertAllStoresEach(lines);
    UpToHolds(MAX_LINES);
    forall k | k in stored ensures k in UpTo(MAX_LINES) { UpsertedAreAnalyzed(lines, k); }
    assert stored.Keys <= UpTo(MAX_LINES);
    assert |stored.Keys| == |stored|;
    SubsetOfSameSize(stored.Keys, UpTo(MAX_LINES));
  }

  lemma {:induction false} ListedAll(stored: Lines, n: nat)
    requires forall k :: 1 <= k <= n ==> k in stored
    ensures |Listed(stored, n)| == n && forall i :: 0 <= i < n ==> Listed(stored, n)[i] == stored[i + 1]
  {
    if n > 0 { ListedAll(stored, n - 1); }
  }

  lemma ListedIsFull(lines: seq<Transaction>, r: Range)
    requires Analyzable(lines) && Full(lines, r)
    ensures Full(Listed(UpsertAll(map[], lines), MAX_LINES), r)
  {
    var stored := UpsertAll(map[], lines);
    EveryNumberIsStored(lines);
    ListedAll(stored, MAX_LINES);
    var listed := Listed(stored, MAX_LINES);
    forall i | 0 <= i < |listed| ensures listed[i].amount == MAX_AMOUNT && InRange(listed[i].date, r) {
      UpsertedAreAnalyzed(lines, i + 1);
    }
  }

  function Ids(n: nat): seq<StatementId> {
    seq(n, (i: nat) => i)
  }

  lemma StoredAreCopies(s: State, n: nat, lines: seq<Transaction>)
    requires CompletedUpTo(s, n, lines)
    ensures forall i :: 0 <= i < |Ids(n)| ==> Ids(n)[i] in s.rows
    ensures Stored(s, Ids(n)) == Copies(n, Listed(UpsertAll(map[], lines), MAX_LINES))
  {
    forall i | 0 <= i < n
      ensures Ids(n)[i] in s.rows && Stored(s, Ids(n))[i] == Copies(n, Listed(UpsertAll(map[], lines), MAX_LINES))[i]
    {
      assert IsCompleted(s, i, lines);
    }
  }

  lemma FullLinesThrow(init: State, n: nat, lines: seq<Transaction>, r: Range) returns (s: State)
    requires Init(init) && n > MAX_STATEMENTS && Analyzable(lines) && Full(lines, r)
    ensures Reaches(init, s) && Reachable(s) && CompletedUpTo(s, n, lines)
    ensures forall i :: 0 <= i < |Ids(n)| ==> Ids(n)[i] in s.rows
    ensures CompletedCount(Stored(s, Ids(n))) == n
    ensures FindMonthlyAggregate(Stored(s, Ids(n)), r) == Failure(OutsideSafeRange)
  {
    s := Complete(init, n, lines);
    StoredAreCopies(s, n, lines);
    ListedIsFull(lines, r);
    OneMoreStatementOverflows(n, Listed(UpsertAll(map[], lines), MAX_LINES), r);
  }

  /**
   For every number beyond 900,719 and every full OCR result the schemas accept there is a run after
   which exactly that many statements exist, all completed with that result, and the report throws.
   */
  lemma TooManyStatementsThrow(init: State, n: nat, input: Json, r: Range) returns (s: State)
    requires Init(init) && n > MAX_STATEMENTS
    requires var parsed := OcrSchema.ParseOcrToolInput(input);
      parsed.Success? && OcrSchema.AllSound(parsed.value) && Full(OcrSchema.ToTransactions(parsed.value), r)
    ensures Reaches(init, s) && Reachable(s)
    ensures CompletedUpTo(s, n, OcrSchema.ToTransactions(OcrSchema.ParseOcrToolInput(input).value))
    ensures forall i :: 0 <= i < |Ids(n)| ==> Ids(n)[i] in s.rows
    ensures CompletedCount(Stored(s, Ids(n))) == n
    ensures FindMonthlyAggregate(Stored(s, Ids(n)), r) == Failure(OutsideSafeRange)
  {
    OcrSchema.SoundListFits(OcrSchema.ParseOcrToolInput(input).value);
    s := FullLinesThrow(init, n, OcrSchema.ToTransactions(OcrSchema.ParseOcrToolInput(input).value), r);
  }

  predicate Among(s: State, ids: seq<StatementId>) {
    forall i :: 0 <= i < |ids| ==> ids[i] in s.rows
  }

  /** No state the system can get into, with n completed statements, makes the report over r throw. */
  ghost predicate NeverThrows(n: nat, r: Range) {
    forall s: State, ids: seq<StatementId> ::
      Reachable(s) && Among(s, ids) && CompletedCount(Stored(s, ids)) == n ==>
      FindMonthlyAggregate(Stored(s, ids), r).Success?
  }

  lemma FewNeverThrow(n: nat, r: Range)
    requires n <= MAX_STATEMENTS
    ensures NeverThrows(n, r)
  {
    forall s: State, ids: seq<StatementId> | Reachable(s) && Among(s, ids) && CompletedCount(Stored(s, ids)) == n
      ensures FindMonthlyAggregate(Stored(s, ids), r).Success?
    {
      ReportsNeverThrow(s, ids, r);
    }
  }

  lemma ManyThrow(n: nat, date: Text, r: Range)
    requires n > MAX_STATEMENTS && OcrSchema.DateOk(date) && InRange(Calendar.WrittenDate(date), r)
    ensures !NeverThrows(n, r)
  {
    OcrLimits.FullResultIsAccepted(date, r);
    var init := State(0, map[], map[], map[], [], [], [], map[], map[]);
    var s := TooManyStatementsThrow(init, n, OcrSchema.EncodeAll(OcrLimits.FullResult(date), OcrSchema.Tool), r);
    assert Among(s, Ids(n));
  }

  /** So 900,719 is the exact bound, for every range that holds a date the schemas accept. */
  lemma ReportBoundIsExact(n: nat, date: Text, r: Range)
    requires OcrSchema.DateOk(date) && InRange(Calendar.WrittenDate(date), r)
    ensures NeverThrows(n, r) <==> n <= MAX_STATEMENTS
  {
    if n <= MAX_STATEMENTS { FewNeverThrow(n, r); } else { ManyThrow(n, date, r); }
  }
}
