/** The save method of the repository is an uninterrupted run of the protocol's save transaction. */
module ProtocolRefinement {
  import opened Wrappers
  import opened Statements
  import opened Protocol

  function Upserts(a: nat, n: nat): seq<Action> {
    if n == 0 then [] else [OnServer(a, Upsert)] + Upserts(a, n - 1)
  }

  /** Lock, upsert every line, update the row, commit. */
  function SaveRun(a: nat, n: nat): seq<Action> {
    [OnServer(a, LockRow)] + (Upserts(a, n) + [OnServer(a, UpdateRow), OnServer(a, CommitSave)])
  }

  predicate InSave(s: State, a: nat, before: Lines) {
    && a < |s.attempts| && s.attempts[a].save.Locked? && s.attempts[a].save.next <= |s.attempts[a].lines|
    && s.attempts[a].save.pending == UpsertAll(before, s.attempts[a].lines[..s.attempts[a].save.next])
    && s.attempts[a].sid in s.rows && Holds(s.rows[s.attempts[a].sid], a, s.attempts[a].save.at)
  }

  predicate Finishes(s: State, a: nat, before: Lines, run: seq<Action>)
    requires InSave(s, a, before)
  {
    var x := s.attempts[a];
    && Runs(s, run)
    && After(s, run).rows == Updated(s.rows, x.sid, CompletedRow(s.rows[x.sid], a, x.save.at))
    && After(s, run).table == s.table[x.sid := UpsertAll(before, x.lines)]
    && After(s, run).locks == s.locks - {x.sid}
    && After(s, run).attempts == s.attempts[a := x.(save := Committed)]
    && After(s, run).messages == s.messages
  }

  /** With every line upserted, the row update and the commit complete the statement. */
  lemma CommitRun(s: State, a: nat, before: Lines)
    requires InSave(s, a, before) && s.attempts[a].save.next == |s.attempts[a].lines|
    ensures Finishes(s, a, before, [OnServer(a, UpdateRow), OnServer(a, CommitSave)])
  {
    var x := s.attempts[a];
    assert x.lines[..x.save.next] == x.lines;
    TwoSteps(s, OnServer(a, UpdateRow), OnServer(a, CommitSave));
  }

  /** From a locked row with the first lines upserted, the rest of the save runs through. */
  lemma {:induction false} FinishSave(s: State, a: nat, before: Lines)
    requires InSave(s, a, before)
    ensures Finishes(s, a, before,
      Upserts(a, |s.attempts[a].lines| - s.attempts[a].save.next) + [OnServer(a, UpdateRow), OnServer(a, CommitSave)])
    decreases |s.attempts[a].lines| - s.attempts[a].save.next
  {
    var x := s.attempts[a];
    var tail := [OnServer(a, UpdateRow), OnServer(a, CommitSave)];
    if x.save.next == |x.lines| {
      assert [] + tail == tail;
      CommitRun(s, a, before);
    } else {
      UpsertInSave(s, a, before);
      FinishSave(WithAttempt(s, a, Upserted(x)), a, before);
      UpsertFirst(s, a, before, Upserts(a, |x.lines| - x.save.next - 1) + tail);
      assert Upserts(a, |x.lines| - x.save.next) + tail == [OnServer(a, Upsert)] + (Upserts(a, |x.lines| - x.save.next - 1) + tail);
    }
  }

  lemma UpsertInSave(s: State, a: nat, before: Lines)
    requires InSave(s, a, before) && s.attempts[a].save.next < |s.attempts[a].lines|
    ensures InSave(WithAttempt(s, a, Upserted(s.attempts[a])), a, before)
  {
    UpsertStep(before, s.attempts[a].lines, s.attempts[a].save.next);
  }

  /** One more upsert in front of a run that finishes. */
  lemma UpsertFirst(s: State, a: nat, before: Lines, rest: seq<Action>)
    requires InSave(s, a, before) && s.attempts[a].save.next < |s.attempts[a].lines|
    requires InSave(WithAttempt(s, a, Upserted(s.attempts[a])), a, before)
    requires Finishes(WithAttempt(s, a, Upserted(s.attempts[a])), a, before, rest)
    ensures Finishes(s, a, before, [OnServer(a, Upsert)] + rest)
  {
    var run := [OnServer(a, Upsert)] + rest;
    assert run[1..] == rest;
    assert Next(s, run[0]) == WithAttempt(s, a, Upserted(s.attempts[a]));
  }

  /**
   When the row is free and still held, the protocol's save leaves exactly the rows and the table
   that SaveTransactionsAndComplete ensures; when it is not held, it leaves them alone.
   */
  lemma SaveRefines(s: State, a: nat)
    requires a < |s.attempts| && s.attempts[a].save.Open? && Unlocked(s, s.attempts[a].sid)
    ensures var x := s.attempts[a];
      if x.sid in s.rows && Holds(s.rows[x.sid], a, x.save.at) then
        var run := SaveRun(a, |x.lines|);
        && Runs(s, run)
        && After(s, run).rows == Updated(s.rows, x.sid, CompletedRow(s.rows[x.sid], a, x.save.at))
        && After(s, run).table == s.table[x.sid := UpsertAll(LinesOf(s.table, x.sid), x.lines)]
        && After(s, run).locks == s.locks
        && After(s, run).attempts == s.attempts[a := x.(save := Committed)]
        && After(s, run).messages == s.messages
      else
        LockedRow(s, a) == WithAttempt(s, a, x.(save := Aborted))
  {
    var x := s.attempts[a];
    if x.sid in s.rows && Holds(s.rows[x.sid], a, x.save.at) {
      var t := LockedRow(s, a);
      FinishSave(t, a, LinesOf(s.table, x.sid));
      var run := SaveRun(a, |x.lines|);
      assert run[0] == OnServer(a, LockRow) && run[1..] == Upserts(a, |x.lines|) + [OnServer(a, UpdateRow), OnServer(a, CommitSave)];
      assert Next(s, run[0]) == t;
      assert t.locks - {x.sid} == s.locks;
    }
  }
}
