/**
 What an observer of the worker sees: calls to the queue, the handler and the timer, with their
 times. Polite is the law every run must obey, stated over the past alone: it knows nothing of the
 variables the worker keeps.
 */
module WorkerTrace {
  import opened Wrappers

  const INITIAL_BACKOFF := 1_000
  const MAX_BACKOFF := 30_000

  datatype Received = ReceiveFailed | InvalidMessage | Empty | Job(id: nat)

  /** A handler that returns nothing counts as one that acknowledges. */
  datatype Disposition = Nothing | Ack | Retry

  datatype Outcome<+T> = Completed(value: T) | Failed | TimedOut

  datatype Event =
    | ReceiveStarted(at: int)
    | ReceiveEnded(at: int, what: Received)
    | SleepStarted(at: int, ms: int)
    | HandlerStarted(at: int, job: nat)
    | HandlerEnded(at: int, job: nat, handled: Outcome<Disposition>)
    | DeleteStarted(at: int, job: nat)
    | DeleteEnded(at: int, job: nat, deleted: Outcome<()>)
    | ShutdownRequested(at: int)
    | Stopped(at: int)

  type Trace = seq<Event>

  /** An asynchronous call: when it settles, if ever, how, and whether it beats a timer that fires at that instant. */
  datatype Operation<+T> = Operation(after: Option<nat>, outcome: Outcome<T>, winsTies: bool)

  /** What the calls of one turn of the loop come to and how long they take. */
  datatype Turn = Turn(receiveMs: nat, what: Received, handler: Operation<Disposition>, delete: Operation<()>)

  /** Calls settle by returning or throwing; only the worker's own timer times out. */
  predicate Settling(turn: Turn) {
    !turn.handler.outcome.TimedOut? && !turn.delete.outcome.TimedOut?
  }

  function Max(a: int, b: int): int { if a < b then b else a }

  function Min(a: int, b: int): int { if a < b then a else b }

  function Pow2(n: nat): nat { if n == 0 then 1 else 2 * Pow2(n - 1) }

  /** How long to wait after the k-th receive failure since the last receive that succeeded. */
  function Backoff(k: nat): int
    requires k > 0
  {
    Min(INITIAL_BACKOFF * Pow2(k - 1), MAX_BACKOFF)
  }

  lemma BackoffDoubles(k: nat)
    requires k > 0
    ensures Backoff(k + 1) == Min(Backoff(k) * 2, MAX_BACKOFF)
  {
    assert Pow2(k) == 2 * Pow2(k - 1);
  }

  /** Receive failures since the last receive that returned a job or nothing. */
  function Failures(past: Trace): nat {
    if past == [] then 0
    else
      var e := past[|past| - 1];
      var before := Failures(past[..|past| - 1]);
      if !e.ReceiveEnded? then before
      else if e.what.ReceiveFailed? then before + 1
      else if e.what.InvalidMessage? then before
      else 0
  }

  /** The latest event other than the request to shut down, which may come at any moment. */
  function Latest(past: Trace): Option<Event> {
    if past == [] then None
    else if past[|past| - 1].ShutdownRequested? then Latest(past[..|past| - 1])
    else Some(past[|past| - 1])
  }

  /** When the shutdown was requested. */
  function Shutdown(past: Trace): Option<int> {
    if past == [] then None
    else if past[|past| - 1].ShutdownRequested? then Some(past[|past| - 1].at)
    else Shutdown(past[..|past| - 1])
  }

  function Clock(past: Trace, start: int): int {
    if past == [] then start else past[|past| - 1].at
  }

  /** The worker is between two turns of its loop. */
  predicate BetweenTurns(latest: Option<Event>) {
    match latest
    case None => true
    case Some(ReceiveEnded(_, what)) => what.InvalidMessage? || what.Empty?
    case Some(SleepStarted(_, _)) => true
    case Some(HandlerEnded(_, _, handled)) => !(handled.Completed? && !handled.value.Retry?)
    case Some(DeleteEnded(_, _, _)) => true
    case _ => false
  }

  /** An operation begun at `from` may end at `at`: once shutdown is requested, by the one deadline. */
  predicate InTime(past: Trace, grace: nat, from: int, at: int, timedOut: bool) {
    var shutdown := Shutdown(past);
    && (shutdown.Some? ==> at <= Max(from, shutdown.value + grace))
    && (timedOut ==> shutdown.Some? && at == Max(from, shutdown.value + grace))
  }

  predicate Allowed(past: Trace, e: Event, start: int, grace: nat) {
    var latest := Latest(past);
    var now := Clock(past, start);
    && now <= e.at
    && match e
       case ReceiveStarted(at) =>
         && Shutdown(past).None?
         && BetweenTurns(latest)
         && at == if latest.Some? && latest.value.SleepStarted? then latest.value.at + latest.value.ms else now
       case ReceiveEnded(_, _) => latest.Some? && latest.value.ReceiveStarted?
       case SleepStarted(at, ms) =>
         && Shutdown(past).None?
         && latest.Some? && latest.value.ReceiveEnded? && latest.value.what.ReceiveFailed?
         && at == now && Failures(past) > 0 && ms == Backoff(Failures(past))
       case HandlerStarted(at, job) =>
         latest.Some? && latest.value.ReceiveEnded? && latest.value.what == Job(job) && at == now
       case HandlerEnded(at, job, handled) =>
         && latest.Some? && latest.value.HandlerStarted? && latest.value.job == job
         && InTime(past, grace, latest.value.at, at, handled.TimedOut?)
       case DeleteStarted(at, job) =>
         && latest.Some? && latest.value.HandlerEnded? && latest.value.job == job
         && latest.value.handled.Completed? && !latest.value.handled.value.Retry? && at == now
       case DeleteEnded(at, job, deleted) =>
         && latest.Some? && latest.value.DeleteStarted? && latest.value.job == job
         && InTime(past, grace, latest.value.at, at, deleted.TimedOut?)
       case ShutdownRequested(_) => Shutdown(past).None?
       case Stopped(at) =>
         && Shutdown(past).Some? && at == now
         && (BetweenTurns(latest) || (latest.value.ReceiveEnded? && latest.value.what.ReceiveFailed?))
  }

  predicate Polite(trace: Trace, start: int, grace: nat) {
    trace == [] ||
    (Polite(trace[..|trace| - 1], start, grace) && Allowed(trace[..|trace| - 1], trace[|trace| - 1], start, grace))
  }

  function Receives(past: Trace): nat {
    if past == [] then 0
    else Receives(past[..|past| - 1]) + if past[|past| - 1].ReceiveEnded? then 1 else 0
  }

  /** The call begun at `from` came to what its operation says, when it says so; or the timer was no later. */
  predicate CameTo<T(==)>(operation: Operation<T>, from: int, at: int, result: Outcome<T>) {
    if result.TimedOut? then operation.after.None? || at <= from + operation.after.value
    else operation.after.Some? && result == operation.outcome && at == from + operation.after.value
  }

  /** e reports what the turn it belongs to brings about. */
  predicate Reported(past: Trace, e: Event, turns: seq<Turn>) {
    var k := Receives(past);
    match e
    case ReceiveEnded(at, what) =>
      k < |turns| && what == turns[k].what && Latest(past).Some? && at == Latest(past).value.at + turns[k].receiveMs
    case HandlerEnded(at, _, handled) =>
      0 < k <= |turns| && Latest(past).Some? && CameTo(turns[k - 1].handler, Latest(past).value.at, at, handled)
    case DeleteEnded(at, _, deleted) =>
      0 < k <= |turns| && Latest(past).Some? && CameTo(turns[k - 1].delete, Latest(past).value.at, at, deleted)
    case _ => true
  }

  /** The trace is about these turns, one after the other. */
  predicate About(trace: Trace, turns: seq<Turn>) {
    trace == [] || (About(trace[..|trace| - 1], turns) && Reported(trace[..|trace| - 1], trace[|trace| - 1], turns))
  }

  lemma AppendedAbout(past: Trace, e: Event, turns: seq<Turn>)
    ensures About(past + [e], turns) == (About(past, turns) && Reported(past, e, turns))
    ensures Receives(past + [e]) == Receives(past) + if e.ReceiveEnded? then 1 else 0
  {
    assert (past + [e])[..|past|] == past;
  }

  lemma Appended(past: Trace, e: Event, start: int, grace: nat)
    ensures (past + [e])[..|past|] == past
    ensures Latest(past + [e]) == (if e.ShutdownRequested? then Latest(past) else Some(e))
    ensures Shutdown(past + [e]) == (if e.ShutdownRequested? then Some(e.at) else Shutdown(past))
    ensures Clock(past + [e], start) == e.at
    ensures !e.ReceiveEnded? ==> Failures(past + [e]) == Failures(past)
    ensures e.ReceiveEnded? && e.what.ReceiveFailed? ==> Failures(past + [e]) == Failures(past) + 1
    ensures e.ReceiveEnded? && e.what.InvalidMessage? ==> Failures(past + [e]) == Failures(past)
    ensures e.ReceiveEnded? && (e.what.Empty? || e.what.Job?) ==> Failures(past + [e]) == 0
    ensures Polite(past + [e], start, grace) == (Polite(past, start, grace) && Allowed(past, e, start, grace))
  {
    assert (past + [e])[..|past|] == past;
  }

  // ---- what the law means for whole runs ----

  lemma {:induction false} PrefixIsPolite(trace: Trace, n: nat, start: int, grace: nat)
    requires Polite(trace, start, grace) && n <= |trace|
    ensures Polite(trace[..n], start, grace)
    decreases |trace|
  {
    if n < |trace| {
      PrefixIsPolite(trace[..|trace| - 1], n, start, grace);
      assert trace[..|trace| - 1][..n] == trace[..n];
    } else {
      assert trace[..n] == trace;
    }
  }

  lemma {:induction false} EachAllowed(trace: Trace, i: nat, start: int, grace: nat)
    requires Polite(trace, start, grace) && i < |trace|
    ensures Allowed(trace[..i], trace[i], start, grace)
  {
    PrefixIsPolite(trace, i + 1, start, grace);
    assert trace[..i + 1][..i] == trace[..i];
  }

  lemma {:induction false} LatestBefore(trace: Trace, n: nat) returns (i: nat)
    requires n <= |trace| && Latest(trace[..n]).Some?
    ensures i < n && trace[i] == Latest(trace[..n]).value
    ensures forall j :: i < j < n ==> trace[j].ShutdownRequested?
  {
    i := n - 1;
    if trace[i].ShutdownRequested? {
      assert trace[..n][..n - 1] == trace[..n - 1];
      i := LatestBefore(trace, n - 1);
    }
  }

  lemma {:induction false} ShutdownStays(trace: Trace, i: nat)
    requires i < |trace| && trace[i].ShutdownRequested?
    ensures Shutdown(trace).Some?
  {
    if i < |trace| - 1 { ShutdownStays(trace[..|trace| - 1], i); }
  }

  lemma NoShutdownMeansNone(trace: Trace)
    requires Shutdown(trace).None?
    ensures forall i :: 0 <= i < |trace| ==> !trace[i].ShutdownRequested?
  {
    forall i | 0 <= i < |trace| ensures !trace[i].ShutdownRequested? {
      if trace[i].ShutdownRequested? { ShutdownStays(trace, i); }
    }
  }

  /** Once shutdown is requested no receive starts, no retry is waited for, and no second request counts. */
  lemma NothingNewAfterShutdown(trace: Trace, i: nat, j: nat, start: int, grace: nat)
    requires Polite(trace, start, grace) && i < j < |trace| && trace[i].ShutdownRequested?
    ensures !trace[j].ReceiveStarted? && !trace[j].SleepStarted? && !trace[j].ShutdownRequested?
  {
    EachAllowed(trace, j, start, grace);
    ShutdownStays(trace[..j], i);
  }

  /** Between two handler starts the first handler has ended, or was abandoned at the deadline. */
  lemma HandlersNeverOverlap(trace: Trace, i: nat, j: nat, start: int, grace: nat)
    requires Polite(trace, start, grace) && i < j < |trace| && trace[i].HandlerStarted? && trace[j].HandlerStarted?
    ensures exists k :: i < k < j && trace[k].HandlerEnded? && trace[k].job == trace[i].job
  {
    var next := NextAfter(trace, i, j);
    EachAllowed(trace, next, start, grace);
    LatestAcross(trace, i, next);
  }

  /** An abandoned handler is the last: after a timeout no other handler ever starts. */
  lemma NoHandlerAfterTimeout(trace: Trace, i: nat, j: nat, start: int, grace: nat)
    requires Polite(trace, start, grace) && i < j < |trace|
    requires trace[i].HandlerEnded? && trace[i].handled.TimedOut?
    ensures !trace[j].HandlerStarted?
  {
    EachAllowed(trace, i, start, grace);
    var s := ShutdownAt(trace[..i]);
    if trace[j].HandlerStarted? {
      EachAllowed(trace, j, start, grace);
      var r := LatestBefore(trace, j);
      EachAllowed(trace, r, start, grace);
      var b := LatestBefore(trace, r);
      NothingNewAfterShutdown(trace, s, b, start, grace);
    }
  }

  /** The first event after i that is not a shutdown request. */
  lemma NextAfter(trace: Trace, i: nat, j: nat) returns (n: nat)
    requires i < j < |trace| && !trace[j].ShutdownRequested?
    ensures i < n <= j && !trace[n].ShutdownRequested?
    ensures forall k :: i < k < n ==> trace[k].ShutdownRequested?
  {
    n := i + 1;
    while trace[n].ShutdownRequested?
      invariant i < n <= j
      invariant forall k :: i < k < n ==> trace[k].ShutdownRequested?
      decreases j - n
    {
      n := n + 1;
    }
  }

  lemma {:induction false} LatestAcross(trace: Trace, i: nat, n: nat)
    requires i < n <= |trace| && !trace[i].ShutdownRequested?
    requires forall k :: i < k < n ==> trace[k].ShutdownRequested?
    ensures Latest(trace[..n]) == Some(trace[i])
    decreases n
  {
    if i + 1 < n {
      LatestAcross(trace, i, n - 1);
      assert trace[..n][..n - 1] == trace[..n - 1];
    }
  }

  lemma {:induction false} ShutdownAt(trace: Trace) returns (i: nat)
    requires Shutdown(trace).Some?
    ensures i < |trace| && trace[i] == ShutdownRequested(Shutdown(trace).value)
  {
    if trace[|trace| - 1].ShutdownRequested? {
      i := |trace| - 1;
    } else {
      i := ShutdownAt(trace[..|trace| - 1]);
    }
  }

  /** What follows a failed or invalid receive: a failure waits its turn of the schedule, an invalid message does not wait. */
  lemma FailuresWaitInvalidMessagesDoNot(trace: Trace, i: nat, n: nat, start: int, grace: nat)
    requires Polite(trace, start, grace) && i < n < |trace|
    requires trace[i].ReceiveEnded? && !trace[n].ShutdownRequested?
    requires forall k :: i < k < n ==> trace[k].ShutdownRequested?
    ensures trace[i].what.ReceiveFailed? || trace[i].what.InvalidMessage? ==>
      (trace[n].Stopped? <==> Shutdown(trace[..n]).Some?)
    ensures trace[i].what.ReceiveFailed? && !trace[n].Stopped? ==>
      && trace[n].SleepStarted? && n == i + 1
      && trace[n].ms == Backoff(Failures(trace[..i]) + 1)
    ensures trace[i].what.InvalidMessage? && !trace[n].Stopped? ==>
      trace[n].ReceiveStarted? && trace[n].at == trace[i].at && Failures(trace[..n]) == Failures(trace[..i])
  {
    EachAllowed(trace, n, start, grace);
    LatestAcross(trace, i, n);
    if Shutdown(trace[..n]).None? {
      assert i + 1 < n ==> trace[..n][i + 1].ShutdownRequested?;
      NoShutdownMeansNone(trace[..n]);
      assert trace[..n] == trace[..i] + [trace[i]];
      Appended(trace[..i], trace[i], start, grace);
    }
  }

  /** A delete is attempted only for a job whose own handler, started after its receipt, completed without RETRY. */
  lemma DeleteFollowsItsHandler(trace: Trace, d: nat, start: int, grace: nat) returns (r: nat, h: nat, e: nat)
    requires Polite(trace, start, grace) && d < |trace| && trace[d].DeleteStarted?
    ensures r < h < e < d
    ensures trace[r].ReceiveEnded? && trace[r].what == Job(trace[d].job)
    ensures trace[h].HandlerStarted? && trace[h].job == trace[d].job
    ensures trace[e].HandlerEnded? && trace[e].job == trace[d].job
    ensures trace[e].handled.Completed? && trace[e].handled.value != Retry
    ensures forall k :: r < k < d && k != h && k != e ==> trace[k].ShutdownRequested?
  {
    EachAllowed(trace, d, start, grace);
    e := LatestBefore(trace, d);
    EachAllowed(trace, e, start, grace);
    h := LatestBefore(trace, e);
    EachAllowed(trace, h, start, grace);
    r := LatestBefore(trace, h);
  }

  /** Receives answer no later than the deadline once they are aborted. */
  predicate ReceivesAbort(trace: Trace, grace: nat) {
    forall i :: 0 <= i < |trace| && trace[i].ReceiveEnded? && Shutdown(trace[..i]).Some? ==>
      trace[i].at <= Shutdown(trace[..i]).value + grace
  }

  /** Nothing the worker does after a shutdown request happens later than that request's one deadline. */
  lemma {:induction false} OverByTheDeadline(trace: Trace, start: int, grace: nat)
    requires Polite(trace, start, grace) && ReceivesAbort(trace, grace) && Shutdown(trace).Some?
    ensures Clock(trace, start) <= Shutdown(trace).value + grace
  {
    var n := |trace| - 1;
    if !trace[n].ShutdownRequested? {
      assert forall i :: 0 <= i < n ==> trace[..n][..i] == trace[..i];
      OverByTheDeadline(trace[..n], start, grace);
      if Latest(trace[..n]).Some? {
        StartsBeforeNow(trace[..n], start, grace);
      }
    }
  }

  /** The latest event lies no later than the clock. */
  lemma {:induction false} StartsBeforeNow(trace: Trace, start: int, grace: nat)
    requires Polite(trace, start, grace) && Latest(trace).Some?
    ensures Latest(trace).value.at <= Clock(trace, start)
  {
    if trace[|trace| - 1].ShutdownRequested? {
      StartsBeforeNow(trace[..|trace| - 1], start, grace);
    }
  }
}
