/**
 The worker's loop over whatever its queue, its handler and the process signals do: what the calls
 of each turn come to, how long they take and when signals arrive are given. The class keeps the
 fields the program keeps, and a record of what an observer would see.
 */
module AnalyzeWorker {
  import opened Wrappers
  import opened WorkerTrace

  class Worker {
    const shutdownTimeoutMs: nat
    const start: int
    const turns: seq<Turn>
    var clock: int
    var signals: seq<int>                    // when the process is still going to be signalled
    var shutdownRequested: bool
    var shutdownDeadlineAt: Option<int>
    var trace: Trace

    ghost predicate Valid()
      reads this
    {
      && Polite(trace, start, shutdownTimeoutMs)
      && About(trace, turns)
      && Clock(trace, start) <= clock
      && (shutdownRequested <==> Shutdown(trace).Some?)
      && shutdownDeadlineAt == (if shutdownRequested then Some(Shutdown(trace).value + shutdownTimeoutMs) else None)
    }

    constructor (timeoutMs: nat, now: int, turns: seq<Turn>, signals: seq<int>)
      ensures Valid() && trace == [] && clock == now == start && shutdownTimeoutMs == timeoutMs && this.turns == turns
      ensures this.signals == signals && !shutdownRequested
    {
      shutdownTimeoutMs, start, clock := timeoutMs, now, now;
      this.turns, this.signals := turns, signals;
      shutdownRequested, shutdownDeadlineAt, trace := false, None, [];
    }

    method Emit(e: Event)
      requires Valid() && !e.ShutdownRequested? && e.at <= clock
      requires Allowed(trace, e, start, shutdownTimeoutMs) && Reported(trace, e, turns)
      modifies this`trace
      ensures Valid() && trace == old(trace) + [e]
      ensures Latest(trace) == Some(e) && Shutdown(trace) == old(Shutdown(trace)) && Clock(trace, start) == e.at
      ensures Receives(trace) == old(Receives(trace)) + if e.ReceiveEnded? then 1 else 0
      ensures !e.ReceiveEnded? || e.what.InvalidMessage? ==> Failures(trace) == old(Failures(trace))
      ensures e.ReceiveEnded? && e.what.ReceiveFailed? ==> Failures(trace) == old(Failures(trace)) + 1
      ensures e.ReceiveEnded? && (e.what.Empty? || e.what.Job?) ==> Failures(trace) == 0
    {
      Appended(trace, e, start, shutdownTimeoutMs);
      AppendedAbout(trace, e, turns);
      trace := trace + [e];
    }

    /** A second request, by the other signal say, does not move the deadline. */
    method RequestShutdown()
      requires Valid()
      modifies this`shutdownRequested, this`shutdownDeadlineAt, this`trace
      ensures Valid() && shutdownRequested
      ensures Latest(trace) == old(Latest(trace)) && Failures(trace) == old(Failures(trace)) && Receives(trace) == old(Receives(trace))
      ensures old(shutdownRequested) ==> shutdownDeadlineAt == old(shutdownDeadlineAt) && trace == old(trace)
      ensures !old(shutdownRequested) ==> shutdownDeadlineAt == Some(clock + shutdownTimeoutMs)
    {
      if shutdownRequested { return; }
      shutdownRequested := true;
      shutdownDeadlineAt := Some(clock + shutdownTimeoutMs);
      var e := ShutdownRequested(clock);
      Appended(trace, e, start, shutdownTimeoutMs);
      AppendedAbout(trace, e, turns);
      assert Allowed(trace, e, start, shutdownTimeoutMs);
      trace := trace + [e];
    }

    /** Time passes up to `to`; the signals due by then are delivered. */
    method AdvanceTo(to: int)
      requires Valid() && clock <= to
      modifies this
      ensures Valid() && clock == to
      ensures Latest(trace) == old(Latest(trace)) && Failures(trace) == old(Failures(trace)) && Receives(trace) == old(Receives(trace))
      ensures old(shutdownRequested) ==> shutdownRequested && shutdownDeadlineAt == old(shutdownDeadlineAt)
      ensures !old(shutdownRequested) ==> (shutdownRequested <==> old(signals) != [] && old(signals)[0] <= to)
      ensures !old(shutdownRequested) && shutdownRequested ==>
        shutdownDeadlineAt == Some(Max(old(clock), old(signals)[0]) + shutdownTimeoutMs)
      ensures !shutdownRequested ==> trace == old(trace)
    {
      while signals != [] && signals[0] <= to
        invariant Valid() && old(clock) <= clock <= to
        invariant Latest(trace) == old(Latest(trace)) && Failures(trace) == old(Failures(trace)) && Receives(trace) == old(Receives(trace))
        invariant old(shutdownRequested) ==> shutdownRequested && shutdownDeadlineAt == old(shutdownDeadlineAt)
        invariant !shutdownRequested ==> signals == old(signals) && clock == old(clock) && trace == old(trace)
        invariant !old(shutdownRequested) && shutdownRequested ==> old(signals) != [] && old(signals)[0] <= to
        invariant !old(shutdownRequested) && shutdownRequested ==>
          shutdownDeadlineAt == Some(Max(old(clock), old(signals)[0]) + shutdownTimeoutMs)
        decreases |signals|
      {
        clock := Max(clock, signals[0]);
        signals := signals[1..];
        RequestShutdown();
      }
      clock := to;
    }

    /** The operation's own outcome, or a timeout at the deadline; None when neither ever happens. */
    method RunWithShutdownTimeout<T(==)>(operation: Operation<T>) returns (result: Option<Outcome<T>>)
      requires Valid() && !operation.outcome.TimedOut?
      modifies this
      ensures Valid() && clock >= old(clock)
      ensures Latest(trace) == old(Latest(trace)) && Failures(trace) == old(Failures(trace)) && Receives(trace) == old(Receives(trace))
      ensures result.None? ==> operation.after.None? && !shutdownRequested && trace == old(trace)
      ensures result.Some? ==> CameTo(operation, old(clock), clock, result.value)
      ensures result.Some? && shutdownRequested ==> clock <= Max(old(clock), shutdownDeadlineAt.value)
      ensures result.Some? && result.value.TimedOut? ==>
        shutdownRequested && clock == Max(old(clock), shutdownDeadlineAt.value)
    {
      var limit :=
        if shutdownRequested then Some(Max(clock, shutdownDeadlineAt.value))
        else if signals != [] then Some(Max(clock, signals[0]) + shutdownTimeoutMs)
        else None;
      if operation.after.Some? && (limit.None? || clock + operation.after.value < limit.value ||
                                   (clock + operation.after.value == limit.value && operation.winsTies)) {
        AdvanceTo(clock + operation.after.value);
        return Some(operation.outcome);
      }
      if limit.None? { return None; }
      AdvanceTo(limit.value);
      return Some(TimedOut);
    }

    method RunHandler(job: nat, turn: Turn) returns (handled: Option<Outcome<Disposition>>)
      requires Valid() && Clock(trace, start) == clock && Latest(trace).Some?
      requires Latest(trace).value.ReceiveEnded? && Latest(trace).value.what == Job(job)
      requires 0 < Receives(trace) <= |turns| && turn == turns[Receives(trace) - 1] && Settling(turn)
      modifies this
      ensures Valid() && Failures(trace) == old(Failures(trace)) && Receives(trace) == old(Receives(trace))
      ensures handled.None? ==> !shutdownRequested && turn.handler.after.None?
      ensures handled.Some? ==> Clock(trace, start) == clock && Latest(trace) == Some(HandlerEnded(clock, job, handled.value))
    {
      Emit(HandlerStarted(clock, job));
      handled := RunWithShutdownTimeout(turn.handler);
      if handled.Some? {
        Emit(HandlerEnded(clock, job, handled.value));
      }
    }

    method DeleteMessage(job: nat, turn: Turn) returns (deleted: Option<Outcome<()>>)
      requires Valid() && Allowed(trace, DeleteStarted(clock, job), start, shutdownTimeoutMs)
      requires 0 < Receives(trace) <= |turns| && turn == turns[Receives(trace) - 1] && Settling(turn)
      modifies this
      ensures Valid() && Failures(trace) == old(Failures(trace)) && Receives(trace) == old(Receives(trace))
      ensures deleted.None? ==> !shutdownRequested && turn.delete.after.None?
      ensures deleted.Some? ==> Clock(trace, start) == clock && Latest(trace) == Some(DeleteEnded(clock, job, deleted.value))
    {
      Emit(DeleteStarted(clock, job));
      deleted := RunWithShutdownTimeout(turn.delete);
      if deleted.Some? {
        Emit(DeleteEnded(clock, job, deleted.value));
      }
    }

    /** One job: the handler first, and only if it completed without RETRY the delete. False when it hangs for ever. */
    method ProcessJob(job: nat, turn: Turn) returns (finished: bool)
      requires Valid() && Clock(trace, start) == clock && Latest(trace).Some?
      requires Latest(trace).value.ReceiveEnded? && Latest(trace).value.what == Job(job)
      requires 0 < Receives(trace) <= |turns| && turn == turns[Receives(trace) - 1] && Settling(turn)
      modifies this
      ensures Valid() && Failures(trace) == old(Failures(trace)) && Receives(trace) == old(Receives(trace))
      ensures finished ==> BetweenTurns(Latest(trace)) && Clock(trace, start) == clock
      ensures finished ==> Latest(trace).Some? && !Latest(trace).value.SleepStarted?
      ensures !finished ==> !shutdownRequested && (turn.handler.after.None? || turn.delete.after.None?)
    {
      var handled := RunHandler(job, turn);
      if handled.None? { return false; }
      if !handled.value.Completed? || handled.value.value.Retry? { return true; }
      var deleted := DeleteMessage(job, turn);
      return deleted.Some?;
    }

    /** Wait, or be woken by the shutdown. */
    method WaitForRetry(ms: int)
      requires Valid() && !shutdownRequested && ms >= 0 && clock == Clock(trace, start)
      requires Allowed(trace, SleepStarted(clock, ms), start, shutdownTimeoutMs)
      modifies this
      ensures Valid() && Latest(trace) == Some(SleepStarted(old(clock), ms))
      ensures Failures(trace) == old(Failures(trace)) && Receives(trace) == old(Receives(trace))
      ensures if shutdownRequested then clock == Clock(trace, start) else clock == old(clock) + ms
    {
      Emit(SleepStarted(clock, ms));
      var until := if signals != [] then Min(clock + ms, Max(clock, signals[0])) else clock + ms;
      AdvanceTo(until);
    }

    /** One receive, and what its answer leads to. False when the worker breaks out of its loop or hangs. */
    method TakeTurn(turn: Turn, backoff: int) returns (goesOn: bool, receiveBackoffMs: int)
      requires Valid() && Receives(trace) < |turns| && turn == turns[Receives(trace)] && Settling(turn)
      requires !shutdownRequested && BetweenTurns(Latest(trace)) && backoff == Backoff(Failures(trace) + 1)
      requires Allowed(trace, ReceiveStarted(clock), start, shutdownTimeoutMs)
      modifies this
      ensures Valid() && Receives(trace) == old(Receives(trace)) + 1
      ensures receiveBackoffMs == Backoff(Failures(trace) + 1)
      ensures goesOn ==> BetweenTurns(Latest(trace)) && Latest(trace).Some?
      ensures goesOn ==> if Latest(trace).value.SleepStarted? && !shutdownRequested
        then clock == Latest(trace).value.at + Latest(trace).value.ms
        else clock == Clock(trace, start)
      ensures !goesOn && shutdownRequested ==> Allowed(trace, Stopped(clock), start, shutdownTimeoutMs)
      ensures !goesOn && !shutdownRequested ==> turn.handler.after.None? || turn.delete.after.None?
    {
      receiveBackoffMs := backoff;
      Emit(ReceiveStarted(clock));
      AdvanceTo(clock + turn.receiveMs);
      Emit(ReceiveEnded(clock, turn.what));
      match turn.what {
        case ReceiveFailed =>
          BackoffDoubles(Failures(trace));
          if shutdownRequested { return false, Backoff(Failures(trace) + 1); }
          WaitForRetry(receiveBackoffMs);
          receiveBackoffMs := Min(receiveBackoffMs * 2, MAX_BACKOFF);
        case InvalidMessage =>
          if shutdownRequested { return false, receiveBackoffMs; }
        case Empty =>
          receiveBackoffMs := INITIAL_BACKOFF;
        case Job(job) =>
          receiveBackoffMs := INITIAL_BACKOFF;
          var finished := ProcessJob(job, turn);
          if !finished { return false, receiveBackoffMs; }
      }
      goesOn := true;
    }

    /**
     A run over the turns in their order. It ends when shutdown is requested, when a call never
     settles, or when no turn is left: a run the observer stops watching.
     */
    method Run()
      requires Valid() && trace == [] && clock == start && !shutdownRequested
      requires forall t :: t in turns ==> Settling(t)
      modifies this
      ensures Polite(trace, start, shutdownTimeoutMs) && About(trace, turns)
      ensures shutdownRequested ==> Latest(trace).Some? && Latest(trace).value.Stopped?
      ensures !shutdownRequested ==>
        || Receives(trace) == |turns|
        || (exists t :: t in turns && (t.handler.after.None? || t.delete.after.None?))
    {
      var receiveBackoffMs := INITIAL_BACKOFF;
      while !shutdownRequested && Receives(trace) < |turns|
        invariant Valid() && Receives(trace) <= |turns| && BetweenTurns(Latest(trace))
        invariant receiveBackoffMs == Backoff(Failures(trace) + 1)
        invariant if Latest(trace).Some? && Latest(trace).value.SleepStarted? && !shutdownRequested
                  then clock == Latest(trace).value.at + Latest(trace).value.ms
                  else clock == Clock(trace, start)
        decreases |turns| - Receives(trace)
      {
        var turn := turns[Receives(trace)];
        var goesOn;
        goesOn, receiveBackoffMs := TakeTurn(turn, receiveBackoffMs);
        if !goesOn {
          if shutdownRequested { Emit(Stopped(clock)); }
          return;
        }
      }
      if shutdownRequested {
        Emit(Stopped(clock));
      }
    }
  }
}
