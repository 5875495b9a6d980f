/** What the queue's constants buy: bounded claims, draining, and leases that expire before redelivery. */
module ProtocolQueue {
  import opened Wrappers
  import opened Statements
  import opened Protocol
  import opened ProtocolInvariant
  import opened ProtocolSafety

  // ---- sums over a sequence ----

  function Sum<T>(xs: seq<T>, weight: T -> nat): nat {
    if xs == [] then 0 else Sum(xs[..|xs| - 1], weight) + weight(xs[|xs| - 1])
  }

  lemma {:induction false} SumUpdate<T>(xs: seq<T>, i: nat, y: T, weight: T -> nat)
    requires i < |xs|
    ensures Sum(xs[i := y], weight) + weight(xs[i]) == Sum(xs, weight) + weight(y)
  {
    var n := |xs| - 1;
    if i == n {
      assert xs[i := y][..n] == xs[..n];
    } else {
      SumUpdate(xs[..n], i, y, weight);
      assert xs[i := y][..n] == xs[..n][i := y];
    }
  }

  lemma SumAppend<T>(xs: seq<T>, y: T, weight: T -> nat)
    ensures Sum(xs + [y], weight) == Sum(xs, weight) + weight(y)
  {
    assert (xs + [y])[..|xs|] == xs;
  }

  lemma {:induction false} SumBound<T>(xs: seq<T>, light: T -> nat, heavy: T -> nat, factor: nat)
    requires forall i :: 0 <= i < |xs| ==> light(xs[i]) <= factor * heavy(xs[i])
    ensures Sum(xs, light) <= factor * Sum(xs, heavy)
  {
    if xs == [] {
    } else {
      SumBound(xs[..|xs| - 1], light, heavy, factor);
      assert light(xs[|xs| - 1]) <= factor * heavy(xs[|xs| - 1]);
      assert factor * Sum(xs, heavy) == factor * Sum(xs[..|xs| - 1], heavy) + factor * heavy(xs[|xs| - 1]);
    }
  }

  // ---- bounded claims ----

  function IsOf(sid: StatementId): Attempt -> nat {
    (x: Attempt) => if x.sid == sid then 1 else 0
  }

  function ClaimedFor(sid: StatementId): Attempt -> nat {
    (x: Attempt) => if x.sid == sid && x.claim == Done(true) then 1 else 0
  }

  function ReceivesFor(sid: StatementId): Message -> nat {
    (x: Message) => if x.sid == sid then x.count else 0
  }

  function SentFor(sid: StatementId): Message -> nat {
    (x: Message) => if x.sid == sid then 1 else 0
  }

  predicate ClaimSucceeds(s: State, action: Action, sid: StatementId) {
    && action.OnServer? && action.server.ApplyClaim? && Enabled(s, action)
    && s.attempts[action.b].sid == sid && sid in s.rows
    && Claimable(s.rows[sid], s.attempts[action.b].claim.at)
  }

  /** How often a run puts a new token on a statement. */
  function Claims(s: State, actions: seq<Action>, sid: StatementId): nat
    requires Runs(s, actions)
    decreases |actions|
  {
    if actions == [] then 0
    else (if ClaimSucceeds(s, actions[0], sid) then 1 else 0) + Claims(Next(s, actions[0]), actions[1..], sid)
  }

  /** Each delivery starts one attempt. */
  predicate Balanced(s: State, sid: StatementId) {
    Sum(s.attempts, IsOf(sid)) == Sum(s.messages, ReceivesFor(sid))
  }

  lemma AttemptChange(s: State, a: nat, y: Attempt, sid: StatementId)
    requires a < |s.attempts| && y.sid == s.attempts[a].sid
    ensures Sum(WithAttempt(s, a, y).attempts, IsOf(sid)) == Sum(s.attempts, IsOf(sid))
    ensures Sum(WithAttempt(s, a, y).attempts, ClaimedFor(sid)) + ClaimedFor(sid)(s.attempts[a])
         == Sum(s.attempts, ClaimedFor(sid)) + ClaimedFor(sid)(y)
  {
    SumUpdate(s.attempts, a, y, IsOf(sid));
    SumUpdate(s.attempts, a, y, ClaimedFor(sid));
  }

  lemma HandlerCounts(s: State, a: nat, e: HandlerEvent, sid: StatementId)
    requires Inv(s) && a < |s.attempts| && HandlerEnabled(s.attempts[a], e) && Balanced(s, sid)
    ensures var t := Next(s, OnHandler(a, e));
      Balanced(t, sid) && Sum(t.attempts, ClaimedFor(sid)) == Sum(s.attempts, ClaimedFor(sid))
  {
    assert AttemptInv(s, a);
    var settled := Settled(s, s.attempts[a].sid);
    HandlerAfterKeeps(s.attempts[a], settled, e);
    AttemptChange(s, a, HandlerAfter(s.attempts[a], settled, e), sid);
  }

  predicate MovesOwnCalls(s: State, t: State, a: nat, e: ServerEvent)
    requires a < |s.attempts|
  {
    && |t.attempts| == |s.attempts| && t.messages == s.messages && t.now == s.now
    && var y := t.attempts[a];
    && t.attempts == s.attempts[a := y]
    && y == s.attempts[a].(claim := y.claim, save := y.save, fail := y.fail)
    && (if e.BeginClaim? then y.claim == Begun(s.now) else if e.ApplyClaim? then y.claim.Done? else y.claim == s.attempts[a].claim)
  }

  lemma SaveAttempts(s: State, a: nat, e: ServerEvent)
    requires ServerEnabled(s, a, e)
    requires e.BeginSave? || e.LockRow? || e.Upsert? || e.UpdateRow? || e.CommitSave? || e.AbortSave?
    ensures MovesOwnCalls(s, ServerNext(s, a, e), a, e)
  {
    match e
    case BeginSave => case Upsert => case UpdateRow => case AbortSave =>
    case LockRow => LockAttempts(s, a);
    case CommitSave => CommitAttempts(s, a);
  }

  lemma LockAttempts(s: State, a: nat)
    requires ServerEnabled(s, a, LockRow)
    ensures MovesOwnCalls(s, LockedRow(s, a), a, LockRow)
  {
  }

  lemma CommitAttempts(s: State, a: nat)
    requires ServerEnabled(s, a, CommitSave)
    ensures MovesOwnCalls(s, SaveCommitted(s, a), a, CommitSave)
  {
  }

  lemma CallAttempts(s: State, a: nat, e: ServerEvent)
    requires ServerEnabled(s, a, e) && (e.BeginClaim? || e.ApplyClaim? || e.BeginFail? || e.ApplyFail?)
    ensures MovesOwnCalls(s, ServerNext(s, a, e), a, e)
  {
  }

  /** A server step moves the calls of its own attempt and no other part of any attempt. */
  lemma ServerAttempts(s: State, a: nat, e: ServerEvent)
    requires ServerEnabled(s, a, e) && !e.LandDelete?
    ensures MovesOwnCalls(s, ServerNext(s, a, e), a, e)
  {
    if e.BeginClaim? || e.ApplyClaim? || e.BeginFail? || e.ApplyFail? { CallAttempts(s, a, e); } else { SaveAttempts(s, a, e); }
  }

  lemma ServerCounts(s: State, a: nat, e: ServerEvent, sid: StatementId)
    requires ServerEnabled(s, a, e) && Balanced(s, sid)
    ensures var t := ServerNext(s, a, e);
      && Balanced(t, sid)
      && Sum(t.attempts, ClaimedFor(sid)) == Sum(s.attempts, ClaimedFor(sid)) + if ClaimSucceeds(s, OnServer(a, e), sid) then 1 else 0
  {
    var t := ServerNext(s, a, e);
    if e.LandDelete? {
      var m := s.attempts[a].mid;
      SumUpdate(s.messages, m, t.messages[m], ReceivesFor(sid));
    } else {
      ServerAttempts(s, a, e);
      AttemptChange(s, a, t.attempts[a], sid);
    }
  }

  lemma QueueCounts(s: State, m: nat, e: QueueEvent, sid: StatementId)
    requires QueueEnabled(s, m, e) && Balanced(s, sid)
    ensures var t := QueueNext(s, m, e);
      Balanced(t, sid) && Sum(t.attempts, ClaimedFor(sid)) == Sum(s.attempts, ClaimedFor(sid))
  {
    var t := QueueNext(s, m, e);
    SumUpdate(s.messages, m, t.messages[m], ReceivesFor(sid));
    SumAppend(s.attempts, NewAttempt(s, m), IsOf(sid));
    SumAppend(s.attempts, NewAttempt(s, m), ClaimedFor(sid));
  }

  lemma OtherCounts(s: State, action: Action, sid: StatementId)
    requires Enabled(s, action) && Balanced(s, sid) && !action.OnHandler? && !action.OnServer? && !action.OnQueue?
    ensures Balanced(Next(s, action), sid) && Next(s, action).attempts == s.attempts
  {
    if action.StraySend? { SumAppend(s.messages, NewMessage(s, action.stray), ReceivesFor(sid)); }
    if action.OnRequest? { SumAppend(s.messages, NewMessage(s, s.requests[action.r].sid), ReceivesFor(sid)); }
  }

  lemma StepCounts(s: State, action: Action, sid: StatementId)
    requires Inv(s) && Enabled(s, action) && Balanced(s, sid)
    ensures var t := Next(s, action);
      && Balanced(t, sid)
      && Sum(t.attempts, ClaimedFor(sid)) == Sum(s.attempts, ClaimedFor(sid)) + if ClaimSucceeds(s, action, sid) then 1 else 0
  {
    match action
    case OnHandler(a, e) => HandlerCounts(s, a, e, sid);
    case OnServer(a, e) => ServerCounts(s, a, e, sid);
    case OnQueue(m, e) => QueueCounts(s, m, e, sid);
    case _ => OtherCounts(s, action, sid);
  }

  lemma {:induction false} RunCounts(s: State, actions: seq<Action>, sid: StatementId)
    requires Inv(s) && Runs(s, actions) && Balanced(s, sid)
    ensures Balanced(After(s, actions), sid)
    ensures Sum(After(s, actions).attempts, ClaimedFor(sid)) == Sum(s.attempts, ClaimedFor(sid)) + Claims(s, actions, sid)
    decreases |actions|
  {
    if actions == [] {
    } else {
      StepKeeps(s, actions[0]);
      StepCounts(s, actions[0], sid);
      RunCounts(Next(s, actions[0]), actions[1..], sid);
    }
  }

  /** A statement is claimed at most three times for every message sent for it. */
  lemma BoundedClaims(s: State, actions: seq<Action>, sid: StatementId)
    requires Init(s) && Runs(s, actions)
    ensures Claims(s, actions, sid) <= MAX_RECEIVES * Sum(After(s, actions).messages, SentFor(sid))
  {
    InitInv(s);
    RunCounts(s, actions, sid);
    RunsKeep(s, actions);
    var t := After(s, actions);
    forall i | 0 <= i < |t.messages|
      ensures ReceivesFor(sid)(t.messages[i]) <= MAX_RECEIVES * SentFor(sid)(t.messages[i])
    {
      assert MessageInv(t, i);
    }
    SumBound(t.messages, ReceivesFor(sid), SentFor(sid), MAX_RECEIVES);
    SumBound(t.attempts, ClaimedFor(sid), IsOf(sid), 1);
  }

  // ---- draining ----

  predicate Gone(x: Message) {
    x.deleted || x.dead
  }

  function Remaining(): Message -> nat {
    (x: Message) => if Gone(x) then 0 else if x.count >= MAX_RECEIVES then 1 else MAX_RECEIVES + 1 - x.count
  }

  /** Deliveries and moves to the dead-letter queue still to come if nothing more is sent. */
  function Backlog(s: State): nat {
    Sum(s.messages, Remaining())
  }

  predicate Sends(action: Action) {
    action.StraySend? || (action.OnRequest? && action.request.Enqueue?)
  }

  function QueueSteps(actions: seq<Action>): nat {
    if actions == [] then 0 else (if actions[0].OnQueue? then 1 else 0) + QueueSteps(actions[1..])
  }

  lemma BacklogStep(s: State, action: Action)
    requires Enabled(s, action) && !Sends(action)
    ensures Backlog(Next(s, action)) <= Backlog(s)
    ensures action.OnQueue? ==> Backlog(Next(s, action)) == Backlog(s) - 1
  {
    match action
    case OnQueue(m, e) => SumUpdate(s.messages, m, QueueNext(s, m, e).messages[m], Remaining());
    case OnServer(a, e) =>
      if e.LandDelete? {
        var m := s.attempts[a].mid;
        SumUpdate(s.messages, m, s.messages[m].(deleted := true), Remaining());
      } else {
        ServerAttempts(s, a, e);
      }
    case OnRow(_, _) =>
    case OnRequest(_, _) =>
    case OnHandler(_, _) =>
    case Tick(_) =>
  }

  /** Without new sends the queue takes at most Backlog many steps, whatever else happens. */
  lemma {:induction false} QueueStepsBounded(s: State, actions: seq<Action>)
    requires Runs(s, actions) && forall i :: 0 <= i < |actions| ==> !Sends(actions[i])
    ensures QueueSteps(actions) + Backlog(After(s, actions)) <= Backlog(s)
    decreases |actions|
  {
    if actions == [] {
    } else {
      assert !Sends(actions[0]);
      BacklogStep(s, actions[0]);
      QueueStepsBounded(Next(s, actions[0]), actions[1..]);
    }
  }

  lemma {:induction false} NoBacklogMeansGone(xs: seq<Message>, i: nat)
    requires i < |xs| && Sum(xs, Remaining()) == 0 && xs[i].count <= MAX_RECEIVES
    ensures Gone(xs[i])
  {
    if i < |xs| - 1 { NoBacklogMeansGone(xs[..|xs| - 1], i); }
  }

  lemma {:induction false} BacklogHasMessage(xs: seq<Message>) returns (m: nat)
    requires Sum(xs, Remaining()) > 0
    ensures m < |xs| && !Gone(xs[m])
  {
    if Remaining()(xs[|xs| - 1]) > 0 {
      m := |xs| - 1;
    } else {
      m := BacklogHasMessage(xs[..|xs| - 1]);
    }
  }

  /** A run without sends that takes as many queue steps as the backlog measures leaves no message behind. */
  lemma FullRunsDrain(s: State, actions: seq<Action>)
    requires Inv(s) && Runs(s, actions) && forall i :: 0 <= i < |actions| ==> !Sends(actions[i])
    requires QueueSteps(actions) == Backlog(s)
    ensures forall m :: 0 <= m < |After(s, actions).messages| ==> Gone(After(s, actions).messages[m])
  {
    QueueStepsBounded(s, actions);
    RunsKeep(s, actions);
    NothingLeft(After(s, actions));
  }

  lemma NothingLeft(s: State)
    requires Inv(s) && Backlog(s) == 0
    ensures forall m :: 0 <= m < |s.messages| ==> Gone(s.messages[m])
  {
    forall m | 0 <= m < |s.messages| ensures Gone(s.messages[m]) {
      assert MessageInv(s, m);
      NoBacklogMeansGone(s.messages, m);
    }
  }

  /** As long as a message is left, a queue step is possible after some wait: full runs are never cut short. */
  lemma StepAfterWaiting(s: State) returns (wait: nat, m: nat, e: QueueEvent)
    requires Inv(s) && exists i :: 0 <= i < |s.messages| && !Gone(s.messages[i])
    ensures Enabled(Next(s, Tick(wait)), OnQueue(m, e))
  {
    m :| 0 <= m < |s.messages| && !Gone(s.messages[m]);
    wait := s.messages[m].visibleAt;
    e := if s.messages[m].count < MAX_RECEIVES then Receive else MoveToDlq;
  }

  /** From every reachable state the queue can drain by itself: each message ends deleted or in the dead-letter queue. */
  lemma {:induction false} Drains(s: State) returns (actions: seq<Action>)
    requires Inv(s)
    ensures Runs(s, actions) && forall i :: 0 <= i < |actions| ==> actions[i].Tick? || actions[i].OnQueue?
    ensures var t := After(s, actions); |t.messages| == |s.messages| && forall m :: 0 <= m < |t.messages| ==> Gone(t.messages[m])
    decreases Backlog(s)
  {
    if Backlog(s) == 0 {
      actions := [];
      NothingLeft(s);
    } else {
      var left := BacklogHasMessage(s.messages);
      var wait, m, e := StepAfterWaiting(s);
      var t := Next(s, Tick(wait));
      StepKeeps(s, Tick(wait));
      StepKeeps(t, OnQueue(m, e));
      BacklogStep(t, OnQueue(m, e));
      var rest := Drains(Next(t, OnQueue(m, e)));
      actions := Prefixed(s, Tick(wait), OnQueue(m, e), rest);
    }
  }

  lemma Prefixed(s: State, x: Action, y: Action, rest: seq<Action>) returns (actions: seq<Action>)
    requires Enabled(s, x) && Enabled(Next(s, x), y) && Runs(Next(Next(s, x), y), rest)
    ensures actions == [x, y] + rest && Runs(s, actions) && After(s, actions) == After(Next(Next(s, x), y), rest)
  {
    actions := [x, y] + rest;
    assert actions[1..] == [y] + rest && ([y] + rest)[1..] == rest;
    assert Runs(Next(s, x), [y] + rest);
  }

  // ---- leases and redelivery ----

  const CLAIM_WINDOW: nat := 300 * SECOND

  predicate LeaseOver(claimAt: Time, instant: Time) {
    claimAt + LEASE_SECONDS * SECOND < instant
  }

  /** Starting the claim within 300 s of the receipt is exactly what makes its lease end before any redelivery. */
  lemma ClaimWindowIsExact(receivedAt: Time, claimAt: Time)
    ensures claimAt < receivedAt + CLAIM_WINDOW <==>
      forall redelivery :: redelivery >= receivedAt + VISIBILITY ==> LeaseOver(claimAt, redelivery)
  {
    assert LeaseOver(claimAt, receivedAt + VISIBILITY) <==> claimAt < receivedAt + CLAIM_WINDOW;
  }

  /** At 300 s sharp a redelivered message is refused: the lease ends at the very instant of redelivery. */
  lemma BoundaryClaimIsRefused(row: Row, token: Token, receivedAt: Time)
    requires row.status == Queued
    ensures var held := ClaimedRow(row, token, LEASE_SECONDS, receivedAt + CLAIM_WINDOW);
      held.Some? && !Claimable(held.value, receivedAt + VISIBILITY)
  {
  }

  /** No delivery before its visibility timeout, the default lease, and every claim started in time. */
  predicate Timely(s: State, action: Action) {
    && (action.OnQueue? && action.queue.Receive? && action.m < |s.messages| ==> s.messages[action.m].visibleAt <= s.now)
    && (action.OnHandler? && action.handler.SendClaim? ==> action.handler.leaseSeconds == LEASE_SECONDS)
    && (action.OnServer? && action.server.BeginClaim? && action.b < |s.attempts| ==>
      s.now < s.attempts[action.b].receivedAt + CLAIM_WINDOW)
  }

  ghost predicate TimelyRuns(s: State, actions: seq<Action>)
    decreases |actions|
  {
    actions == [] || (Enabled(s, actions[0]) && Timely(s, actions[0]) && TimelyRuns(Next(s, actions[0]), actions[1..]))
  }

  predicate AttemptClock(s: State, i: nat)
    requires i < |s.attempts|
  {
    var x := s.attempts[i];
    && x.receivedAt <= s.now
    && (x.mid < |s.messages| ==> x.receivedAt + VISIBILITY <= s.messages[x.mid].visibleAt)
    && (!x.claim.NotSent? ==> x.leaseSeconds == LEASE_SECONDS)
    && (x.claim.Begun? ==> x.receivedAt <= x.claim.at < x.receivedAt + CLAIM_WINDOW)
  }

  predicate Ordered(s: State, i: nat, j: nat)
    requires i < |s.attempts| && j < |s.attempts|
  {
    s.attempts[i].mid == s.attempts[j].mid && i < j ==> s.attempts[i].receivedAt + VISIBILITY <= s.attempts[j].receivedAt
  }

  /** The lease in a row ends before the message of its attempt can be seen again. */
  predicate LeaseClock(s: State, sid: StatementId)
    requires sid in s.rows
  {
    var row := s.rows[sid];
    row.status == Processing && row.token.Some? && row.lease.Some? && row.token.value < |s.attempts| ==>
      row.lease.value < s.attempts[row.token.value].receivedAt + VISIBILITY
  }

  ghost predicate Clocks(s: State) {
    && (forall i :: 0 <= i < |s.attempts| ==> AttemptClock(s, i))
    && (forall i, j :: 0 <= i < |s.attempts| && 0 <= j < |s.attempts| ==> Ordered(s, i, j))
    && (forall sid :: sid in s.rows ==> LeaseClock(s, sid))
  }

  lemma HandlerClocks(s: State, a: nat, e: HandlerEvent)
    requires Inv(s) && Clocks(s) && a < |s.attempts| && HandlerEnabled(s.attempts[a], e)
    requires e.SendClaim? ==> e.leaseSeconds == LEASE_SECONDS
    ensures Clocks(WithAttempt(s, a, HandlerAfter(s.attempts[a], Settled(s, s.attempts[a].sid), e)))
  {
    var t := WithAttempt(s, a, HandlerAfter(s.attempts[a], Settled(s, s.attempts[a].sid), e));
    forall i | 0 <= i < |t.attempts| ensures AttemptClock(t, i) { assert AttemptClock(s, i); }
    forall i, j | 0 <= i < |t.attempts| && 0 <= j < |t.attempts| ensures Ordered(t, i, j) { assert Ordered(s, i, j); }
    forall sid | sid in t.rows ensures LeaseClock(t, sid) { assert LeaseClock(s, sid); }
  }

  lemma ServerAttemptClocks(s: State, a: nat, e: ServerEvent)
    requires AttemptsInv(s) && Clocks(s) && ServerEnabled(s, a, e) && !e.LandDelete?
    requires e.BeginClaim? ==> s.now < s.attempts[a].receivedAt + CLAIM_WINDOW
    ensures AttemptClock(ServerNext(s, a, e), a)
  {
    assert AttemptClock(s, a) && AttemptInv(s, a);
    ServerAttempts(s, a, e);
  }

  lemma ServerRowClocks(s: State, a: nat, e: ServerEvent, sid: StatementId)
    requires Clocks(s) && ServerEnabled(s, a, e) && sid in s.rows && LeaseClock(s, sid)
    requires e.CommitSave? ==> s.attempts[a].save.row.status == Completed
    ensures sid in ServerNext(s, a, e).rows
    ensures var row, row' := s.rows[sid], ServerNext(s, a, e).rows[sid];
      || row' == row || Terminal(row'.status)
      || (row'.token == Some(a) && row'.lease.Some? && row'.lease.value < s.attempts[a].receivedAt + VISIBILITY)
  {
    assert AttemptClock(s, a);
    match e
    case BeginClaim => case ApplyClaim => case BeginSave => case LockRow => case Upsert => case UpdateRow =>
    case CommitSave => case AbortSave => case BeginFail => case ApplyFail => case LandDelete =>
  }

  lemma ServerClocks(s: State, a: nat, e: ServerEvent)
    requires Inv(s) && Clocks(s) && ServerEnabled(s, a, e)
    requires e.BeginClaim? ==> s.now < s.attempts[a].receivedAt + CLAIM_WINDOW
    ensures Clocks(ServerNext(s, a, e))
  {
    var t := ServerNext(s, a, e);
    if !e.LandDelete? { ServerAttempts(s, a, e); ServerAttemptClocks(s, a, e); }
    ServerLeases(s, a, e);
    forall i | 0 <= i < |t.attempts| ensures AttemptClock(t, i) { assert AttemptClock(s, i); }
    forall i, j | 0 <= i < |t.attempts| && 0 <= j < |t.attempts| ensures Ordered(t, i, j) { assert Ordered(s, i, j); }
  }

  lemma LeaseKept(s: State, t: State, a: nat, sid: StatementId)
    requires sid in s.rows && sid in t.rows && LeaseClock(s, sid) && a < |s.attempts|
    requires |t.attempts| == |s.attempts| && forall i :: 0 <= i < |s.attempts| ==> t.attempts[i].receivedAt == s.attempts[i].receivedAt
    requires
      || t.rows[sid] == s.rows[sid] || Terminal(t.rows[sid].status)
      || (t.rows[sid].token == Some(a) && t.rows[sid].lease.Some? && t.rows[sid].lease.value < s.attempts[a].receivedAt + VISIBILITY)
    ensures LeaseClock(t, sid)
  {
  }

  lemma ServerReceipts(s: State, a: nat, e: ServerEvent)
    requires ServerEnabled(s, a, e)
    ensures var t := ServerNext(s, a, e);
      |t.attempts| == |s.attempts| && forall i :: 0 <= i < |s.attempts| ==> t.attempts[i].receivedAt == s.attempts[i].receivedAt
  {
    if !e.LandDelete? { ServerAttempts(s, a, e); }
  }

  lemma ServerKeys(s: State, a: nat, e: ServerEvent)
    requires Inv(s) && ServerEnabled(s, a, e)
    ensures ServerNext(s, a, e).rows.Keys == s.rows.Keys
    ensures e.CommitSave? ==> s.attempts[a].save.row.status == Completed
  {
    if e.CommitSave? { CommitSaveKeys(s, a); } else { OtherServerKeys(s, a, e); }
  }

  lemma CommitSaveKeys(s: State, a: nat)
    requires Inv(s) && a < |s.attempts| && s.attempts[a].save.RowUpdated?
    ensures SaveCommitted(s, a).rows.Keys == s.rows.Keys && s.attempts[a].save.row.status == Completed
  {
    FinalUpdateMatches(s, a);
    assert AttemptInv(s, a);
  }

  lemma ServerLeases(s: State, a: nat, e: ServerEvent)
    requires Inv(s) && Clocks(s) && ServerEnabled(s, a, e)
    ensures forall sid :: sid in ServerNext(s, a, e).rows ==> LeaseClock(ServerNext(s, a, e), sid)
  {
    var t := ServerNext(s, a, e);
    ServerReceipts(s, a, e);
    ServerKeys(s, a, e);
    forall sid | sid in t.rows ensures LeaseClock(t, sid) {
      assert sid in s.rows;
      ServerRowClocks(s, a, e, sid);
      LeaseKept(s, t, a, sid);
    }
  }

  lemma QueueClocks(s: State, m: nat, e: QueueEvent)
    requires Inv(s) && Clocks(s) && QueueEnabled(s, m, e)
    requires e.Receive? ==> s.messages[m].visibleAt <= s.now
    ensures Clocks(QueueNext(s, m, e))
  {
    var t := QueueNext(s, m, e);
    forall i | 0 <= i < |t.attempts| ensures AttemptClock(t, i) { if i < |s.attempts| { assert AttemptClock(s, i); } }
    forall i, j | 0 <= i < |t.attempts| && 0 <= j < |t.attempts| ensures Ordered(t, i, j) {
      if i < |s.attempts| {
        assert AttemptClock(s, i) && AttemptInv(s, i);
        if j < |s.attempts| { assert Ordered(s, i, j); }
      }
    }
    forall sid | sid in t.rows ensures LeaseClock(t, sid) { assert LeaseClock(s, sid) && RowInv(s, sid); }
  }

  /** A step that touches neither attempts nor leases, and only adds messages. */
  lemma OtherClocks(s: State, t: State)
    requires Inv(s) && Clocks(s) && t.attempts == s.attempts && s.now <= t.now
    requires |s.messages| <= |t.messages| && forall m :: 0 <= m < |s.messages| ==> t.messages[m] == s.messages[m]
    requires forall sid :: sid in t.rows && t.rows[sid].status == Processing ==> sid in s.rows && t.rows[sid] == s.rows[sid]
    ensures Clocks(t)
  {
    forall i | 0 <= i < |t.attempts| ensures AttemptClock(t, i) { assert AttemptClock(s, i) && AttemptInv(s, i); }
    forall i, j | 0 <= i < |t.attempts| && 0 <= j < |t.attempts| ensures Ordered(t, i, j) { assert Ordered(s, i, j); }
    forall sid | sid in t.rows ensures LeaseClock(t, sid) { if t.rows[sid].status == Processing { assert LeaseClock(s, sid); } }
  }

  lemma RowClocks(s: State, sid: StatementId, e: RowEvent)
    requires Inv(s) && Clocks(s) && RowEnabled(s, sid, e)
    ensures Clocks(RowNext(s, sid, e))
  {
    OtherClocks(s, RowNext(s, sid, e));
  }

  lemma RequestClocks(s: State, r: nat, e: RequestEvent)
    requires Inv(s) && Clocks(s) && RequestEnabled(s, r, e)
    ensures Clocks(RequestNext(s, r, e))
  {
    OtherClocks(s, RequestNext(s, r, e));
  }

  lemma WorkClocks(s: State, action: Action)
    requires Inv(s) && Clocks(s) && Enabled(s, action) && Timely(s, action)
    requires action.OnHandler? || action.OnServer? || action.OnQueue?
    ensures Clocks(Next(s, action))
  {
    match action
    case OnHandler(a, e) => HandlerClocks(s, a, e);
    case OnServer(a, e) => ServerClocks(s, a, e);
    case OnQueue(m, e) => QueueClocks(s, m, e);
  }

  lemma StepClocks(s: State, action: Action)
    requires Inv(s) && Clocks(s) && Enabled(s, action) && Timely(s, action)
    ensures Clocks(Next(s, action))
  {
    match action
    case OnRow(sid, e) => RowClocks(s, sid, e);
    case OnRequest(r, e) => RequestClocks(s, r, e);
    case Tick(_) => OtherClocks(s, Next(s, action));
    case StraySend(_) => OtherClocks(s, Next(s, action));
    case _ => WorkClocks(s, action);
  }

  ghost predicate TimelyReachable(s: State) {
    exists init, actions :: Init(init) && TimelyRuns(init, actions) && Runs(init, actions) && After(init, actions) == s
  }

  lemma {:induction false} TimelyRunsKeep(s: State, actions: seq<Action>)
    requires Inv(s) && Clocks(s) && TimelyRuns(s, actions) && Runs(s, actions)
    ensures Inv(After(s, actions)) && Clocks(After(s, actions))
    decreases |actions|
  {
    if actions == [] {
    } else {
      StepKeeps(s, actions[0]);
      StepClocks(s, actions[0]);
      TimelyRunsKeep(Next(s, actions[0]), actions[1..]);
    }
  }

  /**
   With one message for the statement, the latest delivery never finds a live lease of an earlier
   one: its claim is refused only when there is nothing to process.
   */
  lemma RedeliveryFindsLeaseExpired(s: State, a: nat)
    requires TimelyReachable(s)
    requires a < |s.attempts| && s.attempts[a].claim.Begun? && s.attempts[a].sid in s.rows
    requires forall i :: 0 <= i < |s.attempts| && s.attempts[i].sid == s.attempts[a].sid ==> s.attempts[i].mid == s.attempts[a].mid
    requires forall i :: a < i < |s.attempts| ==> s.attempts[i].mid != s.attempts[a].mid
    ensures var row := s.rows[s.attempts[a].sid];
      Claimable(row, s.attempts[a].claim.at) <==> row.status == Queued || row.status == Processing
  {
    var init, actions :| Init(init) && TimelyRuns(init, actions) && Runs(init, actions) && After(init, actions) == s;
    InitInv(init);
    TimelyRunsKeep(init, actions);
    var sid := s.attempts[a].sid;
    assert RowInv(s, sid) && AttemptInv(s, a) && AttemptClock(s, a) && LeaseClock(s, sid);
    if s.rows[sid].status == Processing {
      assert Ordered(s, s.rows[sid].token.value, a);
    }
  }
}
