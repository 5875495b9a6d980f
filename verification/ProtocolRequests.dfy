/** The same for the analyze requests: their journals are exactly what the protocol's requests do. */
module ProtocolRequests {
  import opened Wrappers
  import opened Statements
  import J = CallJournal
  import ApiHandlers
  import opened Protocol
  import opened ProtocolInvariant
  import opened ProtocolSafety
  import opened ProtocolRecovery

  // ---- what a run does for a request ----

  /** What a step does for request r, as the journal of the API handler would note it. */
  function EntryOf(s: State, action: Action, r: nat): seq<J.Entry> {
    if action.OnRow? && action.row.MarkQueued? && r == |s.requests| then [J.QueueMarked(action.sid, true)]
    else if action.OnRequest? && action.r == r < |s.requests| then RequestEntry(s, s.requests[r], action.request)
    else []
  }

  function RequestEntry(s: State, q: Request, e: RequestEvent): seq<J.Entry> {
    match e
    case SendReturned => [J.JobSent(q.sid, J.Succeeds)]
    case SendFailed => [J.JobSent(q.sid, if q.message.Some? then J.FailsAfterEffect else J.Fails)]
    case ApplyReset => [J.QueueReset(q.sid, q.sid in s.rows && ResetRow(s.rows[q.sid]).Some?)]
    case _ => []
  }

  function Calls(s: State, actions: seq<Action>, r: nat): seq<J.Entry>
    requires Runs(s, actions)
    decreases |actions|
  {
    if actions == [] then [] else EntryOf(s, actions[0], r) + Calls(Next(s, actions[0]), actions[1..], r)
  }

  /** Rows and messages after a step of a request are what its entry says. */
  lemma EntryTellsTheRows(s: State, r: nat, e: RequestEvent)
    requires Inv(s) && RequestEnabled(s, r, e)
    ensures var t, own, id := RequestNext(s, r, e), EntryOf(s, OnRequest(r, e), r), s.requests[r].sid;
      && t.table == s.table
      && (own == [] || own[0].JobSent? || !own[0].took ==> t.rows == s.rows)
      && (own != [] && own[0].QueueReset? && own[0].took ==>
        own[0].id == id && id in s.rows && s.rows[id].status == Queued && t.rows == s.rows[id := s.rows[id].(status := Uploaded)])
      && (own != [] && own[0].JobSent? && !own[0].fate.Fails? ==> exists m :: 0 <= m < |t.messages| && t.messages[m].sid == id)
  {
    assert RequestInv(s, r);
  }

  // ---- what requests do, the API handler may ----

  /** Where a request stands whose calls so far were these. */
  predicate Stands(past: seq<J.Entry>, q: Request) {
    && 1 <= |past| <= 3 && past[0] == J.QueueMarked(q.sid, true)
    && (|past| > 1 <==> q.pc == Accepted || q.resetIssued)
    && (|past| > 1 ==> past[1].JobSent? && past[1].id == q.sid && (past[1].fate.Succeeds? <==> q.pc == Accepted))
    && (|past| == 3 <==> q.resetDone)
    && (|past| == 3 ==> past[2].QueueReset? && past[2].id == q.sid)
  }

  ghost predicate StandsIn(s: State, r: nat, past: seq<J.Entry>) {
    if r < |s.requests| then Stands(past, s.requests[r]) else past == []
  }

  lemma OwnStepStands(s: State, q: Request, e: RequestEvent, past: seq<J.Entry>)
    requires Stands(past, q) && !(q.pc == Accepted && q.resetIssued) && (q.resetDone ==> q.resetIssued)
    requires q.resetIssued ==> q.pc == Resetting || q.pc == RolledBack || q.pc == Died
    requires match e
      case IssueSend => q.pc == Marked
      case Enqueue => q.sendIssued
      case SendReturned => q.pc == Sending && q.message.Some?
      case SendFailed => q.pc == Sending
      case ApplyReset => q.resetIssued && !q.resetDone
      case ResetReturned => q.pc == Resetting && q.resetDone
      case Die => q.pc == Marked || q.pc == Sending || q.pc == Resetting
    ensures Stands(past + RequestEntry(s, q, e), RequestAfter(s, q, e))
  {
    match e
    case SendReturned => case SendFailed => case ApplyReset =>
    case _ => assert past + [] == past;
  }

  lemma StepStands(s: State, action: Action, r: nat, past: seq<J.Entry>)
    requires Inv(s) && Enabled(s, action) && StandsIn(s, r, past)
    ensures StandsIn(Next(s, action), r, past + EntryOf(s, action, r))
  {
    if action.OnRequest? && action.r == r {
      assert RequestInv(s, r);
      OwnStepStands(s, s.requests[r], action.request, past);
    } else if action.OnRow? && action.row.MarkQueued? && r == |s.requests| {
      assert [] + EntryOf(s, action, r) == EntryOf(s, action, r);
    } else {
      assert past + [] == past;
      OtherRequestsStay(s, action, r);
    }
  }

  lemma OtherRequestsStay(s: State, action: Action, r: nat)
    requires Enabled(s, action) && !(action.OnRequest? && action.r == r)
    requires !(action.OnRow? && action.row.MarkQueued? && r == |s.requests|)
    ensures |Next(s, action).requests| > r <==> |s.requests| > r
    ensures r < |s.requests| ==> Next(s, action).requests[r] == s.requests[r]
  {
    match action
    case OnRequest(i, e) => OtherRequest(s, i, e, r);
    case OnServer(b, e) => ServerLeavesRequests(s, b, e);
    case OnRow(_, e) => match e { case Create => case MarkUploaded => case MarkQueued(_) => }
    case OnQueue(_, e) => match e { case Receive => case MoveToDlq => }
    case OnHandler(_, _) =>
    case Tick(_) =>
    case StraySend(_) =>
  }

  lemma OtherRequest(s: State, i: nat, e: RequestEvent, r: nat)
    requires RequestEnabled(s, i, e) && i != r
    ensures |RequestNext(s, i, e).requests| == |s.requests|
    ensures r < |s.requests| ==> RequestNext(s, i, e).requests[r] == s.requests[r]
  {
  }

  lemma ServerLeavesRequests(s: State, b: nat, e: ServerEvent)
    requires ServerEnabled(s, b, e)
    ensures ServerNext(s, b, e).requests == s.requests
  {
    match e
    case BeginClaim => case ApplyClaim => case BeginSave => case LockRow => case Upsert => case UpdateRow =>
    case CommitSave => case AbortSave => case BeginFail => case ApplyFail => case LandDelete =>
  }

  lemma {:induction false} RunStands(s: State, actions: seq<Action>, r: nat, past: seq<J.Entry>)
    requires Inv(s) && Runs(s, actions) && StandsIn(s, r, past)
    ensures StandsIn(After(s, actions), r, past + Calls(s, actions, r))
    decreases |actions|
  {
    if actions == [] {
      assert past + [] == past;
    } else {
      var entry, rest := EntryOf(s, actions[0], r), Calls(Next(s, actions[0]), actions[1..], r);
      StepKeeps(s, actions[0]);
      StepStands(s, actions[0], r, past);
      RunStands(Next(s, actions[0]), actions[1..], r, past + entry);
      Regroup(past, entry, rest);
    }
  }

  /** A journal that some analyze request leaves which has queued its statement. */
  ghost predicate RequestLeaves(own: seq<J.Entry>, id: StatementId) {
    own != [] && own[0] == J.QueueMarked(id, true) &&
    exists mark, send, reset :: ApiHandlers.AnalyzeCalls(own, id, mark, send, reset)
  }

  lemma StandsLeaves(past: seq<J.Entry>, q: Request)
    requires Stands(past, q) && (q.resetDone ==> q.resetIssued) && !(q.pc == Accepted && q.resetIssued)
    ensures RequestLeaves(past, q.sid)
  {
    var mark := if |past| > 1 then J.Succeeds else J.FailsAfterEffect;
    var send := if |past| > 1 then past[1].fate else J.Fails;
    var reset := if |past| > 2 then J.Succeeds else J.Fails;
    assert ApiHandlers.AnalyzeCalls(past, q.sid, mark, send, reset);
  }

  /** Over every run, what is done for a request is the journal of an analyze request that queued its statement. */
  lemma RequestsDoWhatHandlersMay(init: State, actions: seq<Action>, r: nat)
    requires Init(init) && Runs(init, actions) && r < |After(init, actions).requests|
    ensures RequestLeaves(Calls(init, actions, r), After(init, actions).requests[r].sid)
  {
    InitInv(init);
    RunStands(init, actions, r, []);
    assert [] + Calls(init, actions, r) == Calls(init, actions, r);
    RunsKeep(init, actions);
    assert RequestInv(After(init, actions), r);
    StandsLeaves(Calls(init, actions, r), After(init, actions).requests[r]);
  }

  // ---- what the API handler may do, requests do ----

  /** Some run from init leads to t and does just this for request 0. */
  ghost predicate Leads(init: State, t: State, own: seq<J.Entry>) {
    exists actions :: Runs(init, actions) && After(init, actions) == t && Calls(init, actions, 0) == own
  }

  lemma {:induction false} CallsConcat(s: State, first: seq<Action>, rest: seq<Action>, all: seq<Action>, r: nat, u: State)
    requires Runs(s, first) && After(s, first) == u && Runs(u, rest) && all == first + rest && Runs(s, all)
    ensures Calls(s, all, r) == Calls(s, first, r) + Calls(u, rest, r)
    decreases |first|
  {
    if first == [] {
      assert all == rest && [] + Calls(s, rest, r) == Calls(s, rest, r);
    } else {
      var t := FirstStep(s, first, u);
      assert all[0] == first[0] && all[1..] == first[1..] + rest;
      CallsConcat(t, first[1..], rest, all[1..], r, u);
      Regroup(EntryOf(s, first[0], r), Calls(t, first[1..], r), Calls(u, rest, r));
    }
  }

  lemma FirstStep(s: State, first: seq<Action>, u: State) returns (t: State)
    requires first != [] && Runs(s, first) && After(s, first) == u
    ensures Enabled(s, first[0]) && t == Next(s, first[0]) && Runs(t, first[1..]) && After(t, first[1..]) == u
  {
    t := Next(s, first[0]);
  }

  lemma OneStep(s: State, action: Action, r: nat)
    requires Enabled(s, action)
    ensures Runs(s, [action]) && After(s, [action]) == Next(s, action) && Calls(s, [action], r) == EntryOf(s, action, r)
  {
    var t := Next(s, action);
    assert [action][1..] == [] && Runs(t, []) && After(t, []) == t;
    assert EntryOf(s, action, r) + [] == EntryOf(s, action, r);
  }

  lemma Take(init: State, s: State, own: seq<J.Entry>, action: Action) returns (t: State)
    requires Leads(init, s, own) && Enabled(s, action)
    ensures t == Next(s, action) && Leads(init, t, own + EntryOf(s, action, 0))
  {
    t := Next(s, action);
    var actions :| Runs(init, actions) && After(init, actions) == s && Calls(init, actions, 0) == own;
    OneStep(s, action, 0);
    Concatenate(init, actions, [action]);
    CallsConcat(init, actions, [action], actions + [action], 0, s);
  }

  lemma TakeQuiet(init: State, s: State, own: seq<J.Entry>, action: Action) returns (t: State)
    requires Leads(init, s, own) && Enabled(s, action) && EntryOf(s, action, 0) == []
    ensures t == Next(s, action) && Leads(init, t, own)
  {
    t := Take(init, s, own, action);
    assert own + [] == own;
  }

  lemma Begin(init: State)
    ensures Leads(init, init, [])
  {
    assert Runs(init, []) && After(init, []) == init && Calls(init, [], 0) == [];
  }

  /** The first request, after its markQueued or its send. */
  predicate At(s: State, id: StatementId, q: Request) {
    && s.requests == [q] && q.sid == id && id in s.rows && s.rows[id].status == Queued
    && s.locks == map[] && s.attempts == []
  }

  lemma Queues(init: State, id: StatementId) returns (t: State)
    requires Init(init)
    ensures Leads(init, t, [J.QueueMarked(id, true)]) && At(t, id, Request(id, Marked, false, None, false, false)) && t.messages == []
  {
    t := Uploads(init, id);
    t := Take(init, t, [], OnRow(id, MarkQueued(true)));
    assert [] + [J.QueueMarked(id, true)] == [J.QueueMarked(id, true)];
  }

  lemma Uploads(init: State, id: StatementId) returns (t: State)
    requires Init(init)
    ensures Leads(init, t, []) && t == init.(rows := t.rows) && id in t.rows && t.rows[id].status == Uploaded
  {
    Begin(init);
    t := TakeQuiet(init, init, [], OnRow(id, Create));
    t := TakeQuiet(init, t, [], OnRow(id, MarkUploaded));
  }

  predicate AfterSend(s: State, id: StatementId, send: J.Fate) {
    && |s.requests| == 1 && At(s, id, s.requests[0]) && s.requests[0].sendIssued
    && (if send.Succeeds? then s.requests[0].pc == Accepted
        else s.requests[0].pc == Resetting && s.requests[0].resetIssued && !s.requests[0].resetDone)
    && (if send.Fails? then s.messages == [] else |s.messages| == 1 && s.messages[0] == Message(id, 0, s.now, false, false))
  }

  lemma SendsJob(init: State, s: State, id: StatementId, send: J.Fate) returns (t: State)
    requires Leads(init, s, [J.QueueMarked(id, true)]) && At(s, id, Request(id, Marked, false, None, false, false)) && s.messages == []
    ensures Leads(init, t, [J.QueueMarked(id, true), J.JobSent(id, send)]) && AfterSend(t, id, send)
  {
    var own := [J.QueueMarked(id, true)];
    t := TakeQuiet(init, s, own, OnRequest(0, IssueSend));
    if !send.Fails? { t := TakeQuiet(init, t, own, OnRequest(0, Enqueue)); }
    t := Take(init, t, own, OnRequest(0, if send.Succeeds? then SendReturned else SendFailed));
    assert own + [J.JobSent(id, send)] == [J.QueueMarked(id, true), J.JobSent(id, send)];
  }

  /** The reset is still to come, and finds the statement queued or already claimed. */
  predicate BeforeReset(s: State, id: StatementId, queued: bool) {
    && |s.requests| == 1 && s.requests[0].sid == id && s.requests[0].resetIssued && !s.requests[0].resetDone
    && s.locks == map[] && id in s.rows && s.rows[id].status == if queued then Queued else Processing
  }

  /** A send that was heard to fail may have put the job into the queue, now or later, and it may be claimed at once. */
  lemma ClaimedMeanwhile(init: State, s: State, own: seq<J.Entry>, id: StatementId, send: J.Fate) returns (t: State)
    requires Leads(init, s, own) && AfterSend(s, id, send) && !send.Succeeds?
    ensures Leads(init, t, own) && BeforeReset(t, id, false)
  {
    t := s;
    if send.Fails? { t := TakeQuiet(init, t, own, OnRequest(0, Enqueue)); }
    t := TakeQuiet(init, t, own, OnQueue(0, Receive));
    t := TakeQuiet(init, t, own, OnHandler(0, SendClaim(LEASE_SECONDS)));
    t := TakeQuiet(init, t, own, OnServer(0, BeginClaim));
    t := TakeQuiet(init, t, own, OnServer(0, ApplyClaim));
  }

  lemma Resets(init: State, s: State, own: seq<J.Entry>, id: StatementId, took: bool) returns (t: State)
    requires Leads(init, s, own) && BeforeReset(s, id, took)
    ensures Leads(init, t, own + [J.QueueReset(id, took)]) && |t.requests| == 1 && t.requests[0].sid == id
  {
    t := Take(init, s, own, OnRequest(0, ApplyReset));
  }

  lemma SendAndReset(init: State, s: State, own: seq<J.Entry>, id: StatementId, mark: J.Fate, send: J.Fate, reset: J.Fate)
    returns (t: State)
    requires Leads(init, s, [J.QueueMarked(id, true)]) && At(s, id, Request(id, Marked, false, None, false, false)) && s.messages == []
    requires ApiHandlers.AnalyzeCalls(own, id, mark, send, reset) && own[0].took && |own| > 1
    ensures Leads(init, t, own) && |t.requests| == 1 && t.requests[0].sid == id
  {
    t := SendsJob(init, s, id, send);
    if |own| > 2 {
      var sent := own[..2];
      assert sent == [J.QueueMarked(id, true), J.JobSent(id, send)];
      if !own[2].took { t := ClaimedMeanwhile(init, t, sent, id, send); }
      t := Resets(init, t, sent, id, own[2].took);
      assert own == sent + [J.QueueReset(id, own[2].took)];
    } else {
      assert own == [J.QueueMarked(id, true), J.JobSent(id, send)];
    }
  }

  /** Every journal of an analyze request that queued its statement is what some run does for its first request. */
  lemma HandlersDoWhatRequestsMay(init: State, own: seq<J.Entry>, id: StatementId) returns (actions: seq<Action>)
    requires Init(init) && RequestLeaves(own, id)
    ensures Runs(init, actions) && |After(init, actions).requests| > 0 && After(init, actions).requests[0].sid == id
    ensures Calls(init, actions, 0) == own
  {
    var mark, send, reset :| ApiHandlers.AnalyzeCalls(own, id, mark, send, reset);
    var t := Queues(init, id);
    if |own| > 1 {
      t := SendAndReset(init, t, own, id, mark, send, reset);
    } else {
      assert own == [J.QueueMarked(id, true)];
    }
    actions :| Runs(init, actions) && After(init, actions) == t && Calls(init, actions, 0) == own;
  }
}
