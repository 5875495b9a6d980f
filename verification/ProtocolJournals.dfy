/**
 The handlers as code and the attempts and requests of the protocol do the same to the tables: the
 journals the ones leave are exactly what the runs of the others come to.
 */
module ProtocolJournals {
  import opened Wrappers
  import opened Statements
  import opened JobErrors
  import J = CallJournal
  import StatementRepository
  import JobHandler
  import ApiHandlers
  import opened Protocol
  import opened ProtocolInvariant
  import opened ProtocolSafety
  import opened ProtocolQueue
  import opened ProtocolFailures
  import opened ProtocolRecovery
  import opened ProtocolReports

  // ---- attempts ----

  /** What a step does for attempt a, as the handler's journal would note it. */
  function EntryOf(s: State, action: Action, a: nat): seq<J.Entry>
    requires Enabled(s, action)
  {
    if !action.OnServer? || action.b != a then []
    else
      var x, y := s.attempts[a], ServerNext(s, a, action.server).attempts[a];
      match action.server
      case ApplyClaim => [J.Claimed(x.sid, a, y.claim == Done(true))]
      case LockRow => if y.save.Aborted? then [J.Saved(x.sid, a, x.lines, false)] else []
      case UpdateRow => if y.save.Aborted? then [J.Saved(x.sid, a, x.lines, false)] else []
      case CommitSave => [J.Saved(x.sid, a, x.lines, true)]
      case AbortSave => [J.Saved(x.sid, a, x.lines, false)]
      case ApplyFail => [J.FailureMarked(x.sid, a, x.code, y.fail == Done(true))]
      case _ => []
  }

  /** What a run does for attempt a. */
  function Calls(s: State, actions: seq<Action>, a: nat): seq<J.Entry>
    requires Runs(s, actions)
    decreases |actions|
  {
    if actions == [] then [] else EntryOf(s, actions[0], a) + Calls(Next(s, actions[0]), actions[1..], a)
  }

  /** What the calls of an attempt have come to. */
  function Made(x: Attempt, a: nat): seq<J.Entry> {
    (if x.claim.Done? then [J.Claimed(x.sid, a, x.claim.ok)] else []) +
    (if x.save.Committed? || x.save.Aborted? then [J.Saved(x.sid, a, x.lines, x.save.Committed?)]
     else if x.fail.Done? then [J.FailureMarked(x.sid, a, x.code, x.fail.ok)]
     else [])
  }

  function MadeBy(s: State, a: nat): seq<J.Entry> {
    if a < |s.attempts| then Made(s.attempts[a], a) else []
  }

  lemma HandlerMakesNothing(x: Attempt, settled: bool, e: HandlerEvent, a: nat)
    requires HandlerInv(x) && HandlerEnabled(x, e)
    ensures Made(HandlerAfter(x, settled, e), a) == Made(x, a)
  {
  }

  lemma OwnServerMakes(s: State, a: nat, e: ServerEvent)
    requires Inv(s) && ServerEnabled(s, a, e)
    ensures MadeBy(ServerNext(s, a, e), a) == MadeBy(s, a) + EntryOf(s, OnServer(a, e), a)
  {
    assert AttemptInv(s, a);
    if e.CommitSave? || e.LockRow? || e.UpdateRow? || e.AbortSave? { SaveMakes(s, a, e); } else { CallMakes(s, a, e); }
  }

  lemma SaveMakes(s: State, a: nat, e: ServerEvent)
    requires ServerEnabled(s, a, e) && HandlerInv(s.attempts[a])
    requires e.CommitSave? || e.LockRow? || e.UpdateRow? || e.AbortSave?
    ensures MadeBy(ServerNext(s, a, e), a) == MadeBy(s, a) + EntryOf(s, OnServer(a, e), a)
  {
    SaveAttempts(s, a, e);
    var x, y := s.attempts[a], ServerNext(s, a, e).attempts[a];
    assert x.claim == Done(true) && x.fail.NotSent?;
    assert y.claim == x.claim && y.fail == x.fail && y.lines == x.lines && y.sid == x.sid by {
      SaveKeepsRest(s, a, e);
    }
    SaveEnds(s, a, e);
  }

  lemma SaveKeepsRest(s: State, a: nat, e: ServerEvent)
    requires ServerEnabled(s, a, e) && (e.CommitSave? || e.LockRow? || e.UpdateRow? || e.AbortSave?)
    ensures a < |ServerNext(s, a, e).attempts|
    ensures ServerNext(s, a, e).attempts[a] == s.attempts[a].(save := ServerNext(s, a, e).attempts[a].save)
  {
    match e
    case LockRow => case UpdateRow => case AbortSave =>
    case CommitSave => CommitKeepsRest(s, a);
  }

  lemma CommitKeepsRest(s: State, a: nat)
    requires a < |s.attempts| && s.attempts[a].save.RowUpdated?
    ensures SaveCommitted(s, a).attempts == s.attempts[a := s.attempts[a].(save := Committed)]
  {
  }

  lemma SaveEnds(s: State, a: nat, e: ServerEvent)
    requires ServerEnabled(s, a, e) && (e.CommitSave? || e.LockRow? || e.UpdateRow? || e.AbortSave?)
    ensures !s.attempts[a].save.Committed? && !s.attempts[a].save.Aborted?
    ensures a < |ServerNext(s, a, e).attempts|
    ensures ServerNext(s, a, e).attempts[a].save.Committed? <==> e.CommitSave?
    ensures e.AbortSave? ==> ServerNext(s, a, e).attempts[a].save.Aborted?
  {
  }

  lemma CallMakes(s: State, a: nat, e: ServerEvent)
    requires ServerEnabled(s, a, e) && HandlerInv(s.attempts[a])
    requires !e.CommitSave? && !e.LockRow? && !e.UpdateRow? && !e.AbortSave?
    ensures MadeBy(ServerNext(s, a, e), a) == MadeBy(s, a) + EntryOf(s, OnServer(a, e), a)
  {
    match e
    case BeginClaim => case ApplyClaim => case BeginSave => case Upsert => case BeginFail => case ApplyFail => case LandDelete =>
  }

  lemma OtherServerMakes(s: State, b: nat, e: ServerEvent, a: nat)
    requires ServerEnabled(s, b, e) && a != b
    ensures MadeBy(ServerNext(s, b, e), a) == MadeBy(s, a)
  {
    if !e.LandDelete? { ServerAttempts(s, b, e); }
  }

  lemma StepMakes(s: State, action: Action, a: nat)
    requires Inv(s) && Enabled(s, action)
    ensures MadeBy(Next(s, action), a) == MadeBy(s, a) + EntryOf(s, action, a)
  {
    match action
    case OnServer(b, e) => if b == a { OwnServerMakes(s, a, e); } else { OtherServerMakes(s, b, e, a); }
    case OnHandler(b, e) => HandlerStepMakes(s, b, e, a);
    case OnQueue(m, e) => QueueMakes(s, m, e, a);
    case _ => OthersMake(s, action, a);
  }

  lemma HandlerStepMakes(s: State, b: nat, e: HandlerEvent, a: nat)
    requires Inv(s) && b < |s.attempts| && HandlerEnabled(s.attempts[b], e)
    ensures MadeBy(WithAttempt(s, b, HandlerAfter(s.attempts[b], Settled(s, s.attempts[b].sid), e)), a) == MadeBy(s, a)
  {
    assert AttemptInv(s, b);
    HandlerMakesNothing(s.attempts[b], Settled(s, s.attempts[b].sid), e, a);
  }

  lemma QueueMakes(s: State, m: nat, e: QueueEvent, a: nat)
    requires QueueEnabled(s, m, e)
    ensures MadeBy(QueueNext(s, m, e), a) == MadeBy(s, a)
  {
  }

  lemma OthersMake(s: State, action: Action, a: nat)
    requires Enabled(s, action) && !action.OnServer? && !action.OnHandler? && !action.OnQueue?
    ensures MadeBy(Next(s, action), a) == MadeBy(s, a)
  {
  }

  lemma {:induction false} RunMakes(s: State, actions: seq<Action>, a: nat)
    requires Inv(s) && Runs(s, actions)
    ensures MadeBy(After(s, actions), a) == MadeBy(s, a) + Calls(s, actions, a)
    decreases |actions|
  {
    if actions == [] {
    } else {
      StepKeeps(s, actions[0]);
      StepMakes(s, actions[0], a);
      RunMakes(Next(s, actions[0]), actions[1..], a);
      Regroup(MadeBy(s, a), EntryOf(s, actions[0], a), Calls(Next(s, actions[0]), actions[1..], a));
    }
  }

  /** From the start on, what was done for an attempt is what its calls have come to. */
  lemma CallsAreMade(init: State, actions: seq<Action>, a: nat)
    requires Init(init) && Runs(init, actions)
    ensures Calls(init, actions, a) == MadeBy(After(init, actions), a)
  {
    InitInv(init);
    RunMakes(init, actions, a);
    assert [] + Calls(init, actions, a) == Calls(init, actions, a);
  }

  /** The tables after a step on behalf of an attempt are what its entry says. */
  lemma EntryTellsTheTables(s: State, a: nat, e: ServerEvent)
    requires Inv(s) && ServerEnabled(s, a, e)
    ensures var t, own, id := ServerNext(s, a, e), EntryOf(s, OnServer(a, e), a), s.attempts[a].sid;
      && (own == [] || !own[0].took ==> t.rows == s.rows && t.table == s.table)
      && (own != [] && own[0].took ==> id in t.rows && Told(t, id, a, own[0]))
  {
    if e.ApplyClaim? { ClaimTells(s, a); }
    else if e.ApplyFail? { FailTells(s, a); }
    else if e.CommitSave? { CommitTells(s, a); }
    else { QuietServer(s, a, e); }
  }

  /** The row, and for a save the lines, as the entry of a write that took effect has it. */
  predicate Told(t: State, id: StatementId, a: nat, entry: J.Entry)
    requires id in t.rows
  {
    match entry
    case Claimed(sid, token, _) => sid == id && token == a && t.rows[id].status == Processing && t.rows[id].token == Some(a)
    case Saved(sid, token, lines, _) =>
      sid == id && token == a && t.rows[id].status == Completed && LinesOf(t.table, id) == UpsertAll(map[], lines)
    case FailureMarked(sid, token, code, _) =>
      sid == id && token == a && t.rows[id].status == Failed && t.rows[id].failure == Some(code)
    case _ => false
  }

  lemma ClaimTells(s: State, a: nat)
    requires ServerEnabled(s, a, ApplyClaim)
    ensures var t, x := Protocol.Claimed(s, a), s.attempts[a];
      && t.table == s.table && t.attempts[a].claim.Done?
      && (if t.attempts[a].claim.ok then x.sid in t.rows && Told(t, x.sid, a, J.Claimed(x.sid, a, true)) else t.rows == s.rows)
  {
  }

  lemma FailTells(s: State, a: nat)
    requires ServerEnabled(s, a, ApplyFail)
    ensures var t, x := MarkedFailed(s, a), s.attempts[a];
      && t.table == s.table && t.attempts[a].fail.Done?
      && (if t.attempts[a].fail.ok then x.sid in t.rows && Told(t, x.sid, a, J.FailureMarked(x.sid, a, x.code, true))
          else t.rows == s.rows)
  {
  }

  lemma CommitTells(s: State, a: nat)
    requires Inv(s) && a < |s.attempts| && s.attempts[a].save.RowUpdated?
    ensures var t, x := SaveCommitted(s, a), s.attempts[a];
      x.sid in t.rows && Told(t, x.sid, a, J.Saved(x.sid, a, x.lines, true))
  {
    FinalUpdateMatches(s, a);
    assert AttemptInv(s, a);
  }

  // ---- what attempts do, handlers may ----

  /** A journal that some execution of the handler leaves, for an analysis the schemas let through. */
  ghost predicate HandlerLeaves(own: seq<J.Entry>, id: StatementId, token: Token) {
    && (exists script :: JobHandler.HandlerCalls(own, id, token, script))
    && (|own| == 2 && own[1].Saved? ==> Analyzable(own[1].lines))
  }

  /** What the calls of a handler that made the same must have come to. */
  function ScriptOf(x: Attempt): JobHandler.Script {
    var heard := if x.save.Committed? || x.save.Aborted? || x.fail.Done? then J.Succeeds else J.FailsAfterEffect;
    if x.fail.Done? && x.met.Some? && x.met.value.0.ObjectStore? then
      JobHandler.Script(heard, false, Failure(x.met.value.1), Success([]), StatementRepository.NO_FAULTS, J.Succeeds)
    else if x.fail.Done? && x.met.Some? then
      JobHandler.Script(heard, false, Success(true), Failure(x.met.value.1), StatementRepository.NO_FAULTS, J.Succeeds)
    else
      JobHandler.Script(heard, false, Success(true), Success(x.lines), StatementRepository.NO_FAULTS, J.Succeeds)
  }

  lemma MadeFits(x: Attempt, a: nat)
    requires HandlerInv(x) && AttemptCode(x) && Analyzable(x.lines) && x.claim.Done?
    ensures HandlerLeaves(Made(x, a), x.sid, a)
  {
    if x.fail.Done? { PermanentErrors(x.met.value.0, x.met.value.1); }
    assert JobHandler.HandlerCalls(Made(x, a), x.sid, a, ScriptOf(x));
  }

  /** Over every run, what is done for an attempt is nothing, or the journal of a handler. */
  lemma AttemptsDoWhatHandlersMay(init: State, actions: seq<Action>, a: nat)
    requires Init(init) && Runs(init, actions) && a < |After(init, actions).attempts|
    ensures var own := Calls(init, actions, a);
      own == [] || HandlerLeaves(own, After(init, actions).attempts[a].sid, a)
  {
    CallsAreMade(init, actions, a);
    RunAnalyzed(init, actions);
    ReachableMakes(After(init, actions), a);
  }

  lemma ReachableMakes(s: State, a: nat)
    requires Reachable(s) && AllAnalyzed(s) && a < |s.attempts|
    ensures Made(s.attempts[a], a) == [] || HandlerLeaves(Made(s.attempts[a], a), s.attempts[a].sid, a)
  {
    ReachableCodes(s);
    assert AttemptInv(s, a) && AttemptCode(s.attempts[a]);
    if s.attempts[a].claim.Done? { MadeFits(s.attempts[a], a); }
  }

  // ---- what handlers may do, attempts do ----

  lemma ClaimRefused(init: State, id: StatementId) returns (t: State)
    requires Init(init)
    ensures Reaches(init, t) && |t.attempts| > 0 && t.attempts[0].sid == id && Made(t.attempts[0], 0) == [J.Claimed(id, 0, false)]
  {
    ReachesSelf(init);
    var u := Advance(init, init, StraySend(id));
    var v := DeliverJob(u, 0, id);
    ThenReaches(init, u, v);
    t := Advance(init, v, OnServer(0, BeginClaim));
    t := Advance(init, t, OnServer(0, ApplyClaim));
  }

  lemma ClaimGranted(init: State, id: StatementId) returns (t: State)
    requires Init(init)
    ensures Reaches(init, t) && HoldsClaim(t, 0, 0, id) && t.rows[id].lease == Some(t.now + LEASE_SECONDS * SECOND)
    ensures Made(t.attempts[0], 0) == [J.Claimed(id, 0, true)]
  {
    var u := NewJob(init, id);
    t := DeliverAndClaim(u, 0, id);
    ThenReaches(init, u, t);
  }

  lemma Saves(s: State, id: StatementId, lines: seq<Transaction>, took: bool) returns (t: State)
    requires HoldsClaim(s, 0, 0, id) && Analyzable(lines)
    ensures Reaches(s, t) && |t.attempts| > 0 && t.attempts[0].sid == id
    ensures Made(t.attempts[0], 0) == [J.Claimed(id, 0, true), J.Saved(id, 0, lines, took)]
  {
    if took {
      t := AnalyzeAndSave(s, 0, 0, id, lines);
    } else {
      var u := AnalyzeAndBegin(s, 0, 0, id, lines);
      t := Advance(s, u, OnServer(0, AbortSave));
    }
  }

  /** The attempt has met a permanent error, and asks for the failure mark. */
  predicate Fails(s: State, id: StatementId, code: FailureCode) {
    && |s.attempts| > 0 && s.attempts[0].sid == id && s.attempts[0].claim == Done(true)
    && s.attempts[0].save.Unsent? && s.attempts[0].fail == Sent && s.attempts[0].code == code
  }

  lemma MeetsError(s: State, id: StatementId, stage: Stage, error: JobError) returns (t: State)
    requires HoldsClaim(s, 0, 0, id) && Classify(stage, error).Permanent?
    ensures Reaches(s, t) && Fails(t, id, Classify(stage, error).code)
    ensures t.rows == s.rows && t.now == s.now && t.locks == s.locks
  {
    ReachesSelf(s);
    if stage.ObjectStore? {
      t := Advance(s, s, OnHandler(0, StageFailed(error)));
    } else {
      t := Advance(s, s, OnHandler(0, Fetched));
      t := Advance(s, t, OnHandler(0, StageFailed(error)));
    }
  }

  lemma MarksFailure(s: State, id: StatementId, code: FailureCode, took: bool) returns (t: State)
    requires Fails(s, id, code) && Unlocked(s, id) && id in s.rows && Holds(s.rows[id], 0, s.now)
    ensures Reaches(s, t) && |t.attempts| > 0 && t.attempts[0].sid == id
    ensures Made(t.attempts[0], 0) == [J.Claimed(id, 0, true), J.FailureMarked(id, 0, code, took)]
  {
    ReachesSelf(s);
    t := Advance(s, s, Tick(if took then 0 else s.rows[id].lease.value));
    t := Advance(s, t, OnServer(0, BeginFail));
    t := Advance(s, t, OnServer(0, ApplyFail));
  }

  lemma {:induction false} SecondWrite(s: State, own: seq<J.Entry>, id: StatementId, script: JobHandler.Script) returns (t: State)
    requires HoldsClaim(s, 0, 0, id) && JobHandler.HandlerCalls(own, id, 0, script) && |own| == 2
    requires own[1].Saved? ==> Analyzable(own[1].lines)
    ensures Reaches(s, t) && |t.attempts| > 0 && t.attempts[0].sid == id && Made(t.attempts[0], 0) == own
  {
    if JobHandler.Met(script).None? {
      t := Saves(s, id, script.analysis.value, own[1].took);
    } else {
      var met := JobHandler.Met(script).value;
      var u := MeetsError(s, id, met.0, met.1);
      t := MarksFailure(u, id, JobHandler.Verdict(script).code, own[1].took);
      ThenReaches(s, u, t);
    }
  }

  /** Every journal a handler may leave is what some run does for its first attempt. */
  lemma HandlersDoWhatAttemptsMay(init: State, own: seq<J.Entry>, id: StatementId) returns (actions: seq<Action>)
    requires Init(init) && HandlerLeaves(own, id, 0)
    ensures Runs(init, actions) && |After(init, actions).attempts| > 0 && After(init, actions).attempts[0].sid == id
    ensures Calls(init, actions, 0) == own
  {
    var script :| JobHandler.HandlerCalls(own, id, 0, script);
    var t;
    if !own[0].took {
      t := ClaimRefused(init, id);
    } else {
      t := ClaimGranted(init, id);
      if |own| == 2 {
        var s := t;
        t := SecondWrite(s, own, id, script);
        ThenReaches(init, s, t);
      }
    }
    actions :| Runs(init, actions) && After(init, actions) == t;
    CallsAreMade(init, actions, 0);
  }
}
