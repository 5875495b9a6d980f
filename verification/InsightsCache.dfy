/**
 Concurrent insights requests against the cache table, as a step system: look up, wait for the
 advisory lock, look up again, generate, validate, save, commit. A request's handler (phase) and
 its database transaction (session) move separately, so a handler may fail at any moment while its
 session still waits, holds the lock, or commits. The lock id is any function of month, model and
 prompt; reads see committed rows only.
 */
module InsightsCache {
  import opened Wrappers
  import opened Documents
  import opened InsightsInput
  import opened InsightsValidation

  type Month = (int, int)

  datatype CacheKey = CacheKey(month: Month, version: Fingerprint, model: Text, prompt: Text)

  datatype LockKey = LockKey(month: Month, model: Text, prompt: Text)

  /** The one row of a month. */
  datatype CacheRow = CacheRow(key: CacheKey, document: Json, generatedAt: nat)

  type Table = map<Month, CacheRow>

  datatype Phase =
    | Looking
    | Waiting
    | Generating
    | Saving(generated: Document, at: nat)
    | Committing(answer: Document, answeredAt: nat, cached: bool)
    | Answered(answer: Document, answeredAt: nat, cached: bool)
    | Failed

  datatype Session = NoSession | Queued | Holding(pending: Option<CacheRow>) | Committed | RolledBack

  datatype Request = Request(
    input: CompactInput,
    model: Text,
    prompt: Text,
    phase: Phase,
    session: Session,
    missed: bool,         // history: the look-up under the lock found nothing usable
    commitIssued: bool)

  datatype State = State(
    lockId: LockKey -> int,
    table: Table,
    locks: map<int, nat>,
    requests: seq<Request>,
    log: map<Month, seq<CacheKey>>)   // history: the committed saves of each month, oldest first

  datatype Action =
    | Start(input: CompactInput, model: Text, prompt: Text)
    | LookUp(r: nat)
    | Acquire(r: nat)
    | Recheck(r: nat)
    | Generate(r: nat, raw: Json, now: nat)
    | GenerationFailed(r: nat)
    | Save(r: nat)
    | Commit(r: nat)
    | Respond(r: nat)
    | Fail(r: nat)
    | Abort(r: nat)

  function KeyFor(input: CompactInput, model: Text, prompt: Text): CacheKey {
    CacheKey(input.month, FingerprintOf(input), model, prompt)
  }

  function KeyOf(q: Request): CacheKey {
    KeyFor(q.input, q.model, q.prompt)
  }

  function LockOf(s: State, q: Request): int {
    s.lockId(LockKey(q.input.month, q.model, q.prompt))
  }

  /** findMonthlyInsights and getCachedResponse: a row under the key that the reader's own analytics accept. */
  function Usable(table: Table, key: CacheKey, input: CompactInput): Option<(Document, nat)> {
    if key.month in table && table[key.month].key == key && Validate(table[key.month].document, input).Success?
    then Some((Validate(table[key.month].document, input).value, table[key.month].generatedAt))
    else None
  }

  function Hit(s: State, q: Request): Option<(Document, nat)> {
    Usable(s.table, KeyOf(q), q.input)
  }

  /** No other open transaction has written the month's row. */
  predicate RowFree(s: State, r: nat)
    requires r < |s.requests|
  {
    forall i :: 0 <= i < |s.requests| && i != r && s.requests[i].session.Holding? && s.requests[i].session.pending.Some? ==>
      s.requests[i].input.month != s.requests[r].input.month
  }

  predicate Enabled(s: State, action: Action) {
    match action
    case Start(_, _, _) => true
    case LookUp(r) => r < |s.requests| && s.requests[r].phase.Looking?
    case Acquire(r) => r < |s.requests| && s.requests[r].session.Queued? && LockOf(s, s.requests[r]) !in s.locks
    case Recheck(r) => r < |s.requests| && s.requests[r].phase.Waiting? && s.requests[r].session.Holding?
    case Generate(r, raw, _) => r < |s.requests| && s.requests[r].phase.Generating?
    case GenerationFailed(r) => r < |s.requests| && s.requests[r].phase.Generating?
    case Save(r) =>
      && r < |s.requests| && s.requests[r].phase.Saving? && s.requests[r].session.Holding?
      && RowFree(s, r)
    case Commit(r) => r < |s.requests| && s.requests[r].session.Holding? && s.requests[r].commitIssued
    case Respond(r) => r < |s.requests| && s.requests[r].phase.Committing? && s.requests[r].session.Committed?
    case Fail(r) => r < |s.requests| && !s.requests[r].phase.Answered?
    case Abort(r) => r < |s.requests| && (s.requests[r].session.Queued? || s.requests[r].session.Holding?)
  }

  function With(s: State, r: nat, q: Request): State
    requires r < |s.requests|
  {
    s.(requests := s.requests[r := q])
  }

  function LookedUp(s: State, r: nat): State
    requires r < |s.requests|
  {
    var q := s.requests[r];
    var hit := Hit(s, q);
    With(s, r,
      if hit.Some? then q.(phase := Answered(hit.value.0, hit.value.1, true))
      else q.(phase := Waiting, session := Queued))
  }

  function Rechecked(s: State, r: nat): State
    requires r < |s.requests|
  {
    var q := s.requests[r];
    var hit := Hit(s, q);
    With(s, r,
      if hit.Some? then q.(phase := Committing(hit.value.0, hit.value.1, true), commitIssued := true)
      else q.(phase := Generating, missed := true))
  }

  function Generated(q: Request, raw: Json, now: nat): Request {
    var v := Validate(raw, q.input);
    if v.Success? then q.(phase := Saving(v.value, now)) else q.(phase := Failed)
  }

  function SavedRow(q: Request): Request
    requires q.phase.Saving?
  {
    var row := CacheRow(KeyOf(q), Encode(q.phase.generated), q.phase.at);
    q.(session := Holding(Some(row)), phase := Committing(q.phase.generated, q.phase.at, false), commitIssued := true)
  }

  function LogOf(s: State, month: Month): seq<CacheKey> {
    if month in s.log then s.log[month] else []
  }

  function CommittedState(s: State, r: nat): State
    requires r < |s.requests| && s.requests[r].session.Holding?
  {
    var q := s.requests[r];
    var t := With(s, r, q.(session := Committed)).(locks := s.locks - {LockOf(s, q)});
    var m := q.input.month;
    if q.session.pending.Some? then
      t.(table := s.table[m := q.session.pending.value], log := s.log[m := LogOf(s, m) + [q.session.pending.value.key]])
    else
      t
  }

  function AbortedState(s: State, r: nat): State
    requires r < |s.requests|
  {
    var q := s.requests[r];
    var t := With(s, r, q.(session := RolledBack));
    if q.session.Holding? then t.(locks := s.locks - {LockOf(s, q)}) else t
  }

  function Next(s: State, action: Action): State
    requires Enabled(s, action)
  {
    match action
    case Start(input, model, prompt) =>
      s.(requests := s.requests + [Request(input, model, prompt, Looking, NoSession, false, false)])
    case LookUp(r) => LookedUp(s, r)
    case Acquire(r) => With(s, r, s.requests[r].(session := Holding(None))).(locks := s.locks[LockOf(s, s.requests[r]) := r])
    case Recheck(r) => Rechecked(s, r)
    case Generate(r, raw, now) => With(s, r, Generated(s.requests[r], raw, now))
    case GenerationFailed(r) => With(s, r, s.requests[r].(phase := Failed))
    case Save(r) => With(s, r, SavedRow(s.requests[r]))
    case Commit(r) => CommittedState(s, r)
    case Respond(r) =>
      var p := s.requests[r].phase;
      With(s, r, s.requests[r].(phase := Answered(p.answer, p.answeredAt, p.cached)))
    case Fail(r) => With(s, r, s.requests[r].(phase := Failed))
    case Abort(r) => AbortedState(s, r)
  }

  /** Any table may be there at the start, rows the validator rejects included. */
  predicate Init(s: State) {
    s.locks == map[] && s.requests == [] && s.log == map[]
  }

  predicate Runs(s: State, actions: seq<Action>)
    decreases |actions|
  {
    actions == [] || (Enabled(s, actions[0]) && Runs(Next(s, actions[0]), actions[1..]))
  }

  function After(s: State, actions: seq<Action>): State
    requires Runs(s, actions)
    decreases |actions|
  {
    if actions == [] then s else After(Next(s, actions[0]), actions[1..])
  }

  // ---- the invariant ----

  /** The row holds a document validated for an input of the row's own version. */
  ghost predicate Written(row: CacheRow) {
    exists writer, raw ::
      && Validate(raw, writer).Success? && FingerprintOf(writer) == row.key.version
      && row.document == Encode(Validate(raw, writer).value)
  }

  /** The answer satisfies the validator for the request's own analytics. */
  predicate Fits(q: Request, document: Document) {
    Validate(Encode(document), q.input) == Success(document)
  }

  /** What a request knows about itself. */
  ghost predicate OwnInv(q: Request) {
    && (q.phase.Looking? ==> q.session.NoSession?)
    && (q.phase.Looking? || q.phase.Waiting? || q.phase.Generating? || q.phase.Saving? ==> !q.commitIssued)
    && (q.phase.Generating? || q.phase.Saving? ==> q.missed)
    && (q.phase.Waiting? && q.session.Holding? ==> q.session.pending.None?)
    && (q.session.NoSession? || q.session.Queued? ==> !q.missed)
    && (q.phase.Saving? ==>
      Fits(q, q.phase.generated) && Written(CacheRow(KeyOf(q), Encode(q.phase.generated), q.phase.at)))
    && (q.phase.Committing? || q.phase.Answered? ==> Fits(q, q.phase.answer))
    && (q.session.Holding? && q.session.pending.Some? ==>
      q.missed && q.session.pending.value.key == KeyOf(q) && Written(q.session.pending.value))
    && (q.session.Committed? ==> q.commitIssued)
  }

  /** Locks and transactions agree; behind the lock a miss stays a miss. */
  ghost predicate RequestInv(s: State, r: nat)
    requires r < |s.requests|
  {
    var q := s.requests[r];
    && OwnInv(q)
    && (q.session.Holding? ==> LockOf(s, q) in s.locks && s.locks[LockOf(s, q)] == r)
    && (q.session.Holding? && q.missed ==> Hit(s, q).None?)
  }

  /** The last committed save of a month is its row; no two saves in a row have the same key. */
  ghost predicate MonthInv(s: State, m: Month) {
    var log := LogOf(s, m);
    && (log != [] ==> m in s.table && s.table[m].key == log[|log| - 1] && Written(s.table[m]))
    && (forall k :: k in log ==> k.month == m)
    && (forall i :: 0 < i < |log| ==> log[i - 1] != log[i])
  }

  ghost predicate RequestsInv(s: State) {
    forall r :: 0 <= r < |s.requests| ==> RequestInv(s, r)
  }

  ghost predicate MonthsInv(s: State) {
    forall m :: MonthInv(s, m)
  }

  ghost predicate Inv(s: State) {
    RequestsInv(s) && MonthsInv(s)
  }

  /** The cache accepts what the service wrote: the row of a key is a hit for every request of that key. */
  lemma WrittenRowHits(s: State, q: Request)
    requires q.input.month in s.table && s.table[q.input.month].key == KeyOf(q) && Written(s.table[q.input.month])
    ensures Hit(s, q).Some?
  {
    var row := s.table[q.input.month];
    var writer, raw :| Validate(raw, writer).Success? && FingerprintOf(writer) == row.key.version
      && row.document == Encode(Validate(raw, writer).value);
    StoredDocumentRevalidates(raw, writer, q.input);
  }

  lemma HitFits(s: State, q: Request)
    ensures Hit(s, q).Some? ==> Fits(q, Hit(s, q).value.0)
  {
    if Hit(s, q).Some? { StoredDocumentRevalidates(s.table[q.input.month].document, q.input, q.input); }
  }

  // ---- steps that leave table and log alone ----

  lemma QuietStep(s: State, r: nat, q: Request)
    requires Inv(s) && r < |s.requests|
    requires q.input == s.requests[r].input && q.model == s.requests[r].model && q.prompt == s.requests[r].prompt
    requires q.session.Holding? ==> s.requests[r].session.Holding?
    requires q.session.Holding? && q.missed ==> Hit(s, q).None?
    requires OwnInv(q)
    ensures Inv(With(s, r, q))
  {
    var t := With(s, r, q);
    assert RequestInv(s, r);
    forall i | 0 <= i < |t.requests| ensures RequestInv(t, i) { assert RequestInv(s, i); }
    forall m ensures MonthInv(t, m) { assert MonthInv(s, m); }
  }

  lemma StartKeeps(s: State, action: Action)
    requires Inv(s) && action.Start?
    ensures Inv(Next(s, action))
  {
    var t := Next(s, action);
    forall i | 0 <= i < |t.requests| ensures RequestInv(t, i) { if i < |s.requests| { assert RequestInv(s, i); } }
    forall m ensures MonthInv(t, m) { assert MonthInv(s, m); }
  }

  lemma LookUpKeeps(s: State, r: nat)
    requires Inv(s) && Enabled(s, LookUp(r))
    ensures Inv(LookedUp(s, r))
  {
    assert RequestInv(s, r);
    HitFits(s, s.requests[r]);
    QuietStep(s, r, LookedUp(s, r).requests[r]);
  }

  lemma RecheckKeeps(s: State, r: nat)
    requires Inv(s) && Enabled(s, Recheck(r))
    ensures Inv(Rechecked(s, r))
  {
    assert RequestInv(s, r);
    HitFits(s, s.requests[r]);
    QuietStep(s, r, Rechecked(s, r).requests[r]);
  }

  lemma AcquireKeeps(s: State, r: nat)
    requires Inv(s) && Enabled(s, Acquire(r))
    ensures Inv(Next(s, Acquire(r)))
  {
    var t := Next(s, Acquire(r));
    assert RequestInv(s, r);
    forall i | 0 <= i < |t.requests| ensures RequestInv(t, i) { assert RequestInv(s, i); }
    forall m ensures MonthInv(t, m) { assert MonthInv(s, m); }
  }

  lemma GeneratedFits(q: Request, raw: Json, now: nat)
    requires Validate(raw, q.input).Success?
    ensures Fits(q, Validate(raw, q.input).value)
    ensures Written(CacheRow(KeyOf(q), Encode(Validate(raw, q.input).value), now))
  {
    StoredDocumentRevalidates(raw, q.input, q.input);
  }

  lemma OwnGenerated(q: Request, raw: Json, now: nat)
    requires OwnInv(q) && q.phase.Generating?
    ensures OwnInv(Generated(q, raw, now))
  {
    if Validate(raw, q.input).Success? { GeneratedFits(q, raw, now); }
  }

  lemma GenerateKeeps(s: State, r: nat, raw: Json, now: nat)
    requires Inv(s) && Enabled(s, Generate(r, raw, now))
    ensures Inv(With(s, r, Generated(s.requests[r], raw, now)))
  {
    assert RequestInv(s, r);
    OwnGenerated(s.requests[r], raw, now);
    QuietStep(s, r, Generated(s.requests[r], raw, now));
  }

  lemma HandlerKeeps(s: State, action: Action)
    requires Inv(s) && Enabled(s, action) && (action.GenerationFailed? || action.Fail? || action.Respond? || action.Save?)
    ensures Inv(Next(s, action))
  {
    assert RequestInv(s, action.r);
    QuietStep(s, action.r, Next(s, action).requests[action.r]);
  }

  // ---- the end of a transaction ----

  /** Different lock ids mean different cache keys of the month, so another's commit never turns a miss into a hit. */
  lemma OthersDoNotHit(s: State, r: nat, i: nat)
    requires Inv(s) && r < |s.requests| && i < |s.requests| && i != r
    requires s.requests[r].session.Holding? && s.requests[i].session.Holding? && s.requests[i].missed
    ensures LockOf(s, s.requests[i]) != LockOf(s, s.requests[r])
    ensures Hit(CommittedState(s, r), s.requests[i]).None?
  {
    assert RequestInv(s, r) && RequestInv(s, i);
  }

  lemma CommitRequests(s: State, r: nat)
    requires Inv(s) && Enabled(s, Commit(r))
    ensures RequestsInv(CommittedState(s, r))
  {
    var t := CommittedState(s, r);
    assert RequestInv(s, r);
    forall i | 0 <= i < |t.requests| ensures RequestInv(t, i) {
      assert RequestInv(s, i);
      if i != r && s.requests[i].session.Holding? {
        assert LockOf(s, s.requests[i]) != LockOf(s, s.requests[r]);
        if s.requests[i].missed { OthersDoNotHit(s, r, i); }
      }
    }
  }

  /** The row a commit replaces had another key, so the log never repeats a key back to back. */
  lemma CommitMonths(s: State, r: nat)
    requires Inv(s) && Enabled(s, Commit(r))
    ensures MonthsInv(CommittedState(s, r))
  {
    var q, t := s.requests[r], CommittedState(s, r);
    assert RequestInv(s, r);
    forall m ensures MonthInv(t, m) {
      assert MonthInv(s, m);
      var log := LogOf(s, m);
      if m == q.input.month && q.session.pending.Some? && log != [] && log[|log| - 1] == KeyOf(q) {
        WrittenRowHits(s, q);
      }
    }
  }

  lemma AbortKeeps(s: State, r: nat)
    requires Inv(s) && Enabled(s, Abort(r))
    ensures Inv(AbortedState(s, r))
  {
    var t := AbortedState(s, r);
    assert RequestInv(s, r);
    forall i | 0 <= i < |t.requests| ensures RequestInv(t, i) { assert RequestInv(s, i); }
    forall m ensures MonthInv(t, m) { assert MonthInv(s, m); }
  }

  lemma StepKeeps(s: State, action: Action)
    requires Inv(s) && Enabled(s, action)
    ensures Inv(Next(s, action))
  {
    match action
    case Start(_, _, _) => StartKeeps(s, action);
    case LookUp(r) => LookUpKeeps(s, r);
    case Acquire(r) => AcquireKeeps(s, r);
    case Recheck(r) => RecheckKeeps(s, r);
    case Generate(r, raw, now) => GenerateKeeps(s, r, raw, now);
    case GenerationFailed(_) => HandlerKeeps(s, action);
    case Save(_) => HandlerKeeps(s, action);
    case Commit(r) => CommitRequests(s, r); CommitMonths(s, r);
    case Respond(_) => HandlerKeeps(s, action);
    case Fail(_) => HandlerKeeps(s, action);
    case Abort(r) => AbortKeeps(s, r);
  }

  // ---- over every run ----

  ghost predicate Reachable(s: State) {
    exists init, actions :: Init(init) && Runs(init, actions) && After(init, actions) == s
  }

  lemma {:induction false} RunsKeep(s: State, actions: seq<Action>)
    requires Inv(s) && Runs(s, actions)
    ensures Inv(After(s, actions))
    decreases |actions|
  {
    if actions == [] {
    } else {
      StepKeeps(s, actions[0]);
      RunsKeep(Next(s, actions[0]), actions[1..]);
    }
  }

  lemma ReachableInv(s: State)
    requires Reachable(s)
    ensures Inv(s)
  {
    var init, actions :| Init(init) && Runs(init, actions) && After(init, actions) == s;
    RunsKeep(init, actions);
  }

  /** Single flight: requests that would generate for the same lock never hold it together. */
  lemma OneGenerationPerLock(s: State, r: nat, i: nat)
    requires Reachable(s) && r < |s.requests| && i < |s.requests|
    requires s.requests[r].session.Holding? && s.requests[i].session.Holding?
    requires LockOf(s, s.requests[r]) == LockOf(s, s.requests[i])
    ensures r == i
  {
    ReachableInv(s);
    assert RequestInv(s, r) && RequestInv(s, i);
  }

  /**
   Between two committed generations for the same month, fingerprint, model and prompt there is
   always a committed save of that month under another key.
   */
  lemma NoRepeatedGeneration(s: State, m: Month, i: nat, j: nat)
    requires Reachable(s) && i < j < |LogOf(s, m)| && LogOf(s, m)[i] == LogOf(s, m)[j]
    ensures exists k :: i < k < j && LogOf(s, m)[k] != LogOf(s, m)[i]
  {
    ReachableInv(s);
    assert MonthInv(s, m);
    assert LogOf(s, m)[i + 1 - 1] != LogOf(s, m)[i + 1];
  }

  /** Whatever a request answers the validator accepts, as it is, for that request's own analytics: schema and claims. */
  lemma AnswersFit(s: State, r: nat)
    requires Reachable(s) && r < |s.requests| && s.requests[r].phase.Answered?
    ensures Validate(Encode(s.requests[r].phase.answer), s.requests[r].input) == Success(s.requests[r].phase.answer)
    ensures AllAcceptable(s.requests[r].phase.answer, s.requests[r].input)
  {
    ReachableInv(s);
    assert RequestInv(s, r);
  }

  /** getCachedResponse never rejects a row the service has committed. */
  lemma OwnRowsAreHits(s: State, q: Request)
    requires Reachable(s) && LogOf(s, q.input.month) != []
    requires LogOf(s, q.input.month)[|LogOf(s, q.input.month)| - 1] == KeyOf(q)
    ensures Hit(s, q).Some?
  {
    ReachableInv(s);
    assert MonthInv(s, q.input.month);
    WrittenRowHits(s, q);
  }

  // ---- failed generations ----

  /** The handler has failed without asking for a commit. */
  predicate GaveUp(s: State, r: nat) {
    r < |s.requests| && s.requests[r].phase.Failed? && !s.requests[r].commitIssued && !s.requests[r].session.Committed?
  }

  lemma GaveUpStays(s: State, action: Action, r: nat)
    requires Enabled(s, action) && GaveUp(s, r)
    ensures GaveUp(Next(s, action), r)
  {
    match action
    case Start(_, _, _) => case LookUp(_) => case Acquire(_) => case Recheck(_) => case Generate(_, _, _) =>
    case GenerationFailed(_) => case Save(_) => case Commit(_) => case Respond(_) => case Fail(_) => case Abort(_) =>
  }

  /** A request whose generation failed never commits, in any run; nothing of it ever reaches the table. */
  lemma {:induction false} FailedNeverCommits(s: State, actions: seq<Action>, r: nat)
    requires GaveUp(s, r) && Runs(s, actions)
    ensures GaveUp(After(s, actions), r) && Commit(r) !in actions
    decreases |actions|
  {
    if actions == [] {
    } else {
      GaveUpStays(s, actions[0], r);
      FailedNeverCommits(Next(s, actions[0]), actions[1..], r);
      assert actions == [actions[0]] + actions[1..];
    }
  }

  /** The generator throws, or what it returns is refused. */
  predicate GenerationFails(s: State, r: nat, step: Action)
    requires r < |s.requests|
  {
    step == GenerationFailed(r) || (step.Generate? && step.r == r && Validate(step.raw, s.requests[r].input).Failure?)
  }

  /** A failed or invalid generation leaves the row alone, and its rollback frees the lock. */
  lemma FailureFreesTheLock(s: State, r: nat, step: Action)
    requires Reachable(s) && r < |s.requests| && s.requests[r].session.Holding?
    requires GenerationFails(s, r, step) && Enabled(s, step)
    ensures var t := Next(s, step);
      && GaveUp(t, r) && t.table == s.table && t.log == s.log
      && Enabled(t, Abort(r))
      && var u := Next(t, Abort(r));
      && u.table == s.table && u.log == s.log && LockOf(u, u.requests[r]) !in u.locks
  {
    ReachableInv(s);
    assert RequestInv(s, r);
  }
}
