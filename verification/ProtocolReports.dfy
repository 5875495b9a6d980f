/** From the OCR schemas over every run of the protocol to the monthly aggregates. */
module ProtocolReports {
  import opened Wrappers
  import opened Documents
  import opened Statements
  import opened Months
  import opened Aggregation
  import OcrSchema
  import opened Protocol
  import opened ProtocolInvariant
  import opened ProtocolSafety
  import opened ProtocolQueue

  /** What the schemas accept is what a handler may go on to save. */
  lemma AcceptedMayBeSaved(x: Attempt, input: Json)
    requires x.pc == Analyzing
    ensures OcrSchema.ParseOcrToolInput(input).Success? ==>
      && OcrSchema.AllSound(OcrSchema.ParseOcrToolInput(input).value)
      && HandlerEnabled(x, Analyzed(OcrSchema.ToTransactions(OcrSchema.ParseOcrToolInput(input).value)))
  {
    OcrSchema.AcceptedFitsTheTables(input);
  }

  // ---- every attempt's lines come from an analysis ----

  ghost predicate AllAnalyzed(s: State) {
    forall a :: 0 <= a < |s.attempts| ==> Analyzable(s.attempts[a].lines)
  }

  lemma StepAnalyzed(s: State, action: Action)
    requires AllAnalyzed(s) && Enabled(s, action)
    ensures AllAnalyzed(Next(s, action))
  {
    match action
    case OnServer(a, e) => if !e.LandDelete? { ServerAttempts(s, a, e); }
    case OnHandler(_, _) =>
    case OnQueue(_, _) =>
    case OnRow(_, _) =>
    case OnRequest(_, _) =>
    case Tick(_) =>
    case StraySend(_) =>
  }

  lemma {:induction false} RunAnalyzed(s: State, actions: seq<Action>)
    requires AllAnalyzed(s) && Runs(s, actions)
    ensures AllAnalyzed(After(s, actions))
    decreases |actions|
  {
    if actions == [] {
    } else {
      StepAnalyzed(s, actions[0]);
      RunAnalyzed(Next(s, actions[0]), actions[1..]);
    }
  }

  // ---- the statements as the aggregates see them ----

  /** The lines numbered 1 to n, in their order. */
  function Listed(lines: Lines, n: nat): seq<Transaction> {
    if n == 0 then [] else Listed(lines, n - 1) + if n in lines then [lines[n]] else []
  }

  function Stored(s: State, ids: seq<StatementId>): seq<StoredStatement>
    requires forall i :: 0 <= i < |ids| ==> ids[i] in s.rows
  {
    seq(|ids|, (i: nat) requires i < |ids| => StoredStatement(s.rows[ids[i]].status, Listed(LinesOf(s.table, ids[i]), MAX_LINES)))
  }

  lemma {:induction false} ListedHolds(lines: Lines, n: nat)
    ensures |Listed(lines, n)| <= n
    ensures forall k :: 1 <= k <= n && k in lines ==> lines[k] in Listed(lines, n)
    ensures (forall k :: k in lines ==> -MAX_AMOUNT <= lines[k].amount <= MAX_AMOUNT) ==> Small(Listed(lines, n))
  {
    if n > 0 { ListedHolds(lines, n - 1); }
  }

  lemma {:induction false} UpsertedAreAnalyzed(txs: seq<Transaction>, k: nat)
    requires k in UpsertAll(map[], txs)
    ensures UpsertAll(map[], txs)[k] in txs && UpsertAll(map[], txs)[k].line == k
  {
    if txs[|txs| - 1].line != k { UpsertedAreAnalyzed(txs[..|txs| - 1], k); }
  }

  /** Every stored line is one of 1 to 100, within the amounts an analysis may contain, and listed. */
  lemma StoredLinesAreBounded(s: State, id: StatementId)
    requires Reachable(s) && id in s.rows
    ensures forall k :: k in LinesOf(s.table, id) ==>
      1 <= k <= MAX_LINES && LinesOf(s.table, id)[k] in Listed(LinesOf(s.table, id), MAX_LINES)
    ensures WithinOcrBounds(StoredStatement(s.rows[id].status, Listed(LinesOf(s.table, id), MAX_LINES)))
  {
    ReachableInv(s);
    var init, actions :| Init(init) && Runs(init, actions) && After(init, actions) == s;
    RunAnalyzed(init, actions);
    var lines := LinesOf(s.table, id);
    LinesComeFrom(s, id);
    ListedHolds(lines, MAX_LINES);
  }

  lemma LinesComeFrom(s: State, id: StatementId)
    requires Inv(s) && AllAnalyzed(s) && id in s.rows
    ensures forall k :: k in LinesOf(s.table, id) ==>
      1 <= k <= MAX_LINES && -MAX_AMOUNT <= LinesOf(s.table, id)[k].amount <= MAX_AMOUNT
  {
    assert RowInv(s, id);
    if s.rows[id].status == Completed {
      var txs := s.attempts[s.closer[id]].lines;
      forall k | k in LinesOf(s.table, id)
        ensures 1 <= k <= MAX_LINES && -MAX_AMOUNT <= LinesOf(s.table, id)[k].amount <= MAX_AMOUNT
      {
        UpsertedAreAnalyzed(txs, k);
      }
    }
  }

  /** Whatever the system has been through, with at most 900,719 completed statements no report throws. */
  lemma ReportsNeverThrow(s: State, ids: seq<StatementId>, r: Range)
    requires Reachable(s) && forall i :: 0 <= i < |ids| ==> ids[i] in s.rows
    requires CompletedCount(Stored(s, ids)) <= MAX_STATEMENTS
    ensures FindMonthlyAggregate(Stored(s, ids), r) == Success(Aggregated(Source(Stored(s, ids), r)))
  {
    forall i | 0 <= i < |ids| ensures WithinOcrBounds(Stored(s, ids)[i]) { StoredLinesAreBounded(s, ids[i]); }
    AggregatesStaySafe(Stored(s, ids), r);
  }
}
