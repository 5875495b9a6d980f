/** The monthly aggregates: totals, GROUP BY category and merchant, and the safe-integer guard. */
module Aggregation {
  import opened Wrappers
  import opened Statements
  import opened Months

  datatype StoredStatement = StoredStatement(status: Status, lines: seq<Transaction>)

  datatype Bucket = Bucket(name: Text, amount: int, count: int)

  datatype Aggregate = Aggregate(totalAmount: int, transactionCount: int, categories: seq<Bucket>, merchants: seq<Bucket>)

  datatype AggregateError = OutsideSafeRange

  datatype Key = Category | Merchant

  const MAX_SAFE_INTEGER: int := 0x1F_FFFF_FFFF_FFFF

  function KeyOf(t: Transaction, key: Key): Text {
    match key
    case Category => t.category
    case Merchant => t.merchantName
  }

  // ---- the rows a report is computed from ----

  function LinesIn(lines: seq<Transaction>, r: Range): seq<Transaction> {
    if lines == [] then []
    else LinesIn(lines[..|lines| - 1], r) + if InRange(lines[|lines| - 1].date, r) then [lines[|lines| - 1]] else []
  }

  /** transactions JOIN statements, completed ones only, within the range. */
  function Source(statements: seq<StoredStatement>, r: Range): seq<Transaction> {
    if statements == [] then []
    else
      var last := statements[|statements| - 1];
      Source(statements[..|statements| - 1], r) + if last.status == Completed then LinesIn(last.lines, r) else []
  }

  function Total(txs: seq<Transaction>): int {
    if txs == [] then 0 else Total(txs[..|txs| - 1]) + txs[|txs| - 1].amount
  }

  // ---- GROUP BY ----

  predicate HasName(buckets: seq<Bucket>, name: Text) {
    exists i :: 0 <= i < |buckets| && buckets[i].name == name
  }

  function AddTo(buckets: seq<Bucket>, name: Text, amount: int): seq<Bucket> {
    if buckets == [] then [Bucket(name, amount, 1)]
    else if buckets[0].name == name then [Bucket(name, buckets[0].amount + amount, buckets[0].count + 1)] + buckets[1..]
    else [buckets[0]] + AddTo(buckets[1..], name, amount)
  }

  function GroupBy(txs: seq<Transaction>, key: Key): seq<Bucket> {
    if txs == [] then []
    else
      var last := txs[|txs| - 1];
      AddTo(GroupBy(txs[..|txs| - 1], key), KeyOf(last, key), last.amount)
  }

  function Guarded(value: int): Result<int, AggregateError> {
    if -MAX_SAFE_INTEGER <= value <= MAX_SAFE_INTEGER then Success(value) else Failure(OutsideSafeRange)
  }

  predicate Safe(buckets: seq<Bucket>) {
    forall i :: 0 <= i < |buckets| ==> Guarded(buckets[i].amount).Success? && Guarded(buckets[i].count).Success?
  }

  function Aggregated(txs: seq<Transaction>): Aggregate {
    Aggregate(Total(txs), |txs|, GroupBy(txs, Category), GroupBy(txs, Merchant))
  }

  function FindMonthlyAggregate(statements: seq<StoredStatement>, r: Range): Result<Aggregate, AggregateError> {
    var a := Aggregated(Source(statements, r));
    if Guarded(a.totalAmount).Success? && Guarded(a.transactionCount).Success? && Safe(a.categories) && Safe(a.merchants)
    then Success(a)
    else Failure(OutsideSafeRange)
  }

  // ---- conservation ----

  function Amounts(buckets: seq<Bucket>): int {
    if buckets == [] then 0 else buckets[0].amount + Amounts(buckets[1..])
  }

  function Counts(buckets: seq<Bucket>): int {
    if buckets == [] then 0 else buckets[0].count + Counts(buckets[1..])
  }

  predicate DistinctNames(buckets: seq<Bucket>) {
    forall i, j :: 0 <= i < j < |buckets| ==> buckets[i].name != buckets[j].name
  }

  function OnlyName(txs: seq<Transaction>, key: Key, name: Text): seq<Transaction> {
    if txs == [] then []
    else
      var last := txs[|txs| - 1];
      OnlyName(txs[..|txs| - 1], key, name) + if KeyOf(last, key) == name then [last] else []
  }

  lemma {:induction false} AddToConserves(buckets: seq<Bucket>, name: Text, amount: int)
    ensures var after := AddTo(buckets, name, amount);
      Amounts(after) == Amounts(buckets) + amount && Counts(after) == Counts(buckets) + 1
  {
    if buckets != [] && buckets[0].name != name { AddToConserves(buckets[1..], name, amount); }
  }

  /** AddTo changes the bucket of its name, or appends it; every other bucket stays in place. */
  lemma {:induction false} AddToPlaces(buckets: seq<Bucket>, name: Text, amount: int)
    requires DistinctNames(buckets)
    ensures var after := AddTo(buckets, name, amount);
      && |buckets| <= |after| <= |buckets| + 1
      && (forall i :: 0 <= i < |buckets| ==>
        && after[i].name == buckets[i].name
        && after[i] == if buckets[i].name == name then Bucket(name, buckets[i].amount + amount, buckets[i].count + 1) else buckets[i])
      && (|after| > |buckets| <==> !HasName(buckets, name))
      && (|after| > |buckets| ==> after[|buckets|] == Bucket(name, amount, 1))
  {
    if buckets != [] && buckets[0].name != name {
      TailHasName(buckets, name);
      AddToPlaces(buckets[1..], name, amount);
    }
  }

  lemma TailHasName(buckets: seq<Bucket>, name: Text)
    requires buckets != [] && buckets[0].name != name
    ensures HasName(buckets[1..], name) <==> HasName(buckets, name)
    ensures DistinctNames(buckets) ==> DistinctNames(buckets[1..])
  {
    assert forall i :: 0 <= i < |buckets[1..]| ==> buckets[1..][i] == buckets[i + 1];
    if HasName(buckets, name) {
      var i :| 0 <= i < |buckets| && buckets[i].name == name;
      assert buckets[1..][i - 1].name == name;
    }
  }

  /** The bucket holds the sum and the number of the rows of its name. */
  predicate HoldsSums(b: Bucket, txs: seq<Transaction>, key: Key) {
    b.amount == Total(OnlyName(txs, key, b.name)) && b.count == |OnlyName(txs, key, b.name)| > 0
  }

  /** One bucket per name, holding the sum and the number of exactly the rows of that name. */
  ghost predicate Groups(buckets: seq<Bucket>, txs: seq<Transaction>, key: Key) {
    && DistinctNames(buckets)
    && (forall i :: 0 <= i < |buckets| ==> HoldsSums(buckets[i], txs, key))
    && (forall name :: OnlyName(txs, key, name) != [] ==> HasName(buckets, name))
  }

  lemma {:induction false} GroupByGroups(txs: seq<Transaction>, key: Key)
    ensures Groups(GroupBy(txs, key), txs, key)
  {
    if txs == [] {
    } else {
      GroupByGroups(txs[..|txs| - 1], key);
      GroupLast(GroupBy(txs[..|txs| - 1], key), txs, key);
    }
  }

  lemma GroupLast(buckets: seq<Bucket>, txs: seq<Transaction>, key: Key)
    requires txs != [] && Groups(buckets, txs[..|txs| - 1], key)
    ensures Groups(AddTo(buckets, KeyOf(txs[|txs| - 1], key), txs[|txs| - 1].amount), txs, key)
  {
    assert txs == txs[..|txs| - 1] + [txs[|txs| - 1]];
    GroupStep(buckets, txs[..|txs| - 1], txs[|txs| - 1], key);
  }

  lemma OnlyNameStep(front: seq<Transaction>, last: Transaction, key: Key, name: Text)
    ensures OnlyName(front + [last], key, name) == OnlyName(front, key, name) + if KeyOf(last, key) == name then [last] else []
    ensures Total(OnlyName(front + [last], key, name))
         == Total(OnlyName(front, key, name)) + if KeyOf(last, key) == name then last.amount else 0
  {
    assert (front + [last])[..|front|] == front;
    var f := OnlyName(front, key, name);
    assert (f + [last])[..|f|] == f;
    assert f + [] == f;
  }

  lemma SumsStep(b: Bucket, front: seq<Transaction>, last: Transaction, key: Key)
    requires HoldsSums(b, front, key)
    ensures KeyOf(last, key) == b.name ==> HoldsSums(Bucket(b.name, b.amount + last.amount, b.count + 1), front + [last], key)
    ensures KeyOf(last, key) != b.name ==> HoldsSums(b, front + [last], key)
  {
    OnlyNameStep(front, last, key, b.name);
  }

  lemma NewSums(front: seq<Transaction>, last: Transaction, key: Key)
    requires OnlyName(front, key, KeyOf(last, key)) == []
    ensures HoldsSums(Bucket(KeyOf(last, key), last.amount, 1), front + [last], key)
  {
    OnlyNameStep(front, last, key, KeyOf(last, key));
  }

  lemma GroupStepSums(buckets: seq<Bucket>, front: seq<Transaction>, last: Transaction, key: Key, i: nat)
    requires Groups(buckets, front, key) && i < |AddTo(buckets, KeyOf(last, key), last.amount)|
    ensures HoldsSums(AddTo(buckets, KeyOf(last, key), last.amount)[i], front + [last], key)
  {
    AddToPlaces(buckets, KeyOf(last, key), last.amount);
    if i < |buckets| {
      assert HoldsSums(buckets[i], front, key);
      SumsStep(buckets[i], front, last, key);
    } else {
      assert OnlyName(front, key, KeyOf(last, key)) == [];
      NewSums(front, last, key);
    }
  }

  lemma GroupStepCovers(buckets: seq<Bucket>, front: seq<Transaction>, last: Transaction, key: Key, other: Text)
    requires Groups(buckets, front, key) && OnlyName(front + [last], key, other) != []
    ensures HasName(AddTo(buckets, KeyOf(last, key), last.amount), other)
  {
    var name := KeyOf(last, key);
    var after := AddTo(buckets, name, last.amount);
    AddToPlaces(buckets, name, last.amount);
    OnlyNameStep(front, last, key, other);
    if HasName(buckets, other) {
      var i :| 0 <= i < |buckets| && buckets[i].name == other;
      assert after[i].name == other;
    } else {
      assert other == name && after[|buckets|].name == other;
    }
  }

  lemma AddToKeepsDistinct(buckets: seq<Bucket>, name: Text, amount: int)
    requires DistinctNames(buckets)
    ensures DistinctNames(AddTo(buckets, name, amount))
  {
    AddToPlaces(buckets, name, amount);
  }

  lemma GroupStep(buckets: seq<Bucket>, front: seq<Transaction>, last: Transaction, key: Key)
    requires Groups(buckets, front, key)
    ensures Groups(AddTo(buckets, KeyOf(last, key), last.amount), front + [last], key)
  {
    var after := AddTo(buckets, KeyOf(last, key), last.amount);
    AddToKeepsDistinct(buckets, KeyOf(last, key), last.amount);
    forall i | 0 <= i < |after| ensures HoldsSums(after[i], front + [last], key) {
      GroupStepSums(buckets, front, last, key, i);
    }
    forall other | OnlyName(front + [last], key, other) != [] ensures HasName(after, other) {
      GroupStepCovers(buckets, front, last, key, other);
    }
  }

  /** Categories, merchants and the overview account for the same money and the same transactions. */
  lemma {:induction false} GroupByConserves(txs: seq<Transaction>, key: Key)
    ensures Amounts(GroupBy(txs, key)) == Total(txs) && Counts(GroupBy(txs, key)) == |txs|
  {
    if txs != [] {
      var front, last := txs[..|txs| - 1], txs[|txs| - 1];
      GroupByConserves(front, key);
      AddToConserves(GroupBy(front, key), KeyOf(last, key), last.amount);
    }
  }

  // ---- totals over consecutive months ----

  lemma {:induction false} TotalConcat(a: seq<Transaction>, b: seq<Transaction>)
    ensures Total(a + b) == Total(a) + Total(b)
  {
    if b == [] {
      assert a + b == a;
    } else {
      TotalConcat(a, b[..|b| - 1]);
      assert (a + b)[..|a + b| - 1] == a + b[..|b| - 1];
    }
  }

  lemma {:induction false} LinesSplit(lines: seq<Transaction>, r: Range, mid: Date)
    requires Before(r.start, mid) || r.start == mid
    requires Before(mid, r.end) || mid == r.end
    ensures Total(LinesIn(lines, r)) == Total(LinesIn(lines, Range(r.start, mid))) + Total(LinesIn(lines, Range(mid, r.end)))
    ensures |LinesIn(lines, r)| == |LinesIn(lines, Range(r.start, mid))| + |LinesIn(lines, Range(mid, r.end))|
  {
    if lines != [] {
      var front, last := lines[..|lines| - 1], lines[|lines| - 1];
      LinesSplit(front, r, mid);
      var tail := [last];
      assert Total([]) == 0 && Total(tail) == Total(tail[..0]) + last.amount;
      TotalConcat(LinesIn(front, r), if InRange(last.date, r) then tail else []);
      TotalConcat(LinesIn(front, Range(r.start, mid)), if InRange(last.date, Range(r.start, mid)) then tail else []);
      TotalConcat(LinesIn(front, Range(mid, r.end)), if InRange(last.date, Range(mid, r.end)) then tail else []);
    }
  }

  /** A range cut in two loses and repeats nothing. */
  lemma {:induction false} SourceSplit(statements: seq<StoredStatement>, r: Range, mid: Date)
    requires Before(r.start, mid) || r.start == mid
    requires Before(mid, r.end) || mid == r.end
    ensures Total(Source(statements, r)) == Total(Source(statements, Range(r.start, mid))) + Total(Source(statements, Range(mid, r.end)))
    ensures |Source(statements, r)| == |Source(statements, Range(r.start, mid))| + |Source(statements, Range(mid, r.end))|
  {
    if statements != [] {
      var front, last := statements[..|statements| - 1], statements[|statements| - 1];
      SourceSplit(front, r, mid);
      LinesSplit(last.lines, r, mid);
      var left, right := Range(r.start, mid), Range(mid, r.end);
      var done := last.status == Completed;
      TotalConcat(Source(front, r), if done then LinesIn(last.lines, r) else []);
      TotalConcat(Source(front, left), if done then LinesIn(last.lines, left) else []);
      TotalConcat(Source(front, right), if done then LinesIn(last.lines, right) else []);
    }
  }

  function MonthsTotal(statements: seq<StoredStatement>, year: int, month: int, n: nat): int {
    if n == 0 then 0
    else
      var last := ShiftMonth(year, month, n - 1);
      MonthsTotal(statements, year, month, n - 1) + Total(Source(statements, MonthRange(last.0, last.1)))
  }

  lemma {:induction false} EmptyRangeHasNothing(statements: seq<StoredStatement>, d: Date)
    ensures Source(statements, Range(d, d)) == []
  {
    if statements != [] {
      EmptyRangeHasNothing(statements[..|statements| - 1], d);
      EmptyRangeNoLines(statements[|statements| - 1].lines, d);
    }
  }

  lemma {:induction false} EmptyRangeNoLines(lines: seq<Transaction>, d: Date)
    ensures LinesIn(lines, Range(d, d)) == []
  {
    if lines != [] { EmptyRangeNoLines(lines[..|lines| - 1], d); }
  }

  /** The range of the n-th month after the given one lies between the n-th and the next shift. */
  lemma NthMonth(year: int, month: int, n: nat)
    requires year >= 1 && 1 <= month <= 12
    ensures var m := ShiftMonth(year, month, n);
      MonthRange(m.0, m.1) == Range(MonthStart(m), MonthStart(ShiftMonth(year, month, n + 1)))
  {
    ShiftsCompose(year, month, n, 1);
  }

  lemma SpanGrows(statements: seq<StoredStatement>, start: Date, mid: Date, end: Date)
    requires !Before(mid, start) && !Before(end, mid)
    ensures Total(Source(statements, Range(start, end)))
         == Total(Source(statements, Range(start, mid))) + Total(Source(statements, Range(mid, end)))
  {
    SourceSplit(statements, Range(start, end), mid);
  }

  /** The totals of any n consecutive months add up to the total over the whole span. */
  lemma {:induction false} MonthTotalsAddUp(statements: seq<StoredStatement>, year: int, month: int, n: nat)
    requires year >= 1 && 1 <= month <= 12
    ensures MonthsTotal(statements, year, month, n)
         == Total(Source(statements, Range(MonthStart(ShiftMonth(year, month, 0)), MonthStart(ShiftMonth(year, month, n)))))
  {
    if n == 0 {
      EmptyRangeHasNothing(statements, MonthStart(ShiftMonth(year, month, 0)));
    } else {
      MonthTotalsAddUp(statements, year, month, n - 1);
      NthMonth(year, month, n - 1);
      ShiftsAscend(year, month, 0, n - 1);
      ShiftsAscend(year, month, n - 1, n);
      SpanGrows(statements, MonthStart(ShiftMonth(year, month, 0)), MonthStart(ShiftMonth(year, month, n - 1)),
                MonthStart(ShiftMonth(year, month, n)));
    }
  }

  // ---- the safe-integer guard ----

  const MAX_STATEMENTS: nat := 900_719

  predicate Small(txs: seq<Transaction>) {
    forall i :: 0 <= i < |txs| ==> -MAX_AMOUNT <= txs[i].amount <= MAX_AMOUNT
  }

  /** What the OCR schema lets into a statement. */
  predicate WithinOcrBounds(statement: StoredStatement) {
    |statement.lines| <= MAX_LINES && Small(statement.lines)
  }

  predicate AllWithinOcrBounds(statements: seq<StoredStatement>) {
    forall i :: 0 <= i < |statements| ==> WithinOcrBounds(statements[i])
  }

  function CompletedCount(statements: seq<StoredStatement>): nat {
    if statements == [] then 0
    else CompletedCount(statements[..|statements| - 1]) + if statements[|statements| - 1].status == Completed then 1 else 0
  }

  lemma {:induction false} TotalBound(txs: seq<Transaction>)
    requires Small(txs)
    ensures -MAX_AMOUNT * |txs| <= Total(txs) <= MAX_AMOUNT * |txs|
  {
    if txs != [] { TotalBound(txs[..|txs| - 1]); }
  }

  lemma {:induction false} LinesBound(lines: seq<Transaction>, r: Range)
    requires Small(lines)
    ensures Small(LinesIn(lines, r)) && |LinesIn(lines, r)| <= |lines|
  {
    if lines != [] { LinesBound(lines[..|lines| - 1], r); }
  }

  lemma {:induction false} SourceBound(statements: seq<StoredStatement>, r: Range)
    requires AllWithinOcrBounds(statements)
    ensures Small(Source(statements, r)) && |Source(statements, r)| <= MAX_LINES * CompletedCount(statements)
  {
    if statements != [] {
      SourceBound(statements[..|statements| - 1], r);
      assert WithinOcrBounds(statements[|statements| - 1]);
      LinesBound(statements[|statements| - 1].lines, r);
    }
  }

  lemma {:induction false} OnlyNameBound(txs: seq<Transaction>, key: Key, name: Text)
    requires Small(txs)
    ensures Small(OnlyName(txs, key, name)) && |OnlyName(txs, key, name)| <= |txs|
  {
    if txs != [] { OnlyNameBound(txs[..|txs| - 1], key, name); }
  }

  lemma BucketsSafe(txs: seq<Transaction>, key: Key)
    requires Small(txs) && MAX_AMOUNT * |txs| <= MAX_SAFE_INTEGER
    ensures Safe(GroupBy(txs, key))
  {
    var buckets := GroupBy(txs, key);
    GroupByGroups(txs, key);
    forall i | 0 <= i < |buckets| ensures Guarded(buckets[i].amount).Success? && Guarded(buckets[i].count).Success? {
      assert HoldsSums(buckets[i], txs, key);
      OnlyNameBound(txs, key, buckets[i].name);
      TotalBound(OnlyName(txs, key, buckets[i].name));
    }
  }

  /** With at most 900,719 completed statements no aggregate leaves the safe-integer range. */
  lemma AggregatesStaySafe(statements: seq<StoredStatement>, r: Range)
    requires AllWithinOcrBounds(statements)
    requires CompletedCount(statements) <= MAX_STATEMENTS
    ensures FindMonthlyAggregate(statements, r) == Success(Aggregated(Source(statements, r)))
  {
    SourceBound(statements, r);
    var txs := Source(statements, r);
    TotalBound(txs);
    BucketsSafe(txs, Category);
    BucketsSafe(txs, Merchant);
  }

  /** n completed statements with these lines. */
  function Copies(n: nat, lines: seq<Transaction>): seq<StoredStatement> {
    seq(n, (i: nat) => StoredStatement(Completed, lines))
  }

  /** As many lines as a statement may have, each with the largest amount and within the range. */
  predicate Full(lines: seq<Transaction>, r: Range) {
    |lines| == MAX_LINES && forall i :: 0 <= i < |lines| ==> lines[i].amount == MAX_AMOUNT && InRange(lines[i].date, r)
  }

  lemma {:induction false} FullLinesTotal(lines: seq<Transaction>, r: Range)
    requires forall i :: 0 <= i < |lines| ==> lines[i].amount == MAX_AMOUNT && InRange(lines[i].date, r)
    ensures LinesIn(lines, r) == lines && Total(lines) == MAX_AMOUNT * |lines|
  {
    if lines != [] {
      FullLinesTotal(lines[..|lines| - 1], r);
      assert lines == lines[..|lines| - 1] + [lines[|lines| - 1]];
    }
  }

  lemma {:induction false} CopiesTotal(n: nat, lines: seq<Transaction>, r: Range)
    requires Full(lines, r)
    ensures Total(Source(Copies(n, lines), r)) == n * MAX_LINES * MAX_AMOUNT
    ensures CompletedCount(Copies(n, lines)) == n
  {
    if n > 0 {
      var all, front := Copies(n, lines), Copies(n - 1, lines);
      CopiesTotal(n - 1, lines, r);
      assert all[..|all| - 1] == front;
      FullLinesTotal(lines, r);
      TotalConcat(Source(front, r), lines);
    }
  }

  /** The bound is sharp: beyond it, any full statements within the same limits make the report throw. */
  lemma OneMoreStatementOverflows(n: nat, lines: seq<Transaction>, r: Range)
    requires Full(lines, r) && n > MAX_STATEMENTS
    ensures CompletedCount(Copies(n, lines)) == n && AllWithinOcrBounds(Copies(n, lines))
    ensures FindMonthlyAggregate(Copies(n, lines), r) == Failure(OutsideSafeRange)
  {
    CopiesTotal(n, lines, r);
  }
}
