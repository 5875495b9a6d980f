/**
 The monthly report: percentages rounded to one decimal, month-over-month changes, and buckets in
 order of amount. Percentages are integers counting tenths of a percent; quotients are exact.
 */
module MonthlyAnalytics {
  import opened Wrappers
  import opened Sorting
  import opened Aggregation

  type Tenths = int

  datatype ReportBucket = ReportBucket(
    name: Text,
    amount: int,
    count: int,
    percentage: Option<Tenths>,
    previousAmount: Option<int>,
    amountChange: Option<Tenths>)

  datatype PreviousMonth = PreviousMonth(
    totalAmount: int,
    transactionCount: int,
    amountChange: Option<Tenths>,
    countChange: Option<Tenths>)

  datatype Report = Report(
    year: int,
    month: int,
    totalAmount: int,
    transactionCount: int,
    previousMonth: Option<PreviousMonth>,
    categories: seq<ReportBucket>,
    merchants: seq<ReportBucket>)

  // ---- rounding ----

  function Abs(x: int): nat {
    if x < 0 then -x else x
  }

  /** num / den to the nearest integer, ties away from zero: Number.prototype.toFixed on an exact quotient. */
  function Nearest(num: int, den: int): int
    requires den != 0
  {
    var magnitude := (2 * Abs(num) + Abs(den)) / (2 * Abs(den));
    if (num < 0) == (den < 0) then magnitude else -magnitude
  }

  /** How far k is from num / den, measured in |den|-ths. */
  function Off(k: int, num: int, den: int): nat {
    Abs(k * den - num)
  }

  lemma QuotientIs(x: nat, y: nat, q: nat)
    requires y > 0
    ensures q == x / y <==> q * y <= x < (q + 1) * y
  {
    var e := x / y;
    if q < e { assert (q + 1) * y <= e * y; }
    if q > e { assert (e + 1) * y <= q * y; }
  }

  lemma HalfAway(n: nat, d: nat, q: nat)
    requires q * (2 * d) <= 2 * n + d < (q + 1) * (2 * d)
    ensures 2 * Abs(q * d - n) <= d
  {
    assert q * (2 * d) == 2 * (q * d);
    assert (q + 1) * (2 * d) == 2 * (q * d) + 2 * d;
  }

  lemma NearestMagnitude(num: int, den: int) returns (q: nat)
    requires den != 0
    ensures Nearest(num, den) == if (num < 0) == (den < 0) then q else 0 - q as int
    ensures q * (2 * Abs(den)) <= 2 * Abs(num) + Abs(den) < (q + 1) * (2 * Abs(den))
  {
    q := (2 * Abs(num) + Abs(den)) / (2 * Abs(den));
    QuotientIs(2 * Abs(num) + Abs(den), 2 * Abs(den), q);
  }

  lemma OffOf(k: int, q: int, num: int, den: int)
    requires k == if (num < 0) == (den < 0) then q else -q
    ensures Off(k, num, den) == Abs(q * Abs(den) - Abs(num))
  {
    assert q * (-den) == -(q * den);
    assert (-q) * den == -(q * den);
  }

  /** The rounded value is within half a unit. */
  lemma NearestIsClose(num: int, den: int)
    requires den != 0
    ensures 2 * Off(Nearest(num, den), num, den) <= Abs(den)
  {
    var q := NearestMagnitude(num, den);
    HalfAway(Abs(num), Abs(den), q);
    OffOf(Nearest(num, den), q, num, den);
  }

  /**
   Exactly the integer toFixed picks: of n / d not negative, the q with q - 1/2 <= n / d < q + 1/2, so
   ties go up; and the sign is put back afterwards.
   */
  lemma NearestIsToFixed(n: nat, d: nat, q: nat)
    requires d > 0
    ensures q == Nearest(n, d) <==> 2 * q * d <= 2 * n + d < 2 * (q + 1) * d
    ensures Nearest(0 - n as int, d) == 0 - Nearest(n, d) == Nearest(n, 0 - d as int)
  {
    QuotientIs(2 * n + d, 2 * d, q);
  }

  function Percentage(amount: int, total: int): Option<Tenths> {
    if total == 0 then None else Some(Nearest(1000 * amount, total))
  }

  function ChangePercentage(current: int, previous: int): Option<Tenths> {
    if previous == 0 then None else Some(Nearest(1000 * (current - previous), Abs(previous)))
  }

  /** A change rounds to more than 0.0 % exactly when it is at least 0.05 % of the previous magnitude. */
  lemma PositiveChange(current: int, previous: int)
    ensures ChangePercentage(current, previous).Some? && ChangePercentage(current, previous).value > 0
      <==> previous != 0 && 2000 * (current - previous) >= Abs(previous)
  {
    if previous != 0 {
      var n, d := 1000 * (current - previous), Abs(previous);
      if n >= 0 {
        NearestIsToFixed(n, d, 0);
      } else {
        NearestIsToFixed(-n, d, 0);
      }
    }
  }

  // ---- the report ----

  predicate BucketLess(left: Bucket, right: Bucket) {
    left.amount > right.amount || (left.amount == right.amount && TextLess(left.name, right.name))
  }

  lemma BucketOrder()
    ensures Orders(BucketLess)
  {
    forall x: Bucket ensures !BucketLess(x, x) { TextLessIrreflexive(x.name); }
    forall x: Bucket, y: Bucket, z: Bucket | BucketLess(x, y) && BucketLess(y, z) ensures BucketLess(x, z) {
      if x.amount == z.amount { TextLessTransitive(x.name, y.name, z.name); }
    }
    forall x: Bucket, y: Bucket, z: Bucket | BucketLess(x, y) ensures BucketLess(x, z) || BucketLess(z, y) {
      TextLessTotal(x.name, z.name);
      if TextLess(z.name, x.name) && TextLess(x.name, y.name) { TextLessTransitive(z.name, x.name, y.name); }
    }
  }

  /** new Map(buckets.map(...)).get(name): the last bucket of that name. */
  function Lookup(buckets: seq<Bucket>, name: Text): Option<Bucket> {
    if buckets == [] then None
    else if buckets[|buckets| - 1].name == name then Some(buckets[|buckets| - 1])
    else Lookup(buckets[..|buckets| - 1], name)
  }

  function ReportOf(bucket: Bucket, total: int, previous: seq<Bucket>): ReportBucket {
    var p := Lookup(previous, bucket.name);
    ReportBucket(
      bucket.name,
      bucket.amount,
      bucket.count,
      Percentage(bucket.amount, total),
      if p.Some? then Some(p.value.amount) else None,
      if p.Some? then ChangePercentage(bucket.amount, p.value.amount) else None)
  }

  function ReportAll(buckets: seq<Bucket>, total: int, previous: seq<Bucket>): seq<ReportBucket> {
    if buckets == [] then []
    else [ReportOf(buckets[0], total, previous)] + ReportAll(buckets[1..], total, previous)
  }

  function ReportBuckets(current: seq<Bucket>, total: int, previous: seq<Bucket>): seq<ReportBucket> {
    ReportAll(Sort(current, BucketLess), total, previous)
  }

  function BuildMonthlyAnalytics(year: int, month: int, current: Aggregate, previous: Aggregate): Report {
    Report(
      year,
      month,
      current.totalAmount,
      current.transactionCount,
      if previous.transactionCount == 0 then None
      else Some(PreviousMonth(
        previous.totalAmount,
        previous.transactionCount,
        ChangePercentage(current.totalAmount, previous.totalAmount),
        ChangePercentage(current.transactionCount, previous.transactionCount))),
      ReportBuckets(current.categories, current.totalAmount, previous.categories),
      ReportBuckets(current.merchants, current.totalAmount, previous.merchants))
  }

  // ---- what the report keeps ----

  function ReportedAmounts(buckets: seq<ReportBucket>): int {
    if buckets == [] then 0 else buckets[0].amount + ReportedAmounts(buckets[1..])
  }

  function ReportedCounts(buckets: seq<ReportBucket>): int {
    if buckets == [] then 0 else buckets[0].count + ReportedCounts(buckets[1..])
  }

  function PercentageSum(buckets: seq<ReportBucket>): Tenths {
    if buckets == [] then 0
    else (if buckets[0].percentage.Some? then buckets[0].percentage.value else 0) + PercentageSum(buckets[1..])
  }

  lemma {:induction false} ReportAllKeeps(buckets: seq<Bucket>, total: int, previous: seq<Bucket>)
    ensures var r := ReportAll(buckets, total, previous);
      && |r| == |buckets|
      && (forall i :: 0 <= i < |r| ==> r[i] == ReportOf(buckets[i], total, previous))
      && ReportedAmounts(r) == Amounts(buckets) && ReportedCounts(r) == Counts(buckets)
  {
    if buckets != [] { ReportAllKeeps(buckets[1..], total, previous); }
  }

  lemma {:induction false} InsertSums(x: Bucket, sorted: seq<Bucket>)
    ensures Amounts(Insert(x, sorted, BucketLess)) == x.amount + Amounts(sorted)
    ensures Counts(Insert(x, sorted, BucketLess)) == x.count + Counts(sorted)
  {
    if sorted != [] && BucketLess(sorted[0], x) { InsertSums(x, sorted[1..]); }
  }

  lemma {:induction false} SortSums(buckets: seq<Bucket>)
    ensures Amounts(Sort(buckets, BucketLess)) == Amounts(buckets) && Counts(Sort(buckets, BucketLess)) == Counts(buckets)
  {
    if buckets != [] {
      SortSums(buckets[1..]);
      InsertSums(buckets[0], Sort(buckets[1..], BucketLess));
    }
  }

  lemma AddErrors(head: int, sum: int, total: int, a: int, b: int, k: nat)
    requires 2 * Abs(head * total - a) <= Abs(total)
    requires 2 * Abs(sum * total - b) <= k * Abs(total)
    ensures 2 * Abs((head + sum) * total - (a + b)) <= (k + 1) * Abs(total)
  {
    assert (head + sum) * total == head * total + sum * total;
    assert (k + 1) * Abs(total) == k * Abs(total) + Abs(total);
  }

  /** Every sum is within half a unit per bucket of the exact share. */
  lemma {:induction false} PercentageSumBound(buckets: seq<Bucket>, total: int, previous: seq<Bucket>)
    requires total != 0
    ensures 2 * Abs(PercentageSum(ReportAll(buckets, total, previous)) * total - 1000 * Amounts(buckets)) <= |buckets| * Abs(total)
  {
    if buckets != [] {
      var head, sum := Nearest(1000 * buckets[0].amount, total), PercentageSum(ReportAll(buckets[1..], total, previous));
      PercentageSumBound(buckets[1..], total, previous);
      NearestIsClose(1000 * buckets[0].amount, total);
      AddErrors(head, sum, total, 1000 * buckets[0].amount, 1000 * Amounts(buckets[1..]), |buckets[1..]|);
    }
  }

  lemma ScaleUp(x: nat, y: nat, d: nat)
    requires x > y && d > 0
    ensures x * d > y * d
  {
  }

  lemma CancelTotal(sum: int, total: int, k: nat)
    requires total != 0 && 2 * Abs(sum * total - 1000 * total) <= k * Abs(total)
    ensures 2 * Abs(sum - 1000) <= k
  {
    assert sum * total - 1000 * total == (sum - 1000) * total;
    var e, d := Abs(sum - 1000), Abs(total);
    assert Abs((sum - 1000) * total) == e * d;
    if 2 * e > k { ScaleUp(2 * e, k, d); }
  }

  /** With a nonzero net total, refunds allowed, k rounded percentages sum to within 0.05 k of 100. */
  lemma PercentagesNearlySumTo100(current: seq<Bucket>, total: int, previous: seq<Bucket>)
    requires total != 0 && Amounts(current) == total
    ensures 2 * Abs(PercentageSum(ReportBuckets(current, total, previous)) - 1000) <= |current|
  {
    var sorted := Sort(current, BucketLess);
    SortSums(current);
    SortPermutes(current, BucketLess);
    PercentageSumBound(sorted, total, previous);
    CancelTotal(PercentageSum(ReportAll(sorted, total, previous)), total, |current|);
  }

  // ---- the report of real transactions ----

  lemma {:induction false} LookupFinds(buckets: seq<Bucket>, name: Text)
    requires DistinctNames(buckets)
    ensures Lookup(buckets, name).Some? <==> HasName(buckets, name)
    ensures forall i :: 0 <= i < |buckets| && buckets[i].name == name ==> Lookup(buckets, name) == Some(buckets[i])
  {
    if buckets != [] {
      var front := buckets[..|buckets| - 1];
      LookupFinds(front, name);
      assert HasName(front, name) ==> HasName(buckets, name);
      if HasName(buckets, name) && buckets[|buckets| - 1].name != name {
        var i :| 0 <= i < |buckets| && buckets[i].name == name;
        assert front[i].name == name;
      }
      forall i | 0 <= i < |buckets| && buckets[i].name == name ensures Lookup(buckets, name) == Some(buckets[i]) {
        if i < |front| { assert front[i] == buckets[i]; }
      }
    }
  }

  /** What a grouped month says of a name: nothing if no transaction bears it, else their sum and number. */
  lemma LookupIsSum(txs: seq<Transaction>, key: Key, name: Text)
    ensures Lookup(GroupBy(txs, key), name) ==
      if OnlyName(txs, key, name) == [] then None
      else Some(Bucket(name, Total(OnlyName(txs, key, name)), |OnlyName(txs, key, name)|))
  {
    var buckets := GroupBy(txs, key);
    GroupByGroups(txs, key);
    LookupFinds(buckets, name);
    if HasName(buckets, name) {
      var i :| 0 <= i < |buckets| && buckets[i].name == name;
      assert HoldsSums(buckets[i], txs, key);
    }
  }

  /** The line of the report for a name, computed straight from the transactions of both months. */
  function ExpectedBucket(current: seq<Transaction>, previous: seq<Transaction>, key: Key, name: Text): ReportBucket {
    var now, before := OnlyName(current, key, name), OnlyName(previous, key, name);
    ReportBucket(
      name,
      Total(now),
      |now|,
      Percentage(Total(now), Total(current)),
      if before == [] then None else Some(Total(before)),
      if before == [] then None else ChangePercentage(Total(now), Total(before)))
  }

  function ReportFor(current: seq<Transaction>, previous: seq<Transaction>, key: Key): seq<ReportBucket> {
    ReportBuckets(GroupBy(current, key), Total(current), GroupBy(previous, key))
  }

  lemma SortedFrom(buckets: seq<Bucket>, i: nat) returns (j: nat)
    requires i < |Sort(buckets, BucketLess)|
    ensures j < |buckets| && buckets[j] == Sort(buckets, BucketLess)[i]
  {
    SortPermutes(buckets, BucketLess);
    assert Sort(buckets, BucketLess)[i] in multiset(buckets);
    j :| 0 <= j < |buckets| && buckets[j] == Sort(buckets, BucketLess)[i];
  }

  lemma SortedTo(buckets: seq<Bucket>, j: nat) returns (i: nat)
    requires j < |buckets|
    ensures i < |Sort(buckets, BucketLess)| && Sort(buckets, BucketLess)[i] == buckets[j]
  {
    SortPermutes(buckets, BucketLess);
    assert buckets[j] in multiset(Sort(buckets, BucketLess));
    i :| 0 <= i < |Sort(buckets, BucketLess)| && Sort(buckets, BucketLess)[i] == buckets[j];
  }

  lemma ReportLineIsExact(current: seq<Transaction>, previous: seq<Transaction>, key: Key, i: nat)
    requires i < |ReportFor(current, previous, key)|
    ensures var line := ReportFor(current, previous, key)[i];
      line == ExpectedBucket(current, previous, key, line.name) && line.count > 0
  {
    var buckets := GroupBy(current, key);
    ReportAllKeeps(Sort(buckets, BucketLess), Total(current), GroupBy(previous, key));
    var j := SortedFrom(buckets, i);
    GroupByGroups(current, key);
    assert HoldsSums(buckets[j], current, key);
    LookupIsSum(previous, key, buckets[j].name);
  }

  /** Every line of the report is what the transactions say, and the lines account for the whole month. */
  lemma ReportIsExact(current: seq<Transaction>, previous: seq<Transaction>, key: Key)
    ensures var r := ReportFor(current, previous, key);
      && (forall i :: 0 <= i < |r| ==> r[i] == ExpectedBucket(current, previous, key, r[i].name) && r[i].count > 0)
      && ReportedAmounts(r) == Total(current)
      && ReportedCounts(r) == |current|
      && (Total(current) != 0 ==> 2 * Abs(PercentageSum(r) - 1000) <= |r|)
  {
    var buckets, r := GroupBy(current, key), ReportFor(current, previous, key);
    forall i | 0 <= i < |r| ensures r[i] == ExpectedBucket(current, previous, key, r[i].name) && r[i].count > 0 {
      ReportLineIsExact(current, previous, key, i);
    }
    ReportSums(current, previous, key);
  }

  lemma ReportSums(current: seq<Transaction>, previous: seq<Transaction>, key: Key)
    ensures var r := ReportFor(current, previous, key);
      && ReportedAmounts(r) == Total(current) && ReportedCounts(r) == |current|
      && (Total(current) != 0 ==> 2 * Abs(PercentageSum(r) - 1000) <= |r|)
  {
    var buckets := GroupBy(current, key);
    GroupByConserves(current, key);
    SortSums(buckets);
    SortPermutes(buckets, BucketLess);
    ReportAllKeeps(Sort(buckets, BucketLess), Total(current), GroupBy(previous, key));
    if Total(current) != 0 { PercentagesNearlySumTo100(buckets, Total(current), GroupBy(previous, key)); }
  }

  /** Largest amount first, ties by name, every name once. */
  lemma ReportIsOrdered(current: seq<Transaction>, previous: seq<Transaction>, key: Key, i: nat, j: nat)
    requires i < j < |ReportFor(current, previous, key)|
    ensures var r := ReportFor(current, previous, key);
      r[i].amount > r[j].amount || (r[i].amount == r[j].amount && TextLess(r[i].name, r[j].name))
  {
    var buckets := GroupBy(current, key);
    var sorted := Sort(buckets, BucketLess);
    ReportAllKeeps(sorted, Total(current), GroupBy(previous, key));
    GroupByGroups(current, key);
    DistinctAfterSort(buckets);
    BucketOrder();
    SortAscends(buckets, BucketLess);
    assert !BucketLess(sorted[j], sorted[i]);
    TextLessTotal(sorted[i].name, sorted[j].name);
  }

  /** Every name that occurs in the month is reported. */
  lemma ReportIsComplete(current: seq<Transaction>, previous: seq<Transaction>, key: Key, name: Text)
    requires OnlyName(current, key, name) != []
    ensures exists i :: 0 <= i < |ReportFor(current, previous, key)| && ReportFor(current, previous, key)[i].name == name
  {
    var buckets := GroupBy(current, key);
    GroupByGroups(current, key);
    var j :| 0 <= j < |buckets| && buckets[j].name == name;
    var i := SortedTo(buckets, j);
    ReportAllKeeps(Sort(buckets, BucketLess), Total(current), GroupBy(previous, key));
    assert ReportFor(current, previous, key)[i].name == name;
  }

  lemma {:induction false} InsertNames(x: Bucket, sorted: seq<Bucket>)
    requires DistinctNames(sorted) && !HasName(sorted, x.name)
    ensures DistinctNames(Insert(x, sorted, BucketLess))
  {
    if sorted != [] && BucketLess(sorted[0], x) {
      var rest := Insert(x, sorted[1..], BucketLess);
      assert forall i :: 0 <= i < |sorted[1..]| ==> sorted[1..][i] == sorted[i + 1];
      InsertNames(x, sorted[1..]);
      InsertPermutes(x, sorted[1..], BucketLess);
      forall y | y in rest ensures y.name != sorted[0].name {
        assert y in multiset(rest);
        if y != x { assert y in sorted[1..]; }
      }
    }
  }

  lemma {:induction false} DistinctAfterSort(buckets: seq<Bucket>)
    requires DistinctNames(buckets)
    ensures DistinctNames(Sort(buckets, BucketLess))
  {
    if buckets != [] {
      var rest := Sort(buckets[1..], BucketLess);
      DistinctAfterSort(buckets[1..]);
      SortPermutes(buckets[1..], BucketLess);
      forall b | b in rest ensures b.name != buckets[0].name { assert b in multiset(buckets[1..]); }
      InsertNames(buckets[0], rest);
    }
  }
}
