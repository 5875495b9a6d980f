/** What an accepted insight says about the transactions of the two months. */
module InsightsClaims {
  import opened Wrappers
  import opened Documents
  import opened Aggregation
  import opened MonthlyAnalytics
  import opened InsightsInput
  import opened InsightsValidation
  import Sorting

  /** The input of a request whose two months hold these transactions. */
  function InputOf(year: int, month: int, current: seq<Transaction>, previous: seq<Transaction>): CompactInput {
    CreateCompactInput(BuildMonthlyAnalytics(year, month, Aggregated(current), Aggregated(previous)))
  }

  lemma InputParts(year: int, month: int, current: seq<Transaction>, previous: seq<Transaction>)
    ensures var input := InputOf(year, month, current, previous);
      && input.categories == ReportFor(current, previous, Category)
      && input.merchants == ReportFor(current, previous, Merchant)
      && (input.previous.Some? <==> previous != [])
  {
  }

  /** Spending under the name rose by at least 0.05 % of what it was, and it was something. */
  predicate ReallyRose(current: seq<Transaction>, previous: seq<Transaction>, key: Key, name: Text) {
    var now, before := Total(OnlyName(current, key, name)), Total(OnlyName(previous, key, name));
    && OnlyName(current, key, name) != [] && OnlyName(previous, key, name) != []
    && before != 0 && 2000 * (now - before) >= Abs(before)
  }

  lemma FoundIsExact(current: seq<Transaction>, previous: seq<Transaction>, key: Key, name: Text)
    ensures FindBucket(ReportFor(current, previous, key), name) ==
      if OnlyName(current, key, name) == [] then None else Some(ExpectedBucket(current, previous, key, name))
  {
    var r := ReportFor(current, previous, key);
    FindIsHas(r, name);
    FoundBears(r, name);
    ReportIsExact(current, previous, key);
    if OnlyName(current, key, name) != [] { ReportIsComplete(current, previous, key, name); }
  }

  lemma {:induction false} FoundBears(buckets: seq<ReportBucket>, name: Text)
    ensures FindBucket(buckets, name).Some? ==>
      exists i :: 0 <= i < |buckets| && buckets[i] == FindBucket(buckets, name).value && buckets[i].name == name
  {
    if buckets != [] && buckets[0].name != name {
      FoundBears(buckets[1..], name);
      if FindBucket(buckets, name).Some? {
        var i :| 0 <= i < |buckets[1..]| && buckets[1..][i] == FindBucket(buckets, name).value && buckets[1..][i].name == name;
        assert buckets[i + 1] == FindBucket(buckets, name).value;
      }
    }
  }

  lemma IncreaseIsExact(current: seq<Transaction>, previous: seq<Transaction>, key: Key, name: Text)
    ensures HasIncrease(ReportFor(current, previous, key), name) <==> ReallyRose(current, previous, key, name)
  {
    FoundIsExact(current, previous, key, name);
    PositiveChange(Total(OnlyName(current, key, name)), Total(OnlyName(previous, key, name)));
  }

  lemma PresenceIsExact(current: seq<Transaction>, previous: seq<Transaction>, key: Key, name: Text)
    ensures HasBucket(ReportFor(current, previous, key), name) <==> OnlyName(current, key, name) != []
  {
    FoundIsExact(current, previous, key, name);
    FindIsHas(ReportFor(current, previous, key), name);
  }

  /** The claim an insight makes, read off the transactions. */
  predicate TrueClaim(insight: Insight, current: seq<Transaction>, previous: seq<Transaction>) {
    match insight
    case CategoryIncrease(_, _, _, name) => ReallyRose(current, previous, Category, name)
    case MerchantIncrease(_, _, _, name) => ReallyRose(current, previous, Merchant, name)
    case NotableSpending(_, _, _, category, merchant) =>
      && (category.Some? ==> OnlyName(current, Category, category.value) != [])
      && (merchant.Some? ==> OnlyName(current, Merchant, merchant.value) != [])
  }

  /**
   For real transactions the validator accepts exactly the true claims: an increase that happened,
   or a name that occurs. The check that there is a previous month adds nothing.
   */
  lemma AcceptedExactlyIfTrue(
      year: int, month: int, current: seq<Transaction>, previous: seq<Transaction>, insight: Insight)
    ensures Acceptable(insight, InputOf(year, month, current, previous)) <==> TrueClaim(insight, current, previous)
  {
    InputParts(year, month, current, previous);
    match insight
    case CategoryIncrease(_, _, _, name) =>
      IncreaseIsExact(current, previous, Category, name);
      PresenceIsExact(current, previous, Category, name);
    case MerchantIncrease(_, _, _, name) =>
      IncreaseIsExact(current, previous, Merchant, name);
      PresenceIsExact(current, previous, Merchant, name);
    case NotableSpending(_, _, _, category, merchant) =>
      if category.Some? { PresenceIsExact(current, previous, Category, category.value); }
      if merchant.Some? { PresenceIsExact(current, previous, Merchant, merchant.value); }
  }

  /** Two requests over real transactions share a fingerprint exactly when their inputs agree up to order. */
  lemma RealInputsAreDecided(
      year: int, month: int, current: seq<Transaction>, previous: seq<Transaction>, other: CompactInput)
    ensures var input := InputOf(year, month, current, previous);
      FingerprintOf(input) == FingerprintOf(other) <==> SameUpToOrder(input, other)
  {
    var input := InputOf(year, month, current, previous);
    ReportNamesUnique(current, previous, Category);
    ReportNamesUnique(current, previous, Merchant);
    FingerprintDecides(input, other);
  }

  lemma ReportNamesUnique(current: seq<Transaction>, previous: seq<Transaction>, key: Key)
    ensures UniqueNames(ReportFor(current, previous, key))
  {
    var buckets := GroupBy(current, key);
    GroupByGroups(current, key);
    DistinctAfterSort(buckets);
    ReportAllKeeps(Sorting.Sort(buckets, BucketLess), Total(current), GroupBy(previous, key));
  }
}
