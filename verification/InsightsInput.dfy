/** The compact input of an insights request, its canonical form and its fingerprint. */
module InsightsInput {
  import opened Wrappers
  import opened Sorting
  import opened MonthlyAnalytics

  datatype Totals = Totals(totalAmount: int, transactionCount: int)

  /** month stands for the text YYYY-MM, which determines it and is determined by it. */
  datatype CompactInput = CompactInput(
    month: (int, int),
    current: Totals,
    categories: seq<ReportBucket>,
    merchants: seq<ReportBucket>,
    previous: Option<Totals>)

  /** "monthly-analytics-v1:" and the SHA-256 of the canonical JSON, taken as injective. */
  datatype Fingerprint = Fingerprint(document: CompactInput)

  function CreateCompactInput(report: Report): CompactInput {
    CompactInput(
      (report.year, report.month),
      Totals(report.totalAmount, report.transactionCount),
      report.categories,
      report.merchants,
      if report.previousMonth.None? then None
      else Some(Totals(report.previousMonth.value.totalAmount, report.previousMonth.value.transactionCount)))
  }

  predicate NameLess(left: ReportBucket, right: ReportBucket) {
    TextLess(left.name, right.name)
  }

  function Canonical(input: CompactInput): CompactInput {
    input.(categories := Sort(input.categories, NameLess), merchants := Sort(input.merchants, NameLess))
  }

  function FingerprintOf(input: CompactInput): Fingerprint {
    Fingerprint(Canonical(input))
  }

  // ---- the canonical form decides equality up to order ----

  predicate UniqueNames(buckets: seq<ReportBucket>) {
    forall i, j :: 0 <= i < j < |buckets| ==> buckets[i].name != buckets[j].name
  }

  predicate SameUpToOrder(a: CompactInput, b: CompactInput) {
    && a.month == b.month && a.current == b.current && a.previous == b.previous
    && multiset(a.categories) == multiset(b.categories)
    && multiset(a.merchants) == multiset(b.merchants)
  }

  lemma NameOrder()
    ensures Orders(NameLess)
  {
    forall x: ReportBucket ensures !NameLess(x, x) { TextLessIrreflexive(x.name); }
    forall x: ReportBucket, y: ReportBucket, z: ReportBucket | NameLess(x, y) && NameLess(y, z) ensures NameLess(x, z) {
      TextLessTransitive(x.name, y.name, z.name);
    }
    forall x: ReportBucket, y: ReportBucket, z: ReportBucket | NameLess(x, y) ensures NameLess(x, z) || NameLess(z, y) {
      TextLessTotal(x.name, z.name);
      if TextLess(z.name, x.name) { TextLessTransitive(z.name, x.name, y.name); }
    }
  }

  lemma {:induction false} OccursOnce(buckets: seq<ReportBucket>, b: ReportBucket)
    requires UniqueNames(buckets) && b in buckets
    ensures multiset(buckets)[b] == 1
  {
    var rest := buckets[1..];
    assert buckets == [buckets[0]] + rest;
    if b == buckets[0] {
      assert forall i :: 0 <= i < |rest| ==> rest[i] == buckets[i + 1];
      assert b !in rest;
    } else {
      OccursOnce(rest, b);
    }
  }

  lemma OccursTwice(xs: seq<ReportBucket>, i: nat, j: nat)
    requires i < j < |xs| && xs[i] == xs[j]
    ensures multiset(xs)[xs[i]] >= 2
  {
    assert xs == xs[..j] + [xs[j]] + xs[j + 1..];
    assert xs[i] in multiset(xs[..j]) by { assert xs[..j][i] == xs[i]; }
  }

  lemma SortedUntied(buckets: seq<ReportBucket>)
    requires UniqueNames(buckets)
    ensures Untied(Sort(buckets, NameLess), NameLess)
  {
    var sorted := Sort(buckets, NameLess);
    SortPermutes(buckets, NameLess);
    forall i, j | 0 <= i < j < |sorted| ensures NameLess(sorted[i], sorted[j]) || NameLess(sorted[j], sorted[i]) {
      TextLessTotal(sorted[i].name, sorted[j].name);
      if sorted[i].name == sorted[j].name {
        assert sorted[i] in multiset(buckets) && sorted[j] in multiset(buckets);
        OccursTwice(sorted, i, j);
        OccursOnce(buckets, sorted[i]);
      }
    }
  }

  lemma SortDecides(a: seq<ReportBucket>, b: seq<ReportBucket>)
    requires UniqueNames(a)
    ensures Sort(a, NameLess) == Sort(b, NameLess) <==> multiset(a) == multiset(b)
  {
    SortPermutes(a, NameLess);
    SortPermutes(b, NameLess);
    if multiset(a) == multiset(b) {
      NameOrder();
      SortAscends(a, NameLess);
      SortAscends(b, NameLess);
      SortedUntied(a);
      AscendingIsUnique(Sort(a, NameLess), Sort(b, NameLess), NameLess);
    }
  }

  /** Two inputs have the same fingerprint exactly when they differ at most in the order of their buckets. */
  lemma FingerprintDecides(a: CompactInput, b: CompactInput)
    requires UniqueNames(a.categories) && UniqueNames(a.merchants)
    ensures FingerprintOf(a) == FingerprintOf(b) <==> SameUpToOrder(a, b)
  {
    SortDecides(a.categories, b.categories);
    SortDecides(a.merchants, b.merchants);
  }
}
