/** JavaScript's string order and its stable sort. */
module Sorting {
  import opened Wrappers

  /** `left < right` on strings: lexicographic by code unit. */
  predicate TextLess(left: Text, right: Text) {
    right != [] &&
    (left == [] || left[0] < right[0] || (left[0] == right[0] && TextLess(left[1..], right[1..])))
  }

  lemma {:induction false} TextLessIrreflexive(a: Text)
    ensures !TextLess(a, a)
  {
    if a != [] { TextLessIrreflexive(a[1..]); }
  }

  lemma {:induction false} TextLessTransitive(a: Text, b: Text, c: Text)
    requires TextLess(a, b) && TextLess(b, c)
    ensures TextLess(a, c)
  {
    if a != [] && a[0] == b[0] && b[0] == c[0] { TextLessTransitive(a[1..], b[1..], c[1..]); }
  }

  lemma {:induction false} TextLessTotal(a: Text, b: Text)
    ensures a == b || TextLess(a, b) || TextLess(b, a)
  {
    if a != [] && b != [] && a[0] == b[0] {
      TextLessTotal(a[1..], b[1..]);
      if a[1..] == b[1..] { assert a == [a[0]] + a[1..] == b; }
    }
  }

  /** x comes before every element of sorted it does not have to follow: equal elements keep their order. */
  function Insert<T>(x: T, sorted: seq<T>, less: (T, T) -> bool): seq<T> {
    if sorted == [] then [x]
    else if less(sorted[0], x) then [sorted[0]] + Insert(x, sorted[1..], less)
    else [x] + sorted
  }

  function Sort<T>(xs: seq<T>, less: (T, T) -> bool): seq<T> {
    if xs == [] then [] else Insert(xs[0], Sort(xs[1..], less), less)
  }

  /** No element is less than an earlier one. */
  ghost predicate Ascending<T(!new)>(xs: seq<T>, less: (T, T) -> bool) {
    forall i, j :: 0 <= i < j < |xs| ==> !less(xs[j], xs[i])
  }

  /** less is a strict weak order. */
  ghost predicate Orders<T(!new)>(less: (T, T) -> bool) {
    && (forall x :: !less(x, x))
    && (forall x, y, z :: less(x, y) && less(y, z) ==> less(x, z))
    && (forall x, y, z :: less(x, y) ==> less(x, z) || less(z, y))
  }

  lemma {:induction false} InsertPermutes<T>(x: T, sorted: seq<T>, less: (T, T) -> bool)
    ensures multiset(Insert(x, sorted, less)) == multiset(sorted) + multiset{x}
    ensures |Insert(x, sorted, less)| == |sorted| + 1
  {
    if sorted != [] {
      assert sorted == [sorted[0]] + sorted[1..];
      if less(sorted[0], x) { InsertPermutes(x, sorted[1..], less); }
    }
  }

  lemma {:induction false} SortPermutes<T>(xs: seq<T>, less: (T, T) -> bool)
    ensures multiset(Sort(xs, less)) == multiset(xs) && |Sort(xs, less)| == |xs|
  {
    if xs != [] {
      assert xs == [xs[0]] + xs[1..];
      SortPermutes(xs[1..], less);
      InsertPermutes(xs[0], Sort(xs[1..], less), less);
    }
  }

  lemma {:induction false} InsertAscends<T(!new)>(x: T, sorted: seq<T>, less: (T, T) -> bool)
    requires Orders(less) && Ascending(sorted, less)
    ensures Ascending(Insert(x, sorted, less), less)
  {
    if sorted != [] {
      if less(sorted[0], x) {
        var rest := Insert(x, sorted[1..], less);
        InsertAscends(x, sorted[1..], less);
        InsertPermutes(x, sorted[1..], less);
        forall y | y in rest ensures !less(y, sorted[0]) {
          assert y in multiset(rest);
          if y != x { assert y in sorted[1..]; }
        }
      } else {
        forall j | 0 <= j < |sorted| ensures !less(sorted[j], x) {
          assert j > 0 ==> !less(sorted[j], sorted[0]);
        }
      }
    }
  }

  lemma {:induction false} SortAscends<T(!new)>(xs: seq<T>, less: (T, T) -> bool)
    requires Orders(less)
    ensures Ascending(Sort(xs, less), less)
  {
    if xs != [] {
      SortAscends(xs[1..], less);
      InsertAscends(xs[0], Sort(xs[1..], less), less);
    }
  }

  /** No two elements tie. */
  ghost predicate Untied<T(!new)>(xs: seq<T>, less: (T, T) -> bool) {
    forall i, j :: 0 <= i < j < |xs| ==> less(xs[i], xs[j]) || less(xs[j], xs[i])
  }

  lemma SameHead<T(!new)>(xs: seq<T>, ys: seq<T>, less: (T, T) -> bool)
    requires Ascending(xs, less) && Ascending(ys, less) && Untied(xs, less)
    requires xs != [] && ys != [] && xs[0] in ys && ys[0] in xs
    ensures xs[0] == ys[0]
  {
    var i :| 0 <= i < |xs| && xs[i] == ys[0];
    var j :| 0 <= j < |ys| && ys[j] == xs[0];
    assert i > 0 ==> !less(xs[i], xs[0]);
    assert j > 0 ==> !less(ys[j], ys[0]);
  }

  lemma TailMultiset<T>(xs: seq<T>)
    requires xs != []
    ensures multiset(xs[1..]) == multiset(xs) - multiset{xs[0]}
  {
    assert xs == [xs[0]] + xs[1..];
  }

  /** Where no two elements tie, there is only one ascending arrangement. */
  lemma {:induction false} AscendingIsUnique<T(!new)>(xs: seq<T>, ys: seq<T>, less: (T, T) -> bool)
    requires Ascending(xs, less) && Ascending(ys, less) && Untied(xs, less)
    requires multiset(xs) == multiset(ys)
    ensures xs == ys
  {
    assert |multiset(xs)| == |multiset(ys)|;
    if xs != [] {
      assert xs[0] in multiset(ys) && ys[0] in multiset(xs);
      SameHead(xs, ys, less);
      TailMultiset(xs);
      TailMultiset(ys);
      AscendingIsUnique(xs[1..], ys[1..], less);
      assert xs == [xs[0]] + xs[1..] && ys == [ys[0]] + ys[1..];
    }
  }
}
