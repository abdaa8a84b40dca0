/**
 * Sequence operations that the dashboard performs on its tables: a boolean-mask
 * filter (keeps the rows a predicate accepts, in their original order) and a sort
 * by a total preorder. Pandas' default sort is not stable, so the sort is
 * specified only as "an ordered permutation"; nothing is said about ties.
 */
module Seqs {

  /** `a` can be obtained from `b` by deleting elements (relative order kept). */
  predicate SubsequenceOf<T(==)>(a: seq<T>, b: seq<T>)
    decreases |b|
  {
    if a == [] then true
    else if b == [] then false
    else if a[0] == b[0] then SubsequenceOf(a[1..], b[1..])
    else SubsequenceOf(a, b[1..])
  }

  /** The rows of `s` that `keep` accepts, in their original order. */
  function Filter<T(!new)>(s: seq<T>, keep: T -> bool): (r: seq<T>)
    ensures forall x :: multiset(r)[x] == if keep(x) then multiset(s)[x] else 0
    ensures forall x :: x in r <==> x in s && keep(x)
    ensures SubsequenceOf(r, s)
    decreases |s|
  {
    if s == [] then []
    else
      var rest := Filter(s[1..], keep);
      assert s == [s[0]] + s[1..];
      assert multiset(s) == multiset{s[0]} + multiset(s[1..]);
      if keep(s[0]) then
        assert multiset([s[0]] + rest) == multiset{s[0]} + multiset(rest);
        [s[0]] + rest
      else
        assert rest == [] || keep(rest[0]);
        rest
  }

  /** No element occurs twice. */
  predicate Distinct<T(==)>(s: seq<T>)
  {
    forall i, j :: 0 <= i < j < |s| ==> s[i] != s[j]
  }

  lemma ConcatAssoc<T>(a: seq<T>, b: seq<T>, c: seq<T>)
    ensures (a + b) + c == a + (b + c)
  {
  }

  /** Filtering a sequence with a given first element. */
  lemma FilterCons<T(!new)>(x: T, s: seq<T>, keep: T -> bool)
    ensures Filter([x] + s, keep) == if keep(x) then [x] + Filter(s, keep) else Filter(s, keep)
  {
    assert ([x] + s)[1..] == s;
  }

  /** Two masks that agree on every element of `s` select the same rows. */
  lemma {:induction false} FilterAgrees<T(!new)>(s: seq<T>, keep: T -> bool, keep': T -> bool)
    requires forall x :: x in s ==> keep(x) == keep'(x)
    ensures Filter(s, keep) == Filter(s, keep')
    decreases |s|
  {
    if s != [] {
      assert s[0] in s;
      forall x | x in s[1..] ensures keep(x) == keep'(x) {
        assert x in s;
      }
      FilterAgrees(s[1..], keep, keep');
    }
  }

  /** `before` is total and transitive: a valid sort key comparison. */
  ghost predicate TotalPreorder<T(!new)>(before: (T, T) -> bool)
  {
    && (forall x, y :: before(x, y) || before(y, x))
    && (forall x, y, z :: before(x, y) && before(y, z) ==> before(x, z))
  }

  /** Every earlier element comes `before` every later one. */
  predicate SortedBy<T>(s: seq<T>, before: (T, T) -> bool)
  {
    forall i, j :: 0 <= i < j < |s| ==> before(s[i], s[j])
  }

  /** Inserts `x` into a sorted sequence, keeping it sorted. */
  function Insert<T(!new)>(x: T, s: seq<T>, before: (T, T) -> bool): (r: seq<T>)
    requires TotalPreorder(before)
    requires SortedBy(s, before)
    ensures multiset(r) == multiset(s) + multiset{x}
    ensures SortedBy(r, before)
    decreases |s|
  {
    if s == [] || before(x, s[0]) then
      ConsSorted(x, s, before);
      [x] + s
    else
      assert s == [s[0]] + s[1..];
      var rest := Insert(x, s[1..], before);
      forall y | y in rest ensures before(s[0], y) {
        assert y in multiset(rest);
        if y != x {
          var k :| 0 <= k < |s[1..]| && s[1..][k] == y;
          assert s[k + 1] == y;
        }
      }
      ConsSortedAll(s[0], rest, before);
      [s[0]] + rest
  }

  /** Prepending an element that precedes the head of a sorted sequence keeps it sorted. */
  lemma ConsSorted<T(!new)>(x: T, s: seq<T>, before: (T, T) -> bool)
    requires TotalPreorder(before)
    requires SortedBy(s, before)
    requires s == [] || before(x, s[0])
    ensures SortedBy([x] + s, before)
  {
    forall y | y in s ensures before(x, y) {
      var k :| 0 <= k < |s| && s[k] == y;
      if k > 0 {
        assert before(s[0], s[k]);
      }
    }
    ConsSortedAll(x, s, before);
  }

  /** Prepending an element that precedes every element of a sorted sequence keeps it sorted. */
  lemma ConsSortedAll<T>(x: T, s: seq<T>, before: (T, T) -> bool)
    requires SortedBy(s, before)
    requires forall y :: y in s ==> before(x, y)
    ensures SortedBy([x] + s, before)
  {
    var r := [x] + s;
    forall i, j | 0 <= i < j < |r| ensures before(r[i], r[j]) {
      if i == 0 {
        assert r[j] == s[j - 1];
      } else {
        assert r[i] == s[i - 1] && r[j] == s[j - 1];
      }
    }
  }

  /** A permutation of `s` that is sorted by `before` (tie order unspecified). */
  function SortBy<T(!new)>(s: seq<T>, before: (T, T) -> bool): (r: seq<T>)
    requires TotalPreorder(before)
    ensures multiset(r) == multiset(s)
    ensures |r| == |s|
    ensures SortedBy(r, before)
    decreases |s|
  {
    if s == [] then []
    else
      assert s == [s[0]] + s[1..];
      Insert(s[0], SortBy(s[1..], before), before)
  }

  /** Filtering a sorted sequence leaves it sorted. */
  lemma {:induction false} FilterKeepsSorted<T(!new)>(s: seq<T>, keep: T -> bool, before: (T, T) -> bool)
    requires SortedBy(s, before)
    ensures SortedBy(Filter(s, keep), before)
    decreases |s|
  {
    if s != [] {
      assert SortedBy(s[1..], before);
      FilterKeepsSorted(s[1..], keep, before);
      var rest := Filter(s[1..], keep);
      if keep(s[0]) {
        forall y | y in rest ensures before(s[0], y) {
          var k :| 0 <= k < |s[1..]| && s[1..][k] == y;
          assert s[k + 1] == y;
        }
        ConsSortedAll(s[0], rest, before);
      }
    }
  }
}
