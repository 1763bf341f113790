/** `Array.prototype.sort` with a comparator, as a stable insertion sort.

    A comparator returns a number: positive when its first argument must come
    after its second. For a comparator that is a total preorder, every stable
    sort produces the same sequence, so this definition stands for the
    engine's sort; for an inconsistent comparator the engine's order is
    unspecified. */
module Sorting {

  /** Inserts `x` after every element that does not compare greater than it. */
  function Insert<T>(x: T, sorted: seq<T>, compare: (T, T) -> int): (r: seq<T>)
    ensures multiset(r) == multiset(sorted) + multiset{x}
    ensures |r| == |sorted| + 1
    ensures r[0] == x || (sorted != [] && r[0] == sorted[0])
    decreases |sorted|
  {
    if sorted == [] then [x]
    else if compare(sorted[0], x) > 0 then [x] + sorted
    else
      assert sorted == [sorted[0]] + sorted[1..];
      [sorted[0]] + Insert(x, sorted[1..], compare)
  }

  function SortBy<T>(s: seq<T>, compare: (T, T) -> int): (r: seq<T>)
    ensures multiset(r) == multiset(s)
    decreases |s|
  {
    if s == [] then []
    else
      assert s == s[..|s| - 1] + [s[|s| - 1]];
      Insert(s[|s| - 1], SortBy(s[..|s| - 1], compare), compare)
  }

  /** No two neighbours are out of order. */
  ghost predicate Sorted<T>(s: seq<T>, compare: (T, T) -> int) {
    forall i :: 0 <= i < |s| - 1 ==> compare(s[i], s[i + 1]) <= 0
  }

  /** When `a` must come after `b`, `b` need not come after `a`. */
  ghost predicate Antisymmetric<T(!new)>(compare: (T, T) -> int) {
    forall a: T, b: T :: compare(a, b) > 0 ==> compare(b, a) <= 0
  }

  lemma {:induction false} InsertSorted<T(!new)>(x: T, sorted: seq<T>, compare: (T, T) -> int)
    requires Antisymmetric(compare) && Sorted(sorted, compare)
    ensures Sorted(Insert(x, sorted, compare), compare)
    decreases |sorted|
  {
    if sorted != [] {
      if compare(sorted[0], x) > 0 {
        assert compare(x, sorted[0]) <= 0;
        var r := [x] + sorted;
        forall i | 0 <= i < |r| - 1 ensures compare(r[i], r[i + 1]) <= 0 {
          if i > 0 {
            assert r[i] == sorted[i - 1] && r[i + 1] == sorted[i];
          }
        }
      } else {
        var tail := sorted[1..];
        assert Sorted(tail, compare) by {
          forall i | 0 <= i < |tail| - 1 ensures compare(tail[i], tail[i + 1]) <= 0 {
            assert tail[i] == sorted[i + 1] && tail[i + 1] == sorted[i + 2];
          }
        }
        InsertSorted(x, tail, compare);
        var ins := Insert(x, tail, compare);
        var r := [sorted[0]] + ins;
        assert compare(sorted[0], ins[0]) <= 0 by {
          if ins[0] != x {
            assert ins[0] == sorted[1];
          }
        }
        forall i | 0 <= i < |r| - 1 ensures compare(r[i], r[i + 1]) <= 0 {
          if i > 0 {
            assert r[i] == ins[i - 1] && r[i + 1] == ins[i];
          }
        }
      }
    }
  }

  /** With an antisymmetric comparator no two neighbours of the result are out of order. */
  lemma {:induction false} SortBySorted<T(!new)>(s: seq<T>, compare: (T, T) -> int)
    requires Antisymmetric(compare)
    ensures Sorted(SortBy(s, compare), compare)
    decreases |s|
  {
    if s != [] {
      SortBySorted(s[..|s| - 1], compare);
      InsertSorted(s[|s| - 1], SortBy(s[..|s| - 1], compare), compare);
    }
  }
}
