/**
 * `Array.prototype.sort` with a numeric comparator `(a, b) => key(a) - key(b)`: a
 * stable sort by an integer key, written as an insertion sort.
 */
module Sorting {
  import opened Seqs

  /** Keys never decrease along `s`. */
  predicate SortedBy<T>(s: seq<T>, key: T -> int) {
    forall i, j :: 0 <= i < j < |s| ==> key(s[i]) <= key(s[j])
  }

  /** The elements whose key is `k`. */
  function KeyIs<T>(key: T -> int, k: int): T -> bool {
    x => key(x) == k
  }

  /** Places `x` after every trailing element whose key is greater than its own. */
  function InsertBy<T>(s: seq<T>, x: T, key: T -> int): (r: seq<T>)
    ensures multiset(r) == multiset(s) + multiset{x}
    decreases |s|
  {
    if s == [] then [x]
    else if key(s[|s| - 1]) <= key(x) then s + [x]
    else
      assert s == s[..|s| - 1] + [s[|s| - 1]];
      InsertBy(s[..|s| - 1], x, key) + [s[|s| - 1]]
  }

  /** Inserting into a sorted list keeps it sorted. */
  lemma {:induction false} InsertBySorted<T>(s: seq<T>, x: T, key: T -> int)
    requires SortedBy(s, key)
    ensures SortedBy(InsertBy(s, x, key), key)
    decreases |s|
  {
    if s != [] && key(s[|s| - 1]) > key(x) {
      var init, last := s[..|s| - 1], s[|s| - 1];
      assert forall i :: 0 <= i < |init| ==> init[i] == s[i];
      InsertBySorted(init, x, key);
      InsertByBounded(init, x, key, key(last));
      InsertByLast(s, x, key);
    }
  }

  /** Inserting below a bound into a list below that bound stays below it. */
  lemma InsertByBounded<T>(s: seq<T>, x: T, key: T -> int, b: int)
    requires forall i :: 0 <= i < |s| ==> key(s[i]) <= b
    requires key(x) <= b
    ensures forall i :: 0 <= i < |InsertBy(s, x, key)| ==> key(InsertBy(s, x, key)[i]) <= b
  {
    var t := InsertBy(s, x, key);
    forall i | 0 <= i < |t| ensures key(t[i]) <= b {
      assert t[i] in multiset(t);
      if t[i] != x {
        assert t[i] in multiset(s);
        var j :| 0 <= j < |s| && s[j] == t[i];
      }
    }
  }

  /** Sorted by `key`, and a permutation of the input. */
  function SortBy<T>(s: seq<T>, key: T -> int): (r: seq<T>)
    ensures SortedBy(r, key)
    ensures multiset(r) == multiset(s)
    ensures |r| == |s|
  {
    if s == [] then []
    else
      var init := s[..|s| - 1];
      assert s == init + [s[|s| - 1]];
      assert multiset(s) == multiset(init) + multiset{s[|s| - 1]};
      InsertBySorted(SortBy(init, key), s[|s| - 1], key);
      var r := InsertBy(SortBy(init, key), s[|s| - 1], key);
      assert |r| == |multiset(r)|;
      r
  }

  /** Sorting a non-empty list inserts its last element into the sorted rest. */
  lemma SortByStep<T>(s: seq<T>, key: T -> int)
    requires s != []
    ensures SortBy(s, key) == InsertBy(SortBy(s[..|s| - 1], key), s[|s| - 1], key)
  {
  }

  /** Inserting adds `x` at the end of the elements that share its key. */
  lemma {:induction false} InsertByStable<T>(s: seq<T>, x: T, key: T -> int, k: int)
    ensures Filter(InsertBy(s, x, key), KeyIs(key, k)) == Filter(s, KeyIs(key, k)) + (if key(x) == k then [x] else [])
    decreases |s|
  {
    var p := KeyIs(key, k);
    if s == [] {
      assert Filter([x], p) == Filter([], p) + (if p(x) then [x] else []) by { FilterSnoc([], x, p); }
    } else if key(s[|s| - 1]) <= key(x) {
      FilterSnoc(s, x, p);
    } else {
      var init, last := s[..|s| - 1], s[|s| - 1];
      var t := InsertBy(init, x, key);
      InsertByLast(s, x, key);
      InsertByStable(init, x, key, k);
      FilterSnoc(t, last, p);
      FilterLast(s, p);
      assert p(x) == (key(x) == k) && p(last) == (key(last) == k);
      if p(x) {
        assert Filter(t + [last], p) == Filter(t, p) == Filter(init, p) + [x];
        assert Filter(s, p) == Filter(init, p);
      } else {
        assert Filter(t, p) == Filter(init, p);
      }
    }
  }

  /** Inserting below the last element inserts into the rest and keeps the last element last. */
  lemma InsertByLast<T>(s: seq<T>, x: T, key: T -> int)
    requires s != [] && key(s[|s| - 1]) > key(x)
    ensures InsertBy(s, x, key) == InsertBy(s[..|s| - 1], x, key) + [s[|s| - 1]]
  {
  }

  /** The sort is stable: the elements sharing any one key keep their input order. */
  lemma {:induction false} SortByStable<T>(s: seq<T>, key: T -> int, k: int)
    ensures Filter(SortBy(s, key), KeyIs(key, k)) == Filter(s, KeyIs(key, k))
  {
    if s != [] {
      var init, x := s[..|s| - 1], s[|s| - 1];
      var p := KeyIs(key, k);
      SortByStep(s, key);
      SortByStable(init, key, k);
      InsertByStable(SortBy(init, key), x, key, k);
      FilterLast(s, p);
      assert p(x) == (key(x) == k);
    }
  }

  /** Sorting a filtered list keeps exactly the elements the filter keeps. */
  lemma SortByFilterMembers<T>(s: seq<T>, p: T -> bool, key: T -> int)
    ensures var v := SortBy(Filter(s, p), key);
            && (forall i :: 0 <= i < |v| ==> v[i] in s && p(v[i]))
            && (forall i :: 0 <= i < |s| && p(s[i]) ==> s[i] in v)
  {
    FilterMembers(s, p, SortBy(Filter(s, p), key));
  }
}
