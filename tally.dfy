/**
 * Independent reference definitions for the dashboard and table roll-ups: how many
 * elements satisfy a predicate, and the exact sum of a quantity over them. The
 * roll-ups themselves are `filter`/`map`/`reduce` chains; the lemmas here connect the two.
 */
module Tally {
  import opened Seqs
  import opened Currency

  /** How many elements of `s` satisfy `p`. */
  function CountWhere<T>(s: seq<T>, p: T -> bool): (n: nat)
    ensures n <= |s|
  {
    if s == [] then 0 else CountWhere(s[..|s| - 1], p) + (if p(s[|s| - 1]) then 1 else 0)
  }

  /** The exact sum of `f` over the elements of `s` that satisfy `p`. */
  function SumWhere<T>(s: seq<T>, p: T -> bool, f: T -> real): real {
    if s == [] then 0.0 else SumWhere(s[..|s| - 1], p, f) + (if p(s[|s| - 1]) then f(s[|s| - 1]) else 0.0)
  }

  /** The length of a filter is the count of the elements it keeps. */
  lemma {:induction false} CountIsFilterLength<T>(s: seq<T>, p: T -> bool)
    ensures |Filter(s, p)| == CountWhere(s, p)
  {
    if s != [] {
      CountIsFilterLength(s[..|s| - 1], p);
    }
  }

  /** Predicates that agree on `s` count the same. */
  lemma CountSame<T>(s: seq<T>, p: T -> bool, q: T -> bool)
    requires forall i :: 0 <= i < |s| ==> p(s[i]) == q(s[i])
    ensures CountWhere(s, p) == CountWhere(s, q)
  {
    FilterSame(s, p, q);
    CountIsFilterLength(s, p);
    CountIsFilterLength(s, q);
  }

  /** Summing the mapped filter exactly gives the reference sum. */
  lemma {:induction false} ExactFilteredSum<T>(s: seq<T>, p: T -> bool, f: T -> real)
    ensures ExactSum(MapSeq(Filter(s, p), f)) == SumWhere(s, p, f)
  {
    if s != [] {
      var s', x := s[..|s| - 1], s[|s| - 1];
      var fs := Filter(s', p);
      ExactFilteredSum(s', p, f);
      if p(x) {
        assert Filter(s, p) == fs + [x];
        MapSnoc(fs, x, f);
        ExactSumSnoc(MapSeq(fs, f), f(x));
        assert SumWhere(s, p, f) == SumWhere(s', p, f) + f(x);
      } else {
        assert Filter(s, p) == fs + [] == fs;
        assert SumWhere(s, p, f) == SumWhere(s', p, f) + 0.0;
      }
    }
  }

  /** When every quantity is a whole number of cents, the rounded running sum of a filter is the reference sum. */
  lemma RoundedFilteredSum<T>(s: seq<T>, p: T -> bool, f: T -> real)
    requires forall i :: 0 <= i < |s| ==> TwoDecimals(f(s[i]))
    ensures MoneySum(MapSeq(Filter(s, p), f)) == SumWhere(s, p, f)
  {
    var m := MapSeq(Filter(s, p), f);
    forall i | 0 <= i < |m|
      ensures TwoDecimals(m[i])
    {
      var e := Filter(s, p)[i];
      assert e in s;
      var j :| 0 <= j < |s| && s[j] == e;
    }
    MoneySumExact(m);
    ExactFilteredSum(s, p, f);
  }

  /** Predicates that agree on `s` sum the same. */
  lemma {:induction false} SumSame<T>(s: seq<T>, p: T -> bool, q: T -> bool, f: T -> real)
    requires forall i :: 0 <= i < |s| ==> p(s[i]) == q(s[i])
    ensures SumWhere(s, p, f) == SumWhere(s, q, f)
  {
    if s != [] {
      SumSame(s[..|s| - 1], p, q, f);
      assert p(s[|s| - 1]) == q(s[|s| - 1]);
    }
  }

  /** Sums over disjoint predicates add up to the sum over their union. */
  lemma {:induction false} SumSplit<T>(s: seq<T>, p: T -> bool, q: T -> bool, pq: T -> bool, f: T -> real)
    requires forall x :: pq(x) == (p(x) || q(x))
    requires forall x :: !(p(x) && q(x))
    ensures SumWhere(s, pq, f) == SumWhere(s, p, f) + SumWhere(s, q, f)
  {
    if s != [] {
      var x := s[|s| - 1];
      SumSplit(s[..|s| - 1], p, q, pq, f);
      assert pq(x) == (p(x) || q(x)) && !(p(x) && q(x));
    }
  }

  /** A sum over a predicate true everywhere and a quantity split in two is the sum of the two halves. */
  lemma {:induction false} SumAdd<T>(s: seq<T>, p: T -> bool, f: T -> real, g: T -> real, fg: T -> real)
    requires forall x :: fg(x) == f(x) + g(x)
    ensures SumWhere(s, p, fg) == SumWhere(s, p, f) + SumWhere(s, p, g)
  {
    if s != [] {
      var x := s[|s| - 1];
      SumAdd(s[..|s| - 1], p, f, g, fg);
      assert fg(x) == f(x) + g(x);
    }
  }

  /** Quantities that agree wherever `p` holds sum the same. */
  lemma {:induction false} SumSameQuantity<T>(s: seq<T>, p: T -> bool, f: T -> real, g: T -> real)
    requires forall i :: 0 <= i < |s| && p(s[i]) ==> f(s[i]) == g(s[i])
    ensures SumWhere(s, p, f) == SumWhere(s, p, g)
  {
    if s != [] {
      SumSameQuantity(s[..|s| - 1], p, f, g);
      assert p(s[|s| - 1]) ==> f(s[|s| - 1]) == g(s[|s| - 1]);
    }
  }

  /** A sum of non-negative quantities is non-negative. */
  lemma {:induction false} SumNonNegative<T>(s: seq<T>, p: T -> bool, f: T -> real)
    requires forall i :: 0 <= i < |s| && p(s[i]) ==> f(s[i]) >= 0.0
    ensures SumWhere(s, p, f) >= 0.0
  {
    if s != [] {
      SumNonNegative(s[..|s| - 1], p, f);
    }
  }

  /** A sum of non-negative quantities is positive exactly when one of its terms is. */
  lemma {:induction false} SumPositive<T>(s: seq<T>, p: T -> bool, f: T -> real)
    requires forall i :: 0 <= i < |s| && p(s[i]) ==> f(s[i]) >= 0.0
    ensures SumWhere(s, p, f) > 0.0 <==> exists i :: 0 <= i < |s| && p(s[i]) && f(s[i]) > 0.0
  {
    if s != [] {
      var init, x := s[..|s| - 1], s[|s| - 1];
      SumPositive(init, p, f);
      SumNonNegative(init, p, f);
      if exists i :: 0 <= i < |init| && p(init[i]) && f(init[i]) > 0.0 {
        var i :| 0 <= i < |init| && p(init[i]) && f(init[i]) > 0.0;
        assert s[i] == init[i];
      }
      if exists i :: 0 <= i < |s| && p(s[i]) && f(s[i]) > 0.0 {
        var i :| 0 <= i < |s| && p(s[i]) && f(s[i]) > 0.0;
        if i < |init| {
          assert init[i] == s[i];
        }
      }
    }
  }

  /** When every element satisfies exactly one of three predicates, their counts add up to the length. */
  lemma {:induction false} CountThreeWay<T>(s: seq<T>, p: T -> bool, q: T -> bool, r: T -> bool)
    requires forall i :: 0 <= i < |s| ==> (if p(s[i]) then 1 else 0) + (if q(s[i]) then 1 else 0) + (if r(s[i]) then 1 else 0) == 1
    ensures CountWhere(s, p) + CountWhere(s, q) + CountWhere(s, r) == |s|
  {
    if s != [] {
      CountThreeWay(s[..|s| - 1], p, q, r);
    }
  }

  /** Appending one element adds its quantity to the rounded sum of a filter, and one to its length, exactly when it is kept. */
  lemma FilteredMoneySumSnoc<T>(s: seq<T>, x: T, p: T -> bool, f: T -> real)
    ensures MoneySum(MapSeq(Filter(s + [x], p), f)) ==
              if p(x) then Add(MoneySum(MapSeq(Filter(s, p), f)), f(x)) else MoneySum(MapSeq(Filter(s, p), f))
    ensures |Filter(s + [x], p)| == |Filter(s, p)| + if p(x) then 1 else 0
  {
    FilterSnoc(s, x, p);
    if p(x) {
      MapSnoc(Filter(s, p), x, f);
      MoneySumSnoc(MapSeq(Filter(s, p), f), f(x));
    } else {
      assert Filter(s + [x], p) == Filter(s, p) + [] == Filter(s, p);
    }
  }
}
