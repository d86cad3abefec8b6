/** Order-preserving sequence operations: `Array.prototype.filter` and `map`. */
module Seqs {

  /** `s.filter(p)`, defined from the last element so that a loop over a prefix extends it. */
  function Filter<T>(s: seq<T>, p: T -> bool): (r: seq<T>)
    ensures |r| <= |s|
    ensures forall i :: 0 <= i < |r| ==> r[i] in s && p(r[i])
    ensures forall i :: 0 <= i < |s| && p(s[i]) ==> s[i] in r
  {
    if s == [] then []
    else Filter(s[..|s| - 1], p) + (if p(s[|s| - 1]) then [s[|s| - 1]] else [])
  }

  /** `s.map(f)`. */
  function MapSeq<T, U>(s: seq<T>, f: T -> U): (r: seq<U>)
    ensures |r| == |s|
    ensures forall i :: 0 <= i < |s| ==> r[i] == f(s[i])
  {
    if s == [] then [] else MapSeq(s[..|s| - 1], f) + [f(s[|s| - 1])]
  }

  /** Filtering a non-empty sequence filters all but its last element, then the last. */
  lemma FilterLast<T>(s: seq<T>, p: T -> bool)
    requires s != []
    ensures Filter(s, p) == Filter(s[..|s| - 1], p) + (if p(s[|s| - 1]) then [s[|s| - 1]] else [])
  {
  }

  /** Extending the input by one element extends the filtered result by at most that element. */
  lemma FilterSnoc<T>(s: seq<T>, x: T, p: T -> bool)
    ensures Filter(s + [x], p) == Filter(s, p) + (if p(x) then [x] else [])
  {
    assert (s + [x])[..|s + [x]| - 1] == s;
  }

  /** Filtering distributes over concatenation, so every kept element stays in its original order. */
  lemma {:induction false} FilterAppend<T>(a: seq<T>, b: seq<T>, p: T -> bool)
    ensures Filter(a + b, p) == Filter(a, p) + Filter(b, p)
    decreases |b|
  {
    if b == [] {
      assert a + b == a;
    } else {
      var b', x := b[..|b| - 1], b[|b| - 1];
      FilterAppend(a, b', p);
      assert (a + b)[..|a + b| - 1] == a + b';
      FilterLast(a + b, p);
      FilterLast(b, p);
      AppendAssoc(Filter(a, p), Filter(b', p), if p(x) then [x] else []);
    }
  }

  lemma AppendAssoc<T>(a: seq<T>, b: seq<T>, c: seq<T>)
    ensures (a + b) + c == a + (b + c)
  {
  }

  /** A filter whose predicate holds everywhere keeps the whole sequence. */
  lemma {:induction false} FilterAll<T>(s: seq<T>, p: T -> bool)
    requires forall i :: 0 <= i < |s| ==> p(s[i])
    ensures Filter(s, p) == s
  {
    if s != [] {
      var init, last := s[..|s| - 1], s[|s| - 1];
      FilterAll(init, p);
      FilterLast(s, p);
      assert p(last);
      assert s == init + [last];
    }
  }

  /** A weaker predicate keeps at least as many elements. */
  lemma {:induction false} FilterCountMonotone<T>(s: seq<T>, p: T -> bool, q: T -> bool)
    requires forall x :: p(x) ==> q(x)
    ensures |Filter(s, p)| <= |Filter(s, q)|
  {
    if s != [] {
      FilterCountMonotone(s[..|s| - 1], p, q);
    }
  }

  /** Filtering twice keeps exactly the elements satisfying both predicates. */
  lemma {:induction false} FilterFilter<T>(s: seq<T>, p: T -> bool, q: T -> bool, pq: T -> bool)
    requires forall x :: pq(x) == (p(x) && q(x))
    ensures Filter(Filter(s, p), q) == Filter(s, pq)
  {
    if s != [] {
      var s', x := s[..|s| - 1], s[|s| - 1];
      assert s == s' + [x];
      assert pq(x) == (p(x) && q(x));
      FilterFilter(s', p, q, pq);
      FilterSnoc(s', x, pq);
      FilterSnoc(s', x, p);
      if p(x) {
        assert Filter(s, p) == Filter(s', p) + [x];
        FilterSnoc(Filter(s', p), x, q);
      } else {
        assert Filter(s, p) == Filter(s', p);
        assert Filter(s, pq) == Filter(s', pq);
      }
    }
  }

  /** A sequence splits into the elements that satisfy a predicate and those that do not. */
  lemma {:induction false} FilterPartition<T>(s: seq<T>, p: T -> bool, notP: T -> bool)
    requires forall x :: notP(x) == !p(x)
    ensures |Filter(s, p)| + |Filter(s, notP)| == |s|
  {
    if s != [] {
      FilterPartition(s[..|s| - 1], p, notP);
    }
  }

  /** Mapping commutes with dropping the last element. */
  lemma MapInit<T, U>(s: seq<T>, f: T -> U)
    requires s != []
    ensures MapSeq(s, f)[..|s| - 1] == MapSeq(s[..|s| - 1], f)
  {
  }

  /** Mapping distributes over appending one element. */
  lemma MapSnoc<T, U>(s: seq<T>, x: T, f: T -> U)
    ensures MapSeq(s + [x], f) == MapSeq(s, f) + [f(x)]
  {
    assert (s + [x])[..|s + [x]| - 1] == s;
  }

  /** Predicates that agree on every element of `s` filter it the same way. */
  lemma {:induction false} FilterSame<T>(s: seq<T>, p: T -> bool, q: T -> bool)
    requires forall i :: 0 <= i < |s| ==> p(s[i]) == q(s[i])
    ensures Filter(s, p) == Filter(s, q)
  {
    if s != [] {
      FilterSame(s[..|s| - 1], p, q);
      assert p(s[|s| - 1]) == q(s[|s| - 1]);
    }
  }

  /** A permutation of `Filter(s, p)` holds exactly the elements of `s` that satisfy `p`. */
  lemma FilterMembers<T>(s: seq<T>, p: T -> bool, v: seq<T>)
    requires multiset(v) == multiset(Filter(s, p))
    ensures forall i :: 0 <= i < |v| ==> v[i] in s && p(v[i])
    ensures forall i :: 0 <= i < |s| && p(s[i]) ==> s[i] in v
  {
    var r := Filter(s, p);
    forall i | 0 <= i < |v| ensures v[i] in s && p(v[i]) {
      assert v[i] in multiset(r);
      var j :| 0 <= j < |r| && r[j] == v[i];
    }
    forall i | 0 <= i < |s| && p(s[i]) ensures s[i] in v {
      assert s[i] in multiset(r);
    }
  }
}
