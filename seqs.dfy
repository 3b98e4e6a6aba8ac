/**
 * Sequence helpers standing in for Python built-ins the application uses on
 * lists: `sum(...)`, list comprehensions with an `if` (filtering), and the
 * stable `list.sort(key=..., reverse=...)` / `sorted(...)`.
 */
module Seqs {

  /** `sum(f(x) for x in s)` over reals. */
  function SumReal<T>(s: seq<T>, f: T -> real): real {
    if s == [] then 0.0 else SumReal(s[..|s| - 1], f) + f(s[|s| - 1])
  }

  /** `sum(f(x) for x in s)` over integers. */
  function SumInt<T>(s: seq<T>, f: T -> int): int {
    if s == [] then 0 else SumInt(s[..|s| - 1], f) + f(s[|s| - 1])
  }

  lemma {:induction false} SumRealAppend<T>(a: seq<T>, b: seq<T>, f: T -> real)
    ensures SumReal(a + b, f) == SumReal(a, f) + SumReal(b, f)
    decreases |b|
  {
    if b == [] {
      assert a + b == a;
    } else {
      assert (a + b)[..|a + b| - 1] == a + b[..|b| - 1];
      SumRealAppend(a, b[..|b| - 1], f);
    }
  }

  lemma {:induction false} SumIntAppend<T>(a: seq<T>, b: seq<T>, f: T -> int)
    ensures SumInt(a + b, f) == SumInt(a, f) + SumInt(b, f)
    decreases |b|
  {
    if b == [] {
      assert a + b == a;
    } else {
      assert (a + b)[..|a + b| - 1] == a + b[..|b| - 1];
      SumIntAppend(a, b[..|b| - 1], f);
    }
  }

  /** A sum of non-negative terms is non-negative. */
  lemma {:induction false} SumIntNonNegative<T>(s: seq<T>, f: T -> int)
    requires forall i | 0 <= i < |s| :: f(s[i]) >= 0
    ensures SumInt(s, f) >= 0
  {
    if s != [] {
      SumIntNonNegative(s[..|s| - 1], f);
    }
  }

  /** A sequence that agrees with `b` on `b`'s indices and ends with `x` is `b + [x]`. */
  lemma ExtendPointwise<T>(a: seq<T>, b: seq<T>, x: T)
    requires |a| == |b| + 1 && a[|b|] == x
    requires forall k | 0 <= k < |b| :: a[k] == b[k]
    ensures a == b + [x]
  {
    assert forall k | 0 <= k < |a| :: a[k] == (b + [x])[k];
  }

  /** `[x for x in s if p(x)]`. */
  function Filter<T>(s: seq<T>, p: T -> bool): (r: seq<T>)
    ensures |r| <= |s|
    ensures forall i | 0 <= i < |r| :: p(r[i])
  {
    if s == [] then []
    else if p(s[|s| - 1]) then Filter(s[..|s| - 1], p) + [s[|s| - 1]]
    else Filter(s[..|s| - 1], p)
  }

  /** Filtering one element more appends it exactly when it passes. */
  lemma FilterStep<T>(s: seq<T>, i: nat, p: T -> bool)
    requires i < |s|
    ensures Filter(s[..i + 1], p) == Filter(s[..i], p) + (if p(s[i]) then [s[i]] else [])
  {
    assert s[..i + 1][..i] == s[..i];
  }

  /** The loop that appends each element of `s` passing `p` to an empty list. */
  method FilterLoop<T>(s: seq<T>, p: T -> bool) returns (r: seq<T>)
    ensures r == Filter(s, p)
  {
    r := [];
    var i := 0;
    while i < |s|
      invariant 0 <= i <= |s|
      invariant r == Filter(s[..i], p)
    {
      FilterStep(s, i, p);
      if p(s[i]) {
        r := r + [s[i]];
      }
      i := i + 1;
    }
    assert s[..i] == s;
  }

  /** `a` can be obtained from `b` by deleting elements, keeping the order of the rest. */
  predicate Subsequence<T(==)>(a: seq<T>, b: seq<T>)
    decreases |b|
  {
    if a == [] then true
    else if b == [] then false
    else (a[|a| - 1] == b[|b| - 1] && Subsequence(a[..|a| - 1], b[..|b| - 1]))
         || Subsequence(a, b[..|b| - 1])
  }

  /** Filtering keeps the surviving elements in their original order. */
  lemma {:induction false} FilterIsSubsequence<T>(s: seq<T>, p: T -> bool)
    ensures Subsequence(Filter(s, p), s)
  {
    if s != [] {
      FilterIsSubsequence(s[..|s| - 1], p);
      var r := Filter(s, p);
      if p(s[|s| - 1]) {
        assert r[..|r| - 1] == Filter(s[..|s| - 1], p);
      } else {
        assert r == Filter(s[..|s| - 1], p);
      }
    }
  }

  /** An element survives filtering exactly when it occurs in the input and satisfies the test. */
  lemma {:induction false} FilterMembership<T>(s: seq<T>, p: T -> bool, x: T)
    ensures x in Filter(s, p) <==> x in s && p(x)
  {
    if s != [] {
      var init := s[..|s| - 1];
      FilterMembership(init, p, x);
      assert s == init + [s[|s| - 1]];
    }
  }

  /** The comparison `le` is total and transitive, as a sort key order is. */
  ghost predicate TotalPreorder<T(!new)>(le: (T, T) -> bool) {
    && (forall a, b :: le(a, b) || le(b, a))
    && (forall a, b, c :: le(a, b) && le(b, c) ==> le(a, c))
  }

  predicate Sorted<T>(s: seq<T>, le: (T, T) -> bool) {
    forall i, j | 0 <= i < j < |s| :: le(s[i], s[j])
  }

  /** Inserts `x` after every element it does not precede (so after its equals: stability). */
  function Insert<T>(s: seq<T>, x: T, le: (T, T) -> bool): (r: seq<T>)
    ensures |r| == |s| + 1
    ensures multiset(r) == multiset(s) + multiset{x}
  {
    if s == [] then [x]
    else if le(s[|s| - 1], x) then s + [x]
    else
      assert s == s[..|s| - 1] + [s[|s| - 1]];
      Insert(s[..|s| - 1], x, le) + [s[|s| - 1]]
  }

  /** Python's stable `list.sort` / `sorted` with the comparison `le` on keys. */
  function SortBy<T>(s: seq<T>, le: (T, T) -> bool): (r: seq<T>)
    ensures multiset(r) == multiset(s) && |r| == |s|
  {
    if s == [] then []
    else
      assert s == s[..|s| - 1] + [s[|s| - 1]];
      Insert(SortBy(s[..|s| - 1], le), s[|s| - 1], le)
  }

  lemma {:induction false} InsertSorted<T(!new)>(s: seq<T>, x: T, le: (T, T) -> bool)
    requires TotalPreorder(le) && Sorted(s, le)
    ensures Sorted(Insert(s, x, le), le)
  {
    if s != [] && !le(s[|s| - 1], x) {
      var init := s[..|s| - 1];
      var last := s[|s| - 1];
      InsertSorted(init, x, le);
      var r := Insert(init, x, le);
      forall e | e in r
        ensures le(e, last)
      {
        assert e in multiset(r);
        if e != x {
          assert e in multiset(init);
          var k :| 0 <= k < |init| && init[k] == e;
          assert s[k] == e;
        }
      }
      forall i, j | 0 <= i < j < |r + [last]|
        ensures le((r + [last])[i], (r + [last])[j])
      {
        if j == |r| {
          assert (r + [last])[i] in r;
        }
      }
    }
  }

  /** The sorted list is a permutation of the input, in key order. */
  lemma {:induction false} SortBySorted<T(!new)>(s: seq<T>, le: (T, T) -> bool)
    requires TotalPreorder(le)
    ensures Sorted(SortBy(s, le), le)
    ensures multiset(SortBy(s, le)) == multiset(s)
  {
    if s != [] {
      SortBySorted(s[..|s| - 1], le);
      InsertSorted(SortBy(s[..|s| - 1], le), s[|s| - 1], le);
    }
  }

  /** Items whose keys compare equal to `x`'s: Python's sort keeps them in their input order. */
  function EquivalentTo<T>(x: T, le: (T, T) -> bool): T -> bool {
    y => le(y, x) && le(x, y)
  }

  lemma {:induction false} InsertStable<T(!new)>(s: seq<T>, e: T, le: (T, T) -> bool, x: T)
    requires TotalPreorder(le) && Sorted(s, le)
    ensures Filter(Insert(s, e, le), EquivalentTo(x, le))
         == Filter(s, EquivalentTo(x, le)) + (if EquivalentTo(x, le)(e) then [e] else [])
  {
    var q := EquivalentTo(x, le);
    if s == [] {
      assert Filter([e], q) == Filter([], q) + (if q(e) then [e] else []);
    } else if le(s[|s| - 1], e) {
      assert (s + [e])[..|s + [e]| - 1] == s;
    } else {
      var init := s[..|s| - 1];
      var last := s[|s| - 1];
      InsertStable(init, e, le, x);
      var r := Insert(init, e, le);
      assert (r + [last])[..|r + [last]| - 1] == r;
      if q(e) {
        assert !q(last);
      }
    }
  }

  /** Stability: among items with equal keys the sorted list keeps the input order. */
  lemma {:induction false} SortByStable<T(!new)>(s: seq<T>, le: (T, T) -> bool, x: T)
    requires TotalPreorder(le)
    ensures Filter(SortBy(s, le), EquivalentTo(x, le)) == Filter(s, EquivalentTo(x, le))
  {
    if s != [] {
      var init := s[..|s| - 1];
      SortByStable(init, le, x);
      SortBySorted(init, le);
      InsertStable(SortBy(init, le), s[|s| - 1], le, x);
    }
  }

  /** Reordering the terms does not change a real sum. */
  lemma {:induction false} SumRealPermutation<T>(a: seq<T>, b: seq<T>, f: T -> real)
    requires multiset(a) == multiset(b)
    ensures SumReal(a, f) == SumReal(b, f)
    decreases |a|
  {
    if a == [] {
      assert |b| == |multiset(b)| == 0;
    } else {
      var x := a[|a| - 1];
      var a' := a[..|a| - 1];
      assert a == a' + [x];
      assert x in multiset(b);
      var k :| 0 <= k < |b| && b[k] == x;
      var b' := b[..k] + b[k + 1..];
      assert b == b[..k] + [x] + b[k + 1..];
      assert multiset(b) == multiset(b[..k]) + multiset{x} + multiset(b[k + 1..]);
      assert multiset(a) == multiset(a') + multiset{x};
      assert multiset(b') == multiset(b[..k]) + multiset(b[k + 1..]);
      assert multiset(b') == multiset(b) - multiset{x};
      assert multiset(a') == multiset(a) - multiset{x};
      SumRealPermutation(a', b', f);
      SumRealAppend(b[..k], [x], f);
      SumRealAppend(b[..k] + [x], b[k + 1..], f);
      SumRealAppend(b[..k], b[k + 1..], f);
      assert [x][..0] == [];
    }
  }

  /** Reordering the terms does not change an integer sum. */
  lemma {:induction false} SumIntPermutation<T>(a: seq<T>, b: seq<T>, f: T -> int)
    requires multiset(a) == multiset(b)
    ensures SumInt(a, f) == SumInt(b, f)
    decreases |a|
  {
    if a == [] {
      assert |b| == |multiset(b)| == 0;
    } else {
      var x := a[|a| - 1];
      var a' := a[..|a| - 1];
      assert a == a' + [x];
      assert x in multiset(b);
      var k :| 0 <= k < |b| && b[k] == x;
      var b' := b[..k] + b[k + 1..];
      assert b == b[..k] + [x] + b[k + 1..];
      assert multiset(b) == multiset(b[..k]) + multiset{x} + multiset(b[k + 1..]);
      assert multiset(a) == multiset(a') + multiset{x};
      assert multiset(b') == multiset(b[..k]) + multiset(b[k + 1..]);
      assert multiset(b') == multiset(b) - multiset{x};
      assert multiset(a') == multiset(a) - multiset{x};
      SumIntPermutation(a', b', f);
      SumIntAppend(b[..k], [x], f);
      SumIntAppend(b[..k] + [x], b[k + 1..], f);
      SumIntAppend(b[..k], b[k + 1..], f);
      assert [x][..0] == [];
    }
  }

  /** `set(key(x) for x in s)`: at most one key per element, empty only for an empty list. */
  function KeySet<T, K(==)>(s: seq<T>, key: T -> K): (r: set<K>)
    ensures |r| <= |s|
    ensures r == {} <==> s == []
    ensures forall i | 0 <= i < |s| :: key(s[i]) in r
    ensures forall k | k in r :: exists i | 0 <= i < |s| :: key(s[i]) == k
  {
    if s == [] then {}
    else
      var init := KeySet(s[..|s| - 1], key);
      assert forall i | 0 <= i < |s| - 1 :: s[..|s| - 1][i] == s[i];
      init + {key(s[|s| - 1])}
  }

  /** Every element passes exactly one of a test and its negation. */
  lemma {:induction false} FilterPartition<T>(s: seq<T>, p: T -> bool, q: T -> bool)
    requires forall x :: q(x) <==> !p(x)
    ensures |Filter(s, p)| + |Filter(s, q)| == |s|
  {
    if s != [] {
      FilterPartition(s[..|s| - 1], p, q);
    }
  }

  /** Three mutually exclusive tests select at most `|s|` elements in all. */
  lemma {:induction false} FilterDisjoint3<T>(s: seq<T>, p: T -> bool, q: T -> bool, r: T -> bool)
    requires forall x :: !(p(x) && q(x)) && !(p(x) && r(x)) && !(q(x) && r(x))
    ensures |Filter(s, p)| + |Filter(s, q)| + |Filter(s, r)| <= |s|
  {
    if s != [] {
      FilterDisjoint3(s[..|s| - 1], p, q, r);
    }
  }

  /** A filter comes out empty exactly when no element passes the test. */
  lemma {:induction false} FilterEmpty<T>(s: seq<T>, p: T -> bool)
    ensures Filter(s, p) == [] <==> forall i | 0 <= i < |s| :: !p(s[i])
  {
    if s != [] {
      FilterEmpty(s[..|s| - 1], p);
      assert forall i | 0 <= i < |s| - 1 :: s[..|s| - 1][i] == s[i];
    }
  }

  function Indicator<T>(p: T -> bool): T -> int {
    x => if p(x) then 1 else 0
  }

  lemma {:induction false} FilterLengthIsSum<T>(s: seq<T>, p: T -> bool)
    ensures |Filter(s, p)| == SumInt(s, Indicator(p))
  {
    if s != [] {
      FilterLengthIsSum(s[..|s| - 1], p);
    }
  }

  /** How many elements pass a test does not depend on their order. */
  lemma FilterCountPermutation<T>(a: seq<T>, b: seq<T>, p: T -> bool)
    requires multiset(a) == multiset(b)
    ensures |Filter(a, p)| == |Filter(b, p)|
  {
    FilterLengthIsSum(a, p);
    FilterLengthIsSum(b, p);
    SumIntPermutation(a, b, Indicator(p));
  }
}
