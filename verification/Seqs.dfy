/** Filtering and summing sequences from the front to the back, as the loops of the code do. */
module Seqs {

  function Filter<T>(xs: seq<T>, p: T -> bool): seq<T> {
    if xs == [] then []
    else Filter(xs[..|xs| - 1], p) + (if p(xs[|xs| - 1]) then [xs[|xs| - 1]] else [])
  }

  lemma {:induction false} FilterMember<T>(xs: seq<T>, p: T -> bool, x: T)
    ensures x in Filter(xs, p) <==> x in xs && p(x)
  {
    if xs != [] {
      FilterMember(xs[..|xs| - 1], p, x);
      assert xs == xs[..|xs| - 1] + [xs[|xs| - 1]];
    }
  }

  lemma {:induction false} FilterConcat<T>(xs: seq<T>, ys: seq<T>, p: T -> bool)
    ensures Filter(xs + ys, p) == Filter(xs, p) + Filter(ys, p)
  {
    if ys == [] {
      assert xs + ys == xs;
    } else {
      FilterConcat(xs, ys[..|ys| - 1], p);
      assert (xs + ys)[..|xs + ys| - 1] == xs + ys[..|ys| - 1];
    }
  }

  lemma FilterOne<T>(x: T, p: T -> bool)
    ensures Filter([x], p) == if p(x) then [x] else []
  {
    assert [x][..0] == [];
  }

  /** Filtering by `q` first makes no difference to `p` when `p` only keeps what `q` keeps. */
  lemma {:induction false} FilterFilter<T>(xs: seq<T>, q: T -> bool, p: T -> bool)
    requires forall x :: x in xs && p(x) ==> q(x)
    ensures Filter(Filter(xs, q), p) == Filter(xs, p)
  {
    if xs != [] {
      var front, last := xs[..|xs| - 1], xs[|xs| - 1];
      FilterFilter(front, q, p);
      assert last in xs;
      if q(last) {
        FilterConcat(Filter(front, q), [last], p);
        FilterOne(last, p);
      } else {
        assert !p(last);
        assert Filter(xs, q) == Filter(front, q) && Filter(xs, p) == Filter(front, p);
      }
    }
  }

  lemma {:induction false} FilterAgree<T>(xs: seq<T>, p: T -> bool, q: T -> bool)
    requires forall x :: x in xs ==> p(x) == q(x)
    ensures Filter(xs, p) == Filter(xs, q)
  {
    if xs != [] {
      FilterAgree(xs[..|xs| - 1], p, q);
    }
  }

  lemma {:induction false} FilterNone<T>(xs: seq<T>, p: T -> bool)
    requires forall x :: x in xs ==> !p(x)
    ensures Filter(xs, p) == []
  {
    if xs != [] { FilterNone(xs[..|xs| - 1], p); }
  }

  function Both<T>(p: T -> bool, q: T -> bool): T -> bool {
    x => p(x) && q(x)
  }

  lemma {:induction false} FilterBoth<T>(xs: seq<T>, p: T -> bool, q: T -> bool)
    ensures Filter(Filter(xs, p), q) == Filter(xs, Both(p, q))
  {
    if xs != [] {
      var front, last := xs[..|xs| - 1], xs[|xs| - 1];
      FilterBoth(front, p, q);
      if p(last) {
        FilterConcat(Filter(front, p), [last], q);
        FilterOne(last, q);
      } else {
        assert Filter(xs, p) == Filter(front, p);
      }
    }
  }

  lemma FilterCommutes<T>(xs: seq<T>, p: T -> bool, q: T -> bool)
    ensures Filter(Filter(xs, p), q) == Filter(Filter(xs, q), p)
  {
    FilterBoth(xs, p, q);
    FilterBoth(xs, q, p);
    FilterAgree(xs, Both(p, q), Both(q, p));
  }

  function Sum(xs: seq<real>): real {
    if xs == [] then 0.0 else Sum(xs[..|xs| - 1]) + xs[|xs| - 1]
  }

  lemma {:induction false} SumConcat(xs: seq<real>, ys: seq<real>)
    ensures Sum(xs + ys) == Sum(xs) + Sum(ys)
  {
    if ys == [] {
      assert xs + ys == xs;
    } else {
      SumConcat(xs, ys[..|ys| - 1]);
      assert (xs + ys)[..|xs + ys| - 1] == xs + ys[..|ys| - 1];
    }
  }

  function Mean(xs: seq<real>): real
    requires xs != []
  {
    Sum(xs) / |xs| as real
  }

  function SumOf<T>(xs: seq<T>, f: T -> real): real {
    if xs == [] then 0.0 else SumOf(xs[..|xs| - 1], f) + f(xs[|xs| - 1])
  }

  lemma SumOfSnoc<T>(xs: seq<T>, x: T, f: T -> real)
    ensures SumOf(xs + [x], f) == SumOf(xs, f) + f(x)
  {
    assert (xs + [x])[..|xs|] == xs;
  }

  lemma {:induction false} SumOfConcat<T>(xs: seq<T>, ys: seq<T>, f: T -> real)
    ensures SumOf(xs + ys, f) == SumOf(xs, f) + SumOf(ys, f)
  {
    if ys == [] {
      assert xs + ys == xs;
    } else {
      SumOfConcat(xs, ys[..|ys| - 1], f);
      assert (xs + ys)[..|xs + ys| - 1] == xs + ys[..|ys| - 1];
    }
  }

  lemma CancelOne<T>(a: multiset<T>, b: multiset<T>, c: multiset<T>, x: T)
    requires a + multiset{x} == b + (multiset{x} + c)
    ensures a == b + c
  {
    forall y ensures a[y] == (b + c)[y] {
      assert (a + multiset{x})[y] == (b + (multiset{x} + c))[y];
    }
  }

  /** A sum depends only on how often each element occurs. */
  lemma {:induction false} SumOfPermutation<T>(xs: seq<T>, ys: seq<T>, f: T -> real)
    requires multiset(xs) == multiset(ys)
    ensures SumOf(xs, f) == SumOf(ys, f)
  {
    if xs == [] {
      assert |multiset(ys)| == 0;
    } else {
      var front, x := xs[..|xs| - 1], xs[|xs| - 1];
      assert xs == front + [x];
      assert x in multiset(ys);
      var i :| 0 <= i < |ys| && ys[i] == x;
      var before, after := ys[..i], ys[i + 1..];
      assert ys == before + ([x] + after);
      assert multiset(xs) == multiset(front) + multiset{x};
      assert multiset(ys) == multiset(before) + (multiset{x} + multiset(after));
      assert multiset(before + after) == multiset(before) + multiset(after);
      CancelOne(multiset(front), multiset(before), multiset(after), x);
      SumOfPermutation(front, before + after, f);
      SumOfConcat(before, [x] + after, f);
      SumOfConcat([x], after, f);
      SumOfConcat(before, after, f);
      assert [x][..0] == [];
      assert SumOf([x], f) == f(x);
    }
  }

  lemma {:induction false} SumOfAgree<T>(xs: seq<T>, f: T -> real, g: T -> real)
    requires forall x :: x in xs ==> f(x) == g(x)
    ensures SumOf(xs, f) == SumOf(xs, g)
  {
    if xs != [] { SumOfAgree(xs[..|xs| - 1], f, g); }
  }

  /** Raising one term of a sum over distinct keys raises the sum. */
  lemma {:induction false} SumOfBump<T>(ks: seq<T>, f: T -> real, g: T -> real, k0: T, c: real)
    requires forall i, j :: 0 <= i < j < |ks| ==> ks[i] != ks[j]
    requires forall k :: k in ks ==> g(k) == f(k) + (if k == k0 then c else 0.0)
    ensures SumOf(ks, g) == SumOf(ks, f) + (if k0 in ks then c else 0.0)
  {
    if ks != [] {
      var front, last := ks[..|ks| - 1], ks[|ks| - 1];
      SumOfBump(front, f, g, k0, c);
      assert ks == front + [last];
      assert last !in front;
    }
  }

  function HasKey<T>(key: T -> int, k: int): T -> bool {
    x => key(x) == k
  }

  /** The sum over the group of each key. */
  function GroupSum<T>(xs: seq<T>, key: T -> int, f: T -> real): int -> real {
    k => SumOf(Filter(xs, HasKey(key, k)), f)
  }

  /** Summing group by group is summing all, when the distinct keys cover every element. */
  lemma {:induction false} SumByGroups<T>(xs: seq<T>, key: T -> int, f: T -> real, ks: seq<int>)
    requires forall i, j :: 0 <= i < j < |ks| ==> ks[i] != ks[j]
    requires forall x :: x in xs ==> key(x) in ks
    ensures SumOf(ks, GroupSum(xs, key, f)) == SumOf(xs, f)
  {
    if xs == [] {
      SumOfZero(ks, GroupSum(xs, key, f));
    } else {
      var front, last := xs[..|xs| - 1], xs[|xs| - 1];
      assert xs == front + [last];
      SumByGroups(front, key, f, ks);
      forall k | k in ks
        ensures GroupSum(xs, key, f)(k) == GroupSum(front, key, f)(k) + (if k == key(last) then f(last) else 0.0)
      {
        var kept := Filter(front, HasKey(key, k));
        if key(last) == k {
          assert (kept + [last])[..|kept|] == kept;
        } else {
          assert Filter(xs, HasKey(key, k)) == kept;
        }
      }
      SumOfBump(ks, GroupSum(front, key, f), GroupSum(xs, key, f), key(last), f(last));
      assert last in xs;
    }
  }

  lemma {:induction false} SumOfZero<T>(ks: seq<T>, f: T -> real)
    requires forall k :: k in ks ==> f(k) == 0.0
    ensures SumOf(ks, f) == 0.0
  {
    if ks != [] {
      var front, last := ks[..|ks| - 1], ks[|ks| - 1];
      assert ks == front + [last];
      SumOfZero(front, f);
      assert last in ks && f(last) == 0.0;
    }
  }

  // ---------- means ----------

  /** `x`, taken once per element, makes up the sum. */
  ghost predicate IsMean<T>(x: real, xs: seq<T>, f: T -> real) {
    xs != [] && x * |xs| as real == SumOf(xs, f)
  }

  /** `x` lies between two of the elements. */
  ghost predicate LiesAmong<T>(x: real, xs: seq<T>, f: T -> real) {
    exists i, j :: 0 <= i < |xs| && 0 <= j < |xs| && f(xs[i]) <= x <= f(xs[j])
  }

  lemma {:induction false} SumBounded<T>(xs: seq<T>, f: T -> real, lo: real, hi: real)
    requires forall i :: 0 <= i < |xs| ==> lo <= f(xs[i]) <= hi
    ensures lo * |xs| as real <= SumOf(xs, f) <= hi * |xs| as real
  {
    if xs != [] { SumBounded(xs[..|xs| - 1], f, lo, hi); }
  }

  lemma Extremes<T>(xs: seq<T>, f: T -> real) returns (i: nat, j: nat)
    requires xs != []
    ensures i < |xs| && j < |xs|
    ensures forall k :: 0 <= k < |xs| ==> f(xs[i]) <= f(xs[k]) <= f(xs[j])
  {
    i, j := 0, 0;
    for n := 1 to |xs|
      invariant i < n && j < n
      invariant forall k :: 0 <= k < n ==> f(xs[i]) <= f(xs[k]) <= f(xs[j])
    {
      if f(xs[n]) < f(xs[i]) { i := n; }
      if f(xs[n]) > f(xs[j]) { j := n; }
    }
  }

  lemma SameOrder(x: real, y: real, n: real)
    requires n > 0.0
    ensures x < y ==> x * n < y * n
    ensures x * n == y * n ==> x == y
  {
    if x < y {
      assert (y - x) * n > 0.0;
    } else if y < x {
      assert (x - y) * n > 0.0;
    }
  }

  lemma DividesBack(a: real, b: real)
    requires b != 0.0
    ensures a / b * b == a
  {
  }

  lemma MeanTimesCount(xs: seq<real>)
    requires xs != []
    ensures Mean(xs) * |xs| as real == Sum(xs)
  {
  }

  lemma MeanUnique<T>(x: real, y: real, xs: seq<T>, f: T -> real)
    requires IsMean(x, xs, f) && IsMean(y, xs, f)
    ensures x == y
  {
    SameOrder(x, y, |xs| as real);
  }

  lemma MeanBetween<T>(x: real, xs: seq<T>, f: T -> real)
    requires IsMean(x, xs, f)
    ensures LiesAmong(x, xs, f)
  {
    var i, j := Extremes(xs, f);
    SumBounded(xs, f, f(xs[i]), f(xs[j]));
    SameOrder(x, f(xs[i]), |xs| as real);
    SameOrder(f(xs[j]), x, |xs| as real);
  }

  /** `f` where `p` holds and nothing elsewhere. */
  function Gate<T>(p: T -> bool, f: T -> real): T -> real {
    x => if p(x) then f(x) else 0.0
  }

  lemma {:induction false} SumOfFiltered<T>(xs: seq<T>, p: T -> bool, f: T -> real)
    ensures SumOf(Filter(xs, p), f) == SumOf(xs, Gate(p, f))
  {
    if xs != [] {
      var front, last := xs[..|xs| - 1], xs[|xs| - 1];
      SumOfFiltered(front, p, f);
      if p(last) {
        assert (Filter(front, p) + [last])[..|Filter(front, p)|] == Filter(front, p);
      } else {
        assert Filter(xs, p) == Filter(front, p);
      }
    }
  }

  /** A sum is what one part brings and what the rest brings. */
  lemma {:induction false} SumOfSplit<T(!new)>(xs: seq<T>, p: T -> bool, q: T -> bool, f: T -> real)
    requires forall x :: p(x) != q(x)
    ensures SumOf(xs, f) == SumOf(Filter(xs, p), f) + SumOf(Filter(xs, q), f)
  {
    SumOfFiltered(xs, p, f);
    SumOfFiltered(xs, q, f);
    if xs != [] {
      var front := xs[..|xs| - 1];
      SumOfSplit(front, p, q, f);
      SumOfFiltered(front, p, f);
      SumOfFiltered(front, q, f);
    }
  }
}
