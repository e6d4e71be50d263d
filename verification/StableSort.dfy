/** Array.prototype.sort with a consistent comparator: the stable sort, as a function. */
module StableSort {
  import opened Seqs

  ghost predicate TotalPreorder<T(!new)>(le: (T, T) -> bool) {
    && (forall x, y :: le(x, y) || le(y, x))
    && (forall x, y, z :: le(x, y) && le(y, z) ==> le(x, z))
  }

  ghost predicate Sorted<T>(xs: seq<T>, le: (T, T) -> bool) {
    forall i, j :: 0 <= i < j < |xs| ==> le(xs[i], xs[j])
  }

  /** Puts `x` in front of the first element it may precede. */
  function Insert<T>(x: T, xs: seq<T>, le: (T, T) -> bool): seq<T> {
    if xs == [] || le(x, xs[0]) then [x] + xs else [xs[0]] + Insert(x, xs[1..], le)
  }

  function Sort<T>(xs: seq<T>, le: (T, T) -> bool): seq<T> {
    if xs == [] then [] else Insert(xs[0], Sort(xs[1..], le), le)
  }

  /** Merges two runs, the left one first among equals. */
  function Merge<T>(a: seq<T>, b: seq<T>, le: (T, T) -> bool): seq<T> {
    if a == [] then b
    else if b == [] then a
    else if le(a[0], b[0]) then [a[0]] + Merge(a[1..], b, le)
    else [b[0]] + Merge(a, b[1..], le)
  }

  // ---------- sorting sorts, permutes, and keeps equals in place ----------

  lemma {:induction false} InsertAdds<T(!new)>(x: T, xs: seq<T>, le: (T, T) -> bool)
    ensures multiset(Insert(x, xs, le)) == multiset(xs) + multiset{x} && |Insert(x, xs, le)| == |xs| + 1
  {
    if xs != [] && !le(x, xs[0]) {
      InsertAdds(x, xs[1..], le);
      assert xs == [xs[0]] + xs[1..];
    }
  }

  lemma InsertMembers<T(!new)>(x: T, xs: seq<T>, le: (T, T) -> bool)
    ensures forall y :: y in Insert(x, xs, le) <==> y == x || y in xs
  {
    InsertAdds(x, xs, le);
    forall y
      ensures y in Insert(x, xs, le) <==> y == x || y in xs
    {
      assert y in multiset(Insert(x, xs, le)) <==> y in multiset(xs) + multiset{x};
    }
  }

  lemma {:induction false} InsertKeeps<T(!new)>(x: T, xs: seq<T>, le: (T, T) -> bool)
    requires TotalPreorder(le) && Sorted(xs, le)
    ensures Sorted(Insert(x, xs, le), le)
  {
    if xs == [] || le(x, xs[0]) {
    } else {
      InsertKeeps(x, xs[1..], le);
      InsertMembers(x, xs[1..], le);
      var r := Insert(x, xs[1..], le);
      forall j | 0 <= j < |r|
        ensures le(xs[0], r[j])
      {
        assert r[j] in r;
        assert le(xs[0], x);
      }
    }
  }

  lemma {:induction false} SortSorts<T(!new)>(xs: seq<T>, le: (T, T) -> bool)
    requires TotalPreorder(le)
    ensures Sorted(Sort(xs, le), le) && multiset(Sort(xs, le)) == multiset(xs)
  {
    if xs != [] {
      SortSorts(xs[1..], le);
      InsertKeeps(xs[0], Sort(xs[1..], le), le);
      InsertAdds(xs[0], Sort(xs[1..], le), le);
      assert xs == [xs[0]] + xs[1..];
    }
  }

  /** Whatever the order, sorting only rearranges. */
  lemma {:induction false} SortRearranges<T(!new)>(xs: seq<T>, le: (T, T) -> bool)
    ensures multiset(Sort(xs, le)) == multiset(xs) && |Sort(xs, le)| == |xs|
  {
    if xs != [] {
      SortRearranges(xs[1..], le);
      InsertAdds(xs[0], Sort(xs[1..], le), le);
      assert xs == [xs[0]] + xs[1..];
    }
  }

  lemma SortMembers<T(!new)>(xs: seq<T>, le: (T, T) -> bool, x: T)
    ensures x in Sort(xs, le) <==> x in xs
  {
    SortRearranges(xs, le);
    assert x in multiset(xs) <==> x in multiset(Sort(xs, le));
  }

  /** Two orders that agree on the elements sort them alike. */
  lemma {:induction false} SortAgrees<T(!new)>(xs: seq<T>, le: (T, T) -> bool, le': (T, T) -> bool)
    requires forall x, y :: x in xs && y in xs ==> le(x, y) == le'(x, y)
    ensures Sort(xs, le) == Sort(xs, le')
  {
    if xs != [] {
      SortAgrees(xs[1..], le, le');
      forall y | y in Sort(xs[1..], le')
        ensures le(xs[0], y) == le'(xs[0], y)
      {
        SortMembers(xs[1..], le', y);
      }
      InsertAgrees(xs[0], Sort(xs[1..], le'), le, le');
    }
  }

  lemma {:induction false} InsertAgrees<T(!new)>(x: T, xs: seq<T>, le: (T, T) -> bool, le': (T, T) -> bool)
    requires forall y :: y in xs ==> le(x, y) == le'(x, y)
    ensures Insert(x, xs, le) == Insert(x, xs, le')
  {
    if xs != [] {
      assert le(x, xs[0]) == le'(x, xs[0]);
      InsertAgrees(x, xs[1..], le, le');
    }
  }

  lemma {:induction false} SortOfSorted<T(!new)>(xs: seq<T>, le: (T, T) -> bool)
    requires Sorted(xs, le)
    ensures Sort(xs, le) == xs
  {
    if xs != [] {
      SortOfSorted(xs[1..], le);
      assert xs == [xs[0]] + xs[1..];
    }
  }

  ghost predicate Distinct<T>(xs: seq<T>) {
    forall i, j :: 0 <= i < j < |xs| ==> xs[i] != xs[j]
  }

  lemma {:induction false} InsertDistinct<T(!new)>(x: T, xs: seq<T>, le: (T, T) -> bool)
    requires Distinct(xs) && x !in xs
    ensures Distinct(Insert(x, xs, le))
    ensures forall y :: y in Insert(x, xs, le) <==> y == x || y in xs
  {
    if xs == [] || le(x, xs[0]) {
    } else {
      InsertDistinct(x, xs[1..], le);
      assert xs == [xs[0]] + xs[1..];
      assert xs[0] !in xs[1..];
    }
  }

  lemma {:induction false} SortDistinct<T(!new)>(xs: seq<T>, le: (T, T) -> bool)
    requires Distinct(xs)
    ensures Distinct(Sort(xs, le))
    ensures forall y :: y in Sort(xs, le) <==> y in xs
  {
    if xs != [] {
      SortDistinct(xs[1..], le);
      assert xs == [xs[0]] + xs[1..];
      assert xs[0] !in xs[1..];
      InsertDistinct(xs[0], Sort(xs[1..], le), le);
    }
  }

  /** Ascending numbers, the comparator (a, b) => a - b. */
  function Ascending(): (int, int) -> bool {
    (a, b) => a <= b
  }

  lemma SortAscending(xs: seq<int>)
    requires Distinct(xs)
    ensures forall i, j :: 0 <= i < j < |Sort(xs, Ascending())| ==> Sort(xs, Ascending())[i] < Sort(xs, Ascending())[j]
    ensures forall y :: y in Sort(xs, Ascending()) <==> y in xs
  {
    assert TotalPreorder(Ascending());
    SortSorts(xs, Ascending());
    SortDistinct(xs, Ascending());
    var r := Sort(xs, Ascending());
    forall i, j | 0 <= i < j < |r|
      ensures r[i] < r[j]
    {
      assert Ascending()(r[i], r[j]) && r[i] != r[j];
    }
  }

  /** The elements tied with `x`. */
  function Ties<T(!new)>(x: T, le: (T, T) -> bool): T -> bool {
    y => le(x, y) && le(y, x)
  }

  lemma FilterHead<T(!new)>(x: T, xs: seq<T>, p: T -> bool)
    ensures Filter([x] + xs, p) == (if p(x) then [x] else []) + Filter(xs, p)
  {
    FilterConcat([x], xs, p);
    FilterOne(x, p);
  }

  lemma {:induction false} InsertStable<T(!new)>(x: T, xs: seq<T>, le: (T, T) -> bool, c: T)
    requires TotalPreorder(le)
    ensures Filter(Insert(x, xs, le), Ties(c, le)) == Filter([x] + xs, Ties(c, le))
  {
    if xs == [] || le(x, xs[0]) {
    } else {
      InsertStable(x, xs[1..], le, c);
      var p := Ties(c, le);
      FilterHead(xs[0], Insert(x, xs[1..], le), p);
      FilterHead(x, xs[1..], p);
      FilterHead(xs[0], xs[1..], p);
      FilterHead(x, xs, p);
      assert xs == [xs[0]] + xs[1..];
    }
  }

  lemma {:induction false} SortStable<T(!new)>(xs: seq<T>, le: (T, T) -> bool, c: T)
    requires TotalPreorder(le)
    ensures Filter(Sort(xs, le), Ties(c, le)) == Filter(xs, Ties(c, le))
  {
    if xs != [] {
      SortStable(xs[1..], le, c);
      InsertStable(xs[0], Sort(xs[1..], le), le, c);
      FilterHead(xs[0], Sort(xs[1..], le), Ties(c, le));
      FilterHead(xs[0], xs[1..], Ties(c, le));
      assert xs == [xs[0]] + xs[1..];
    }
  }

  /** `r` and `s` agree on every class of tied elements, in order. */
  ghost predicate SameTies<T(!new)>(r: seq<T>, s: seq<T>, le: (T, T) -> bool) {
    forall c :: Filter(r, Ties(c, le)) == Filter(s, Ties(c, le))
  }

  lemma SameTiesMember<T(!new)>(r: seq<T>, s: seq<T>, le: (T, T) -> bool, x: T)
    requires TotalPreorder(le) && SameTies(r, s, le) && x in r
    ensures x in s
  {
    FilterMember(r, Ties(x, le), x);
    FilterMember(s, Ties(x, le), x);
  }

  lemma SameHeads<T(!new)>(r: seq<T>, s: seq<T>, le: (T, T) -> bool)
    requires TotalPreorder(le) && Sorted(r, le) && Sorted(s, le) && SameTies(r, s, le)
    requires r != [] && s != []
    ensures r[0] == s[0]
  {
    SameTiesMember(r, s, le, r[0]);
    SameTiesMember(s, r, le, s[0]);
    assert le(r[0], s[0]) && le(s[0], r[0]);
    var p := Ties(r[0], le);
    assert r == [r[0]] + r[1..] && s == [s[0]] + s[1..];
    FilterHead(r[0], r[1..], p);
    FilterHead(s[0], s[1..], p);
    assert Filter(r, p)[0] == r[0] && Filter(s, p)[0] == s[0];
  }

  lemma SamePrefix<T>(p: seq<T>, a: seq<T>, b: seq<T>)
    requires p + a == p + b
    ensures a == b
  {
    assert a == (p + a)[|p|..] && b == (p + b)[|p|..];
  }

  /** Sorted and stable leaves one possible answer, so any engine's sort is this one. */
  lemma {:induction false} StableSortUnique<T(!new)>(r: seq<T>, s: seq<T>, le: (T, T) -> bool)
    requires TotalPreorder(le) && Sorted(r, le) && Sorted(s, le) && SameTies(r, s, le)
    ensures r == s
  {
    if r == [] {
      if s != [] { SameTiesMember(s, r, le, s[0]); }
    } else {
      SameTiesMember(r, s, le, r[0]);
      SameHeads(r, s, le);
      assert r == [r[0]] + r[1..] && s == [s[0]] + s[1..];
      forall c
        ensures Filter(r[1..], Ties(c, le)) == Filter(s[1..], Ties(c, le))
      {
        FilterHead(r[0], r[1..], Ties(c, le));
        FilterHead(s[0], s[1..], Ties(c, le));
        assert Filter(r, Ties(c, le)) == Filter(s, Ties(c, le));
        SamePrefix(if Ties(c, le)(r[0]) then [r[0]] else [], Filter(r[1..], Ties(c, le)), Filter(s[1..], Ties(c, le)));
      }
      StableSortUnique(r[1..], s[1..], le);
    }
  }

  // ---------- sorting a concatenation is merging ----------

  lemma {:induction false} InsertMerge<T(!new)>(x: T, p: seq<T>, q: seq<T>, le: (T, T) -> bool)
    requires TotalPreorder(le)
    ensures Insert(x, Merge(p, q, le), le) == Merge(Insert(x, p, le), q, le)
    decreases |p| + |q|
  {
    if q == [] {
    } else if p == [] {
      if !le(x, q[0]) { InsertMerge(x, p, q[1..], le); }
    } else if le(p[0], q[0]) {
      if !le(x, p[0]) { InsertMerge(x, p[1..], q, le); }
    } else {
      if !le(x, q[0]) { InsertMerge(x, p, q[1..], le); }
    }
  }

  lemma {:induction false} SortConcat<T(!new)>(a: seq<T>, b: seq<T>, le: (T, T) -> bool)
    requires TotalPreorder(le)
    ensures Sort(a + b, le) == Merge(Sort(a, le), Sort(b, le), le)
  {
    if a == [] {
      assert a + b == b;
    } else {
      SortConcat(a[1..], b, le);
      assert (a + b)[1..] == a[1..] + b;
      InsertMerge(a[0], Sort(a[1..], le), Sort(b, le), le);
    }
  }

  lemma {:induction false} MergeOrdered<T>(a: seq<T>, b: seq<T>, le: (T, T) -> bool)
    requires forall x, y :: x in a && y in b ==> le(x, y)
    ensures Merge(a, b, le) == a + b
  {
    if a != [] && b != [] {
      assert a == [a[0]] + a[1..];
      assert a[0] in a && b[0] in b;
      MergeOrdered(a[1..], b, le);
    }
  }

  // ---------- sorting and filtering ----------

  lemma {:induction false} FilterInsert<T(!new)>(x: T, xs: seq<T>, le: (T, T) -> bool, p: T -> bool)
    requires TotalPreorder(le) && Sorted(xs, le)
    ensures Filter(Insert(x, xs, le), p) == if p(x) then Insert(x, Filter(xs, p), le) else Filter(xs, p)
  {
    if xs == [] {
      FilterHead(x, xs, p);
      assert [x] + xs == [x];
    } else {
      assert xs == [xs[0]] + xs[1..];
      FilterHead(xs[0], xs[1..], p);
      if le(x, xs[0]) {
        FilterHead(x, xs, p);
        var kept := Filter(xs, p);
        if kept != [] {
          FilterMember(xs, p, kept[0]);
          var i :| 0 <= i < |xs| && xs[i] == kept[0];
          assert i > 0 ==> le(xs[0], xs[i]);
        }
      } else {
        FilterInsert(x, xs[1..], le, p);
        FilterHead(xs[0], Insert(x, xs[1..], le), p);
        var rest := Filter(xs[1..], p);
        if p(xs[0]) {
          assert ([xs[0]] + rest)[1..] == rest;
        } else {
          assert Filter(xs, p) == rest;
          assert Filter(Insert(x, xs, le), p) == Filter(Insert(x, xs[1..], le), p);
        }
      }
    }
  }

  /** Filtering a sorted sequence is sorting the filtered one. */
  lemma {:induction false} FilterSort<T(!new)>(xs: seq<T>, le: (T, T) -> bool, p: T -> bool)
    requires TotalPreorder(le)
    ensures Filter(Sort(xs, le), p) == Sort(Filter(xs, p), le)
  {
    if xs != [] {
      assert xs == [xs[0]] + xs[1..];
      FilterSort(xs[1..], le, p);
      SortSorts(xs[1..], le);
      FilterInsert(xs[0], Sort(xs[1..], le), le, p);
      FilterHead(xs[0], xs[1..], p);
      assert p(xs[0]) ==> Filter(xs, p)[1..] == Filter(xs[1..], p);
      assert !p(xs[0]) ==> Filter(xs, p) == Filter(xs[1..], p);
    }
  }

  // ---------- prefixes ----------

  function Take<T>(xs: seq<T>, k: nat): seq<T> {
    if k <= |xs| then xs[..k] else xs
  }

  /** The first k of a merge only depend on the first k of each side. */
  lemma {:induction false} TakeMerge<T(!new)>(a: seq<T>, b: seq<T>, a': seq<T>, b': seq<T>, k: nat, le: (T, T) -> bool)
    requires Take(a, k) == Take(a', k) && Take(b, k) == Take(b', k)
    ensures Take(Merge(a, b, le), k) == Take(Merge(a', b', le), k)
    decreases k
  {
    if k > 0 {
      assert a != [] ==> a' != [] && a[0] == Take(a, k)[0] == a'[0];
      assert a' != [] ==> a != [];
      assert b != [] ==> b' != [] && b[0] == Take(b, k)[0] == b'[0];
      assert b' != [] ==> b != [];
      TakeShrinks(a, a', k);
      TakeShrinks(b, b', k);
      if a != [] && b != [] {
        if le(a[0], b[0]) {
          TakeMerge(a[1..], b, a'[1..], b', k - 1, le);
          TakeHead(a[0], Merge(a[1..], b, le), Merge(a'[1..], b', le), k);
        } else {
          TakeMerge(a, b[1..], a', b'[1..], k - 1, le);
          TakeHead(b[0], Merge(a, b[1..], le), Merge(a', b'[1..], le), k);
        }
      }
    }
  }

  lemma TakeShrinks<T(!new)>(a: seq<T>, a': seq<T>, k: nat)
    requires k > 0 && Take(a, k) == Take(a', k)
    ensures Take(a, k - 1) == Take(a', k - 1)
    ensures (a == []) == (a' == [])
    ensures a != [] ==> Take(a[1..], k - 1) == Take(a'[1..], k - 1)
  {
    assert Take(a, k - 1) == Take(Take(a, k), k - 1) && Take(a', k - 1) == Take(Take(a', k), k - 1);
    if a != [] {
      assert Take(a[1..], k - 1) == Take(a, k)[1..] && Take(a'[1..], k - 1) == Take(a', k)[1..];
    }
  }

  lemma TakeHead<T(!new)>(x: T, m: seq<T>, m': seq<T>, k: nat)
    requires k > 0 && Take(m, k - 1) == Take(m', k - 1)
    ensures Take([x] + m, k) == Take([x] + m', k)
  {
    assert Take([x] + m, k) == [x] + Take(m, k - 1) && Take([x] + m', k) == [x] + Take(m', k - 1);
  }
}
