/** The stable hourly source the finance and metrics handlers query, and the months of a request
    that a cache could not answer. */
module HourlySource {
  import opened Seqs
  import opened Grouping
  import opened LocalBuckets
  import opened LocalMonths

  /** Hours reported by `now`. */
  function Reported<T>(now: int): Entry<T> -> bool {
    (s: Entry<T>) => s.ts.Some? ==> s.ts.value < now
  }

  function Within<T>(start: int, end: int): Entry<T> -> bool {
    (s: Entry<T>) => s.ts.Some? ==> start <= s.ts.value <= end
  }

  /** What the handler answers at `now` for a range of hours. */
  function Fetch<T>(log: seq<Entry<T>>, now: int, start: int, end: int): seq<Entry<T>> {
    Filter(Filter(log, Reported(now)), Within(start, end))
  }

  function MonthLog<T>(g: Grid, log: seq<Entry<T>>, month: int): seq<Entry<T>> {
    Filter(log, InBucket(g.unitOf, month))
  }

  /** The span queried covers the requested part of `month`. */
  ghost predicate SpanCovers(g: Grid, start: int, end: int, month: int, lo: int, hi: int) {
    && (lo <= start || lo <= g.unitStart(month))
    && (hi >= end || hi >= g.unitStart(month + 1) - 1)
  }

  ghost predicate MonthsOf(g: Grid, first: int, months: seq<Month>) {
    forall i :: 0 <= i < |months| ==> months[i] == MonthOn(g, first + i)
  }

  lemma RangeMonths(g: Grid, start: int, end: int, months: seq<Month>)
    requires IsRange(g, start, end) && MonthsUpTo(g, start, end, months)
    ensures MonthsOf(g, g.unitOf(start), months)
    ensures |months| == g.unitOf(end) - g.unitOf(start) + 1
  {
    MonthsSpanRange(g, start, end, months);
  }

  ghost predicate Missing(g: Grid, first: int, n: int, done: set<int>, missing: seq<Month>) {
    && (forall i :: 0 <= i < |missing| ==> missing[i] == MonthOn(g, missing[i].key) && missing[i].key !in done)
    && (forall i :: 0 <= i < |missing| ==> first <= missing[i].key < first + n)
    && (forall i, j :: 0 <= i < j < |missing| ==> missing[i].key < missing[j].key)
    && (forall k :: first <= k < first + n ==> k in done || exists i :: 0 <= i < |missing| && missing[i].key == k)
    && (forall k :: k in done ==> first <= k < first + n)
  }

  lemma MissOne(g: Grid, first: int, n: int, done: set<int>, missing: seq<Month>)
    requires n >= 0 && Missing(g, first, n, done, missing)
    ensures Missing(g, first, n + 1, done, missing + [MonthOn(g, first + n)])
    ensures Missing(g, first, n + 1, done + {first + n}, missing)
  {
    var more := missing + [MonthOn(g, first + n)];
    forall k | first <= k < first + n + 1
      ensures k in done || exists i :: 0 <= i < |more| && more[i].key == k
    {
      if k == first + n {
        assert more[|missing|].key == k;
      } else if k !in done {
        var i :| 0 <= i < |missing| && missing[i].key == k;
        assert more[i].key == k;
      }
    }
  }

  lemma {:induction false} MissesSpread(g: Grid, first: int, n: int, hits: set<int>, missing: seq<Month>, i: nat)
    requires Missing(g, first, n, hits, missing) && i < |missing|
    ensures missing[i].key >= first + i
  {
    if i > 0 { MissesSpread(g, first, n, hits, missing, i - 1); }
  }

  /** The queried span covers every missing month as far as it was requested. */
  ghost predicate CoversAll(g: Grid, start: int, end: int, missing: seq<Month>, lo: int, hi: int) {
    forall i :: 0 <= i < |missing| ==> SpanCovers(g, start, end, missing[i].key, lo, hi)
  }

  lemma SpanCoversMissing(g: Grid, start: int, end: int, first: int, n: int, done: set<int>, missing: seq<Month>)
    requires IsGrid(g, first, first + n) && Missing(g, first, n, done, missing) && missing != []
    ensures CoversAll(g, start, end, missing, Max(start, missing[0].start), Min(end, missing[|missing| - 1].end))
  {
    forall i | 0 <= i < |missing|
      ensures SpanCovers(g, start, end, missing[i].key,
                         Max(start, missing[0].start), Min(end, missing[|missing| - 1].end))
    {
      var k, k0, k1 := missing[i].key, missing[0].key, missing[|missing| - 1].key;
      assert k0 < k ==> g.unitStart(k0) < g.unitStart(k);
      assert k < k1 ==> g.unitStart(k + 1) < g.unitStart(k1 + 1);
    }
  }

  function Max(a: int, b: int): int {
    if a >= b then a else b
  }

  function Min(a: int, b: int): int {
    if a <= b then a else b
  }

  ghost function KeysIn(months: seq<Month>): set<int> {
    set m | m in months :: m.key
  }

  lemma NotDoneYet(g: Grid, first: int, n: int, hits: set<int>, missing: seq<Month>, i: int)
    requires Missing(g, first, n, hits, missing) && 0 <= i < |missing|
    ensures missing[i].key !in hits + KeysIn(missing[..i])
    ensures KeysIn(missing[..i + 1]) == KeysIn(missing[..i]) + {missing[i].key}
  {
    assert missing[..i + 1] == missing[..i] + [missing[i]];
  }
}
