/** workers/lib/server/handlers/finance.handlers.js: getDailySeries, daily means answered month by
    month from a cache, against the same means computed without one. */
module DailySeries {
  import opened Wrappers
  import opened Seqs
  import opened Calendar
  import opened LocalTime
  import opened Grouping
  import opened LocalBuckets
  import opened LocalMonths
  import opened HourlySource
  import opened MonthlyHashesCache
  import opened StoredMonths
  import opened DailyMeans
  import opened DailyRequests

  // ---------- the code ----------

  /** The month is answered by the cache as it stands: it has ended, is resident, and no refresh is asked
      for. */
  predicate Hit(slots: Slots<Key, DayMap>, month: Month, tag: string, refresh: bool, now: int) {
    month.end < now && !refresh && GetValue(slots, Key(month.key, tag), now).Some?
  }

  /** Two states of the cache answer a month alike. */
  ghost predicate SameRead(before: Slots<Key, DayMap>, after: Slots<Key, DayMap>, month: int, tag: string, now: int) {
    GetValue(before, Key(month, tag), now) == GetValue(after, Key(month, tag), now)
  }

  ghost predicate OthersSame(before: Slots<Key, DayMap>, after: Slots<Key, DayMap>, month: int, tag: string, now: int) {
    forall k :: k != month ==> SameRead(before, after, k, tag, now)
  }

  /** Of the first `i` months the hits are those the cache answered at the start, and it still answers the
      later ones as then. */
  ghost predicate HitsSoFar(g: Grid, before: Slots<Key, DayMap>, now': Slots<Key, DayMap>, first: int, i: int,
                            hits: set<int>, tag: string, refresh: bool, now: int) {
    && (forall k :: first <= k < first + i ==> (k in hits <==> Hit(before, MonthOn(g, k), tag, refresh, now)))
    && (forall k :: k >= first + i ==> SameRead(before, now', k, tag, now))
    && (forall k :: k in hits ==> k < first + i)
  }

  lemma HitsNext(g: Grid, s0: Slots<Key, DayMap>, s1: Slots<Key, DayMap>, s2: Slots<Key, DayMap>, first: int, i: int,
                 hits: set<int>, tag: string, refresh: bool, now: int, hit: bool)
    requires HitsSoFar(g, s0, s1, first, i, hits, tag, refresh, now) && OthersSame(s1, s2, first + i, tag, now)
    requires hit <==> Hit(s1, MonthOn(g, first + i), tag, refresh, now)
    ensures HitsSoFar(g, s0, s2, first, i + 1, if hit then hits + {first + i} else hits, tag, refresh, now)
  {
    assert SameRead(s0, s1, first + i, tag, now);
    forall k | k >= first + i + 1
      ensures SameRead(s0, s2, k, tag, now)
    {
      assert SameRead(s0, s1, k, tag, now) && SameRead(s1, s2, k, tag, now);
    }
  }

  /** A resident month that has ended, unless a refresh was asked for. */
  method ReadMonth(cache: LruTtlCache<Key, DayMap>, clocks: string -> Clock, source: string -> seq<Sample>,
                   month: Month,
                   ghost start: int, ghost end: int, tag: string, refresh: bool,
                   now: int) returns (cached: Option<DayMap>)
    requires IsRequest(clocks(tag), start, end) && Touches(clocks(tag), start, end, month.key)
    requires Truthful(clocks, source, cache.entries) && month == MonthOn(clocks(tag).months, month.key)
    modifies cache
    ensures Truthful(clocks, source, cache.entries)
    ensures cached.Some? ==>
            RightFor(clocks(tag), Fetch(source(tag), now, start, end), start, end, month.key, cached.value)
    ensures cached.Some? <==> Hit(old(cache.entries), month, tag, refresh, now)
    ensures OthersSame(old(cache.entries), cache.entries, month.key, tag, now)
  {
    cached := None;
    if month.end < now && !refresh {
      TruthfulAfterGet(clocks, source, cache.entries, Key(month.key, tag), now);
      forall k | k != month.key
        ensures SameRead(cache.entries, AfterGet(cache.entries, Key(month.key, tag), now), k, tag, now)
      {
        GetLeavesOthers(cache.entries, Key(month.key, tag), Key(k, tag), now);
      }
      cached := cache.Get(Key(month.key, tag), now);
      if cached.Some? {
        CachedIsRight(clocks(tag), source(tag), now, start, end, month.key, cached.value);
      }
    }
  }

  method ReadMonths(cache: LruTtlCache<Key, DayMap>, clocks: string -> Clock, source: string -> seq<Sample>,
                    months: seq<Month>,
                    ghost start: int, ghost end: int, tag: string, refresh: bool, now: int)
    returns (byDay: DayMap, missing: seq<Month>, ghost done: set<int>)
    requires IsRequest(clocks(tag), start, end) && Truthful(clocks, source, cache.entries)
    requires AreMonths(clocks(tag), start, end, months)
    modifies cache
    ensures Truthful(clocks, source, cache.entries)
    ensures Filled(clocks(tag), Fetch(source(tag), now, start, end), start, end, done, byDay)
    ensures Missing(clocks(tag).months, clocks(tag).months.unitOf(start), |months|, done, missing)
    ensures HitsSoFar(clocks(tag).months, old(cache.entries), cache.entries, clocks(tag).months.unitOf(start), |months|,
                      done, tag, refresh, now)
  {
    byDay, missing, done := map[], [], {};
    ghost var first, before := clocks(tag).months.unitOf(start), cache.entries;
    for i := 0 to |months|
      invariant Truthful(clocks, source, cache.entries)
      invariant Filled(clocks(tag), Fetch(source(tag), now, start, end), start, end, done, byDay)
      invariant Missing(clocks(tag).months, first, i, done, missing)
      invariant HitsSoFar(clocks(tag).months, before, cache.entries, first, i, done, tag, refresh, now)
    {
      byDay, missing, done := ReadNext(cache, clocks, source, months[i], start, end, tag, refresh, now, byDay, missing,
                                       i, done, before);
    }
  }

  /** Reads the next month: its days join the answer or the month joins the misses. */
  method ReadNext(cache: LruTtlCache<Key, DayMap>, clocks: string -> Clock, source: string -> seq<Sample>, month: Month,
                  ghost start: int, ghost end: int, tag: string, refresh: bool, now: int,
                  byDay: DayMap, missing: seq<Month>, ghost i: nat, ghost done: set<int>,
                  ghost before: Slots<Key, DayMap>)
    returns (byDay': DayMap, missing': seq<Month>, ghost done': set<int>)
    requires IsRequest(clocks(tag), start, end) && Touches(clocks(tag), start, end, month.key)
    requires Truthful(clocks, source, cache.entries)
    requires month == MonthOn(clocks(tag).months, clocks(tag).months.unitOf(start) + i)
    requires Filled(clocks(tag), Fetch(source(tag), now, start, end), start, end, done, byDay)
    requires Missing(clocks(tag).months, clocks(tag).months.unitOf(start), i, done, missing)
    requires HitsSoFar(clocks(tag).months, before, cache.entries, clocks(tag).months.unitOf(start), i, done, tag,
                       refresh, now)
    modifies cache
    ensures Truthful(clocks, source, cache.entries)
    ensures Filled(clocks(tag), Fetch(source(tag), now, start, end), start, end, done', byDay')
    ensures Missing(clocks(tag).months, clocks(tag).months.unitOf(start), i + 1, done', missing')
    ensures HitsSoFar(clocks(tag).months, before, cache.entries, clocks(tag).months.unitOf(start), i + 1, done', tag,
                      refresh, now)
  {
    byDay', missing', done' := byDay, missing, done;
    ghost var slots := cache.entries;
    MissOne(clocks(tag).months, clocks(tag).months.unitOf(start), i, done, missing);
    var cached := ReadMonth(cache, clocks, source, month, start, end, tag, refresh, now);
    HitsNext(clocks(tag).months, before, slots, cache.entries, clocks(tag).months.unitOf(start), i, done, tag, refresh,
             now, cached.Some?);
    if cached.Some? {
      assert month.key !in done;
      FillMonth(clocks(tag), Fetch(source(tag), now, start, end), start, end, done, byDay, month.key, cached.value);
      byDay' := byDay + cached.value;
      done' := done + {month.key};
    } else {
      missing' := missing + [month];
    }
  }

  /** The months of a request, first to last. */
  ghost predicate AreMonths(c: Clock, start: int, end: int, months: seq<Month>) {
    MonthsOf(c.months, c.months.unitOf(start), months) && |months| == c.months.unitOf(end) - c.months.unitOf(start) + 1
  }

  /** The span of the misses is never a single instant, so the guard never drops an hour. */
  lemma SpanIsWide(c: Clock, start: int, end: int, missing: seq<Month>, n: int, done: set<int>)
    requires IsRequest(c, start, end) && missing != [] && n == c.months.unitOf(end) - c.months.unitOf(start) + 1
    requires Missing(c.months, c.months.unitOf(start), n, done, missing)
    ensures Min(end, missing[|missing| - 1].end) > Max(start, missing[0].start)
  {
    assert Wide(c, start, end, missing[0].key, missing[|missing| - 1].key);
  }

  /** Rolls one missing month up and stores it if it has ended and was requested whole. */
  method FillOne(cache: LruTtlCache<Key, DayMap>, clocks: string -> Clock, source: string -> seq<Sample>, month: Month,
                 monthLog: seq<Sample>, start: int, end: int, tag: string, now: int, ghost lo: int, ghost hi: int)
    returns (monthDays: DayMap)
    requires IsRequest(clocks(tag), start, end) && Touches(clocks(tag), start, end, month.key)
    requires Truthful(clocks, source, cache.entries) && month == MonthOn(clocks(tag).months, month.key)
    requires SpanCovers(clocks(tag).months, start, end, month.key, lo, hi)
    requires monthLog == MonthLog(clocks(tag).months, Fetch(source(tag), now, lo, hi), month.key)
    modifies cache
    ensures Truthful(clocks, source, cache.entries)
    ensures RightFor(clocks(tag), Fetch(source(tag), now, start, end), start, end, month.key, monthDays)
    ensures cache.entries ==
            StoredMonth(old(cache.entries), month, monthDays, start, end, tag, now, cache.ttlMs, cache.maxEntries)
  {
    monthDays := RollupLocalDaysMean(monthLog, clocks(tag).dayStartOf);
    FetchedIsRight(clocks(tag), source(tag), now, start, end, month.key, lo, hi, monthDays);
    if month.end < now && month.start >= start && month.end <= end {
      StoredIsWhole(clocks, source, start, end, month.key, tag, now, lo, hi, monthDays);
      StoreMonth(cache, clocks, source, Key(month.key, tag), monthDays, now);
    }
  }

  lemma StoredIsWhole(clocks: string -> Clock, source: string -> seq<Sample>, start: int, end: int, month: int,
                      tag: string,
                      now: int, lo: int, hi: int, days: DayMap)
    requires IsGrid(clocks(tag).months, month, month + 1) && SpanCovers(clocks(tag).months, start, end, month, lo, hi)
    requires start <= clocks(tag).months.unitStart(month) && clocks(tag).months.unitStart(month + 1) - 1 <= end
    requires clocks(tag).months.unitStart(month + 1) <= now
    requires MeansOf(clocks(tag).dayStartOf, MonthLog(clocks(tag).months, Fetch(source(tag), now, lo, hi), month), days)
    ensures Whole(clocks, source, Key(month, tag), days)
  {
    FetchedIsWhole(clocks(tag).months, source(tag), now, start, end, month, lo, hi);
  }

  method StoreMonth(cache: LruTtlCache<Key, DayMap>, clocks: string -> Clock, source: string -> seq<Sample>, key: Key,
                    days: DayMap, now: int)
    requires Truthful(clocks, source, cache.entries) && Whole(clocks, source, key, days)
    modifies cache
    ensures Truthful(clocks, source, cache.entries)
    ensures cache.entries == AfterSet(old(cache.entries), Slot(key, days, now + cache.ttlMs), cache.maxEntries)
  {
    TruthfulAfterSet(clocks, source, cache.entries, Slot(key, days, now + cache.ttlMs), cache.maxEntries);
    cache.Set(key, days, now);
  }

  method FillMonths(cache: LruTtlCache<Key, DayMap>, clocks: string -> Clock, source: string -> seq<Sample>,
                    missing: seq<Month>, start: int, end: int, tag: string, now: int, filled: DayMap,
                    ghost n: int, ghost hits: set<int>)
    returns (byDay: DayMap)
    requires IsRequest(clocks(tag), start, end) && Truthful(clocks, source, cache.entries) && missing != []
    requires Filled(clocks(tag), Fetch(source(tag), now, start, end), start, end, hits, filled)
    requires Missing(clocks(tag).months, clocks(tag).months.unitOf(start), n, hits, missing)
    requires n == clocks(tag).months.unitOf(end) - clocks(tag).months.unitOf(start) + 1
    modifies cache
    ensures Truthful(clocks, source, cache.entries)
    ensures Filled(clocks(tag), Fetch(source(tag), now, start, end), start, end, hits + KeysIn(missing), byDay)
    ensures |missing| <= cache.maxEntries ==>
              MonthsResident(cache.entries, missing, Storable(start, end, now), KeyFor(tag), now + cache.ttlMs)
  {
    var spanStart := Max(start, missing[0].start);
    var spanEnd := Min(end, missing[|missing| - 1].end);
    SpanIsWide(clocks(tag), start, end, missing, n, hits);
    SpanCoversMissing(clocks(tag).months, start, end, clocks(tag).months.unitOf(start), n, hits, missing);
    var log := if spanEnd > spanStart then Fetch(source(tag), now, spanStart, spanEnd) else [];
    byDay := FillSpan(cache, clocks, source, missing, log, start, end, tag, now, filled, spanStart, spanEnd, n, hits);
  }

  /** Groups the fetched hours by month and rolls the missing months up. */
  method FillSpan(cache: LruTtlCache<Key, DayMap>, clocks: string -> Clock, source: string -> seq<Sample>,
                  missing: seq<Month>, log: seq<Sample>, start: int, end: int, tag: string, now: int, filled: DayMap,
                  ghost lo: int, ghost hi: int, ghost n: int, ghost hits: set<int>)
    returns (byDay: DayMap)
    requires IsRequest(clocks(tag), start, end) && Truthful(clocks, source, cache.entries)
    requires Filled(clocks(tag), Fetch(source(tag), now, start, end), start, end, hits, filled)
    requires Missing(clocks(tag).months, clocks(tag).months.unitOf(start), n, hits, missing)
    requires n == clocks(tag).months.unitOf(end) - clocks(tag).months.unitOf(start) + 1
    requires CoversAll(clocks(tag).months, start, end, missing, lo, hi) && log == Fetch(source(tag), now, lo, hi)
    modifies cache
    ensures Truthful(clocks, source, cache.entries)
    ensures Filled(clocks(tag), Fetch(source(tag), now, start, end), start, end, hits + KeysIn(missing), byDay)
    ensures |missing| <= cache.maxEntries ==>
              MonthsResident(cache.entries, missing, Storable(start, end, now), KeyFor(tag), now + cache.ttlMs)
  {
    ghost var before, stored := cache.entries, [];
    byDay, stored := FillLoop(cache, clocks, source, missing, log, start, end, tag, now, filled, lo, hi, n, hits);
    MissingInOrder(clocks(tag).months, clocks(tag).months.unitOf(start), n, hits, missing);
    if |missing| <= cache.maxEntries {
      AfterMonthsResident(before, missing, stored, Storable(start, end, now), KeyFor(tag), now + cache.ttlMs,
                          cache.maxEntries);
    }
  }

  method FillLoop(cache: LruTtlCache<Key, DayMap>, clocks: string -> Clock, source: string -> seq<Sample>,
                  missing: seq<Month>, log: seq<Sample>, start: int, end: int, tag: string, now: int, filled: DayMap,
                  ghost lo: int, ghost hi: int, ghost n: int, ghost hits: set<int>)
    returns (byDay: DayMap, ghost stored: seq<DayMap>)
    requires IsRequest(clocks(tag), start, end) && Truthful(clocks, source, cache.entries)
    requires Filled(clocks(tag), Fetch(source(tag), now, start, end), start, end, hits, filled)
    requires Missing(clocks(tag).months, clocks(tag).months.unitOf(start), n, hits, missing)
    requires n == clocks(tag).months.unitOf(end) - clocks(tag).months.unitOf(start) + 1
    requires CoversAll(clocks(tag).months, start, end, missing, lo, hi) && log == Fetch(source(tag), now, lo, hi)
    modifies cache
    ensures Truthful(clocks, source, cache.entries)
    ensures Filled(clocks(tag), Fetch(source(tag), now, start, end), start, end, hits + KeysIn(missing), byDay)
    ensures HasStored(cache.entries, old(cache.entries), missing, stored, start, end, tag, now, cache.ttlMs,
                      cache.maxEntries)
  {
    var keys, byMonthLog := CollectBuckets(log, clocks(tag).months.unitOf);
    byDay, stored := filled, [];
    ghost var done, before := hits, cache.entries;
    for i := 0 to |missing|
      invariant Truthful(clocks, source, cache.entries)
      invariant done == hits + KeysIn(missing[..i])
      invariant Filled(clocks(tag), Fetch(source(tag), now, start, end), start, end, done, byDay)
      invariant HasStored(cache.entries, before, missing[..i], stored, start, end, tag, now, cache.ttlMs,
                          cache.maxEntries)
    {
      MissingThere(clocks(tag), start, end, n, hits, missing, lo, hi, i);
      ghost var slots, days := cache.entries, map[];
      byDay, days := FillNext(cache, clocks, source, missing[i], log, keys, byMonthLog, start, end, tag, now, byDay, lo,
                              hi, done);
      StoredOneMore(slots, before, missing, i, stored, days, start, end, tag, now, cache.ttlMs, cache.maxEntries);
      stored := stored + [days];
      done := done + {missing[i].key};
    }
    assert missing[..|missing|] == missing;
  }

  lemma MissingInOrder(g: Grid, first: int, n: int, hits: set<int>, missing: seq<Month>)
    requires Missing(g, first, n, hits, missing)
    ensures InOrder(missing)
  {
  }

  lemma MissingThere(c: Clock, start: int, end: int, n: int, hits: set<int>, missing: seq<Month>, lo: int, hi: int,
                     i: nat)
    requires Missing(c.months, c.months.unitOf(start), n, hits, missing) && i < |missing|
    requires n == c.months.unitOf(end) - c.months.unitOf(start) + 1 && CoversAll(c.months, start, end, missing, lo, hi)
    ensures Touches(c, start, end, missing[i].key) && missing[i] == MonthOn(c.months, missing[i].key)
    ensures SpanCovers(c.months, start, end, missing[i].key, lo, hi)
    ensures missing[i].key !in hits + KeysIn(missing[..i])
    ensures KeysIn(missing[..i + 1]) == KeysIn(missing[..i]) + {missing[i].key}
  {
    NotDoneYet(c.months, c.months.unitOf(start), n, hits, missing, i);
  }

  /** Adds the days of one missing month to those already there. */
  method FillNext(cache: LruTtlCache<Key, DayMap>, clocks: string -> Clock, source: string -> seq<Sample>, month: Month,
                  ghost log: seq<Sample>, ghost keys: seq<int>, byMonthLog: map<int, seq<Sample>>,
                  start: int, end: int, tag: string, now: int, byDay: DayMap, ghost lo: int, ghost hi: int,
                  ghost done: set<int>)
    returns (byDay': DayMap, ghost monthDays: DayMap)
    requires IsRequest(clocks(tag), start, end) && Touches(clocks(tag), start, end, month.key)
    requires Truthful(clocks, source, cache.entries) && month == MonthOn(clocks(tag).months, month.key)
    requires SpanCovers(clocks(tag).months, start, end, month.key, lo, hi)
    requires log == Fetch(source(tag), now, lo, hi) && Collected(clocks(tag).months.unitOf, log, keys, byMonthLog)
    requires Filled(clocks(tag), Fetch(source(tag), now, start, end), start, end, done, byDay) && month.key !in done
    modifies cache
    ensures Truthful(clocks, source, cache.entries)
    ensures Filled(clocks(tag), Fetch(source(tag), now, start, end), start, end, done + {month.key}, byDay')
    ensures cache.entries ==
            StoredMonth(old(cache.entries), month, monthDays, start, end, tag, now, cache.ttlMs, cache.maxEntries)
  {
    var monthLog := if month.key in byMonthLog then byMonthLog[month.key] else [];
    var days := FillOne(cache, clocks, source, month, monthLog, start, end, tag, now, lo, hi);
    FillMonth(clocks(tag), Fetch(source(tag), now, start, end), start, end, done, byDay, month.key, days);
    byDay', monthDays := byDay + days, days;
  }

  /** Clamping to the requested days leaves exactly the direct means of the requested hours. */
  lemma ClampedIsDirect(c: Clock, log: seq<Sample>, now: int, start: int, end: int, done: set<int>, byDay: DayMap)
    requires IsRequest(c, start, end) && Filled(c, Fetch(log, now, start, end), start, end, done, byDay)
    requires AllDone(c, start, end, done)
    ensures MeansOf(c.dayStartOf, Fetch(log, now, start, end), map d | d in byDay && start <= d <= end :: byDay[d])
  {
    var r := map d | d in byDay && start <= d <= end :: byDay[d];
    forall d
      ensures Holds(c.dayStartOf, Fetch(log, now, start, end), r, d)
    {
      if start <= d <= end {
        InRequest(c, start, end, d);
        assert Holds(c.dayStartOf, Fetch(log, now, start, end), byDay, d);
      } else {
        NothingOutside(c, log, now, start, end, d);
      }
    }
  }

  lemma NothingOutside(c: Clock, log: seq<Sample>, now: int, start: int, end: int, day: int)
    requires IsRequest(c, start, end) && !(start <= day <= end)
    ensures DaySamples(c.dayStartOf, Fetch(log, now, start, end), day) == []
  {
    var xs, p := Filter(log, Reported(now)), OnDay(c.dayStartOf, day);
    forall s: Sample | s in Fetch(log, now, start, end) ensures !p(s) {
      FilterMember(xs, Within(start, end), s);
      if s.ts.Some? { DayRequested(c, start, end, s.ts.value); }
    }
    FilterNone(Fetch(log, now, start, end), p);
  }

  /** The day of a requested instant is requested. */
  lemma DayRequested(c: Clock, start: int, end: int, t: int)
    requires IsRequest(c, start, end) && start <= t <= end
    ensures start <= c.dayStartOf(t) <= end
  {
    InRequest(c, start, end, t);
    assert InMonths(c, c.months.unitOf(start), c.months.unitOf(end), t) && DayFits(c, start, end, t);
  }

  ghost predicate AllDone(c: Clock, start: int, end: int, done: set<int>) {
    forall k :: Touches(c, start, end, k) ==> k in done
  }

  lemma AllMonthsDone(c: Clock, start: int, end: int, n: int, hits: set<int>, missing: seq<Month>)
    requires n == c.months.unitOf(end) - c.months.unitOf(start) + 1
    requires Missing(c.months, c.months.unitOf(start), n, hits, missing)
    ensures AllDone(c, start, end, hits + KeysIn(missing))
  {
    forall k | Touches(c, start, end, k)
      ensures k in hits + KeysIn(missing)
    {
      if k !in hits {
        var i :| 0 <= i < |missing| && missing[i].key == k;
        assert missing[i] in missing;
      }
    }
  }

  /** The first midnights of the months touched, and of the next one, are clear, and so are the two at the
      ends of the request; at other midnights the clocks may do anything but a great shift. */
  ghost predicate RequestClear(z: Zone, start: int, end: int) {
    && MonthsClear(z, start, end)
    && ClearDay(z, LocalDay(z, start)) && ClearDay(z, LocalDay(z, end + 1))
    && SteadyMonths(z, LocalMonth(z, start), LocalMonth(z, end))
  }

  ghost predicate SteadyMonths(z: Zone, first: int, last: int) {
    forall d :: first <= MonthOf(d) <= last ==> Steady(z, d)
  }

  /** Whatever requests in whatever zones the cache has served, the answer is the direct daily means of
      the hours requested, and the cache stays truthful: so any run of requests agrees with no cache at
      all. Other requests may have left any truthful slots, `meanwhile`, while the handler was awaited. */
  method GetDailySeries(cache: LruTtlCache<Key, DayMap>, zoneOf: string -> Zone, source: string -> seq<Sample>,
                        start: int, end: int, tag: string, refresh: bool, now: int, meanwhile: Slots<Key, DayMap>)
    returns (byDay: DayMap, ghost asked: bool)
    requires RequestClear(zoneOf(tag), start, end) && WholeDays(ClockOf(zoneOf(tag)), start, end)
    requires Truthful(ClocksOf(zoneOf), source, cache.entries) && Truthful(ClocksOf(zoneOf), source, meanwhile)
    modifies cache
    ensures Truthful(ClocksOf(zoneOf), source, cache.entries)
    ensures MeansOf(ClockOf(zoneOf(tag)).dayStartOf, Fetch(source(tag), now, start, end), byDay)
    ensures asked <==> SomeMiss(ClockOf(zoneOf(tag)), old(cache.entries), start, end, tag, refresh, now)
    ensures WholeMonthsResident(ClockOf(zoneOf(tag)), old(cache.entries), cache.entries, start, end, tag, refresh, now,
                                cache.maxEntries, now + cache.ttlMs)
  {
    var months := LocalMonthsInRange(start, end, zoneOf(tag));
    RequestIsRequest(zoneOf(tag), start, end, months);
    byDay, asked := SeriesOf(cache, ClocksOf(zoneOf), source, months, start, end, tag, refresh, now, meanwhile);
  }

  /** Some month of the request is not answered by the cache. */
  ghost predicate SomeMiss(c: Clock, slots: Slots<Key, DayMap>, start: int, end: int, tag: string, refresh: bool,
                           now: int) {
    exists k :: Missed(c, slots, start, end, tag, refresh, now, k)
  }

  ghost predicate Missed(c: Clock, slots: Slots<Key, DayMap>, start: int, end: int, tag: string, refresh: bool,
                         now: int, k: int) {
    Touches(c, start, end, k) && !Hit(slots, MonthOn(c.months, k), tag, refresh, now)
  }

  /** Every whole ended month that the cache did not answer is resident now, if the cache has room for the
      months of the request. */
  ghost predicate WholeMonthsResident(c: Clock, before: Slots<Key, DayMap>, after: Slots<Key, DayMap>, start: int,
                                      end: int, tag: string, refresh: bool, now: int, max: nat, until: int) {
    c.months.unitOf(end) - c.months.unitOf(start) < max ==>
      forall k :: Missed(c, before, start, end, tag, refresh, now, k) && Storable(start, end, now)(MonthOn(c.months, k))
                  ==> Resident(after, Key(k, tag), until)
  }

  lemma MissesAre(c: Clock, slots: Slots<Key, DayMap>, after: Slots<Key, DayMap>, start: int, end: int, tag: string,
                  refresh: bool, now: int, n: int, hits: set<int>, missing: seq<Month>)
    requires n == c.months.unitOf(end) - c.months.unitOf(start) + 1 && n >= 0
    requires Missing(c.months, c.months.unitOf(start), n, hits, missing)
    requires HitsSoFar(c.months, slots, after, c.months.unitOf(start), n, hits, tag, refresh, now)
    ensures missing != [] <==> SomeMiss(c, slots, start, end, tag, refresh, now)
    ensures forall k :: Missed(c, slots, start, end, tag, refresh, now, k) ==> MonthOn(c.months, k) in missing
    ensures |missing| <= n && InOrder(missing)
  {
    if missing != [] {
      assert Missed(c, slots, start, end, tag, refresh, now, missing[0].key);
      MissesSpread(c.months, c.months.unitOf(start), n, hits, missing, |missing| - 1);
    }
    forall k | Missed(c, slots, start, end, tag, refresh, now, k)
      ensures MonthOn(c.months, k) in missing
    {
      assert k !in hits;
      var i :| 0 <= i < |missing| && missing[i].key == k;
      assert missing[i] == MonthOn(c.months, k);
    }
  }

  lemma MissesResident(c: Clock, before: Slots<Key, DayMap>, after: Slots<Key, DayMap>, start: int, end: int,
                       tag: string, refresh: bool, now: int, n: int, hits: set<int>, missing: seq<Month>, max: nat,
                       until: int)
    requires n == c.months.unitOf(end) - c.months.unitOf(start) + 1 && |missing| <= n
    requires forall k :: Missed(c, before, start, end, tag, refresh, now, k) ==> MonthOn(c.months, k) in missing
    requires missing != [] && |missing| <= max ==>
               MonthsResident(after, missing, Storable(start, end, now), KeyFor(tag), until)
    ensures WholeMonthsResident(c, before, after, start, end, tag, refresh, now, max, until)
  {
    if c.months.unitOf(end) - c.months.unitOf(start) < max {
      forall k | Missed(c, before, start, end, tag, refresh, now, k) &&
                 Storable(start, end, now)(MonthOn(c.months, k))
        ensures Resident(after, Key(k, tag), until)
      {
        assert MonthOn(c.months, k) in missing;
        assert KeyFor(tag)(k) == Key(k, tag);
      }
    }
  }

  method SeriesOf(cache: LruTtlCache<Key, DayMap>, clocks: string -> Clock, source: string -> seq<Sample>,
                  months: seq<Month>, start: int, end: int, tag: string, refresh: bool, now: int,
                  meanwhile: Slots<Key, DayMap>) returns (byDay: DayMap, ghost asked: bool)
    requires IsRequest(clocks(tag), start, end) && AreMonths(clocks(tag), start, end, months)
    requires Truthful(clocks, source, cache.entries) && Truthful(clocks, source, meanwhile)
    modifies cache
    ensures Truthful(clocks, source, cache.entries)
    ensures MeansOf(clocks(tag).dayStartOf, Fetch(source(tag), now, start, end), byDay)
    ensures asked <==> SomeMiss(clocks(tag), old(cache.entries), start, end, tag, refresh, now)
    ensures WholeMonthsResident(clocks(tag), old(cache.entries), cache.entries, start, end, tag, refresh, now,
                                cache.maxEntries, now + cache.ttlMs)
  {
    ghost var hits;
    var missing;
    byDay, missing, hits := ReadMonths(cache, clocks, source, months, start, end, tag, refresh, now);
    AllMonthsDone(clocks(tag), start, end, |months|, hits, missing);
    MissesAre(clocks(tag), old(cache.entries), cache.entries, start, end, tag, refresh, now, |months|, hits, missing);
    if missing != [] {
      cache.entries := meanwhile;
      byDay := FillMonths(cache, clocks, source, missing, start, end, tag, now, byDay, |months|, hits);
    } else {
      assert hits + KeysIn(missing) == hits;
    }
    asked := missing != [];
    MissesResident(clocks(tag), old(cache.entries), cache.entries, start, end, tag, refresh, now, |months|, hits,
                   missing, cache.maxEntries, now + cache.ttlMs);
    ghost var done := hits + KeysIn(missing);
    ClampedIsDirect(clocks(tag), source(tag), now, start, end, done, byDay);
    var firstDay := clocks(tag).dayStartOf(start);
    byDay := map d | d in byDay && firstDay <= d <= end :: byDay[d];
  }

  // ---------- zones as clocks ----------

  /** A day starts on its wall-clock date, or on the one before if its midnight was skipped. */
  lemma DayStartDate(z: Zone, t: int)
    requires Regular(z) && Steady(z, LocalDay(z, t))
    ensures LocalDay(z, t) - 1 <= LocalDay(z, LocalDayStart(z, t)) <= LocalDay(z, t)
  {
    var d := LocalDay(z, t);
    MidnightIsWhole(d);
    LocalDayStartResolves(z, t);
    ResolveUnfolds(z, d * DAY_MS);
    NearMidnight(z, d);
  }

  lemma NearMidnight(z: Zone, d: int)
    requires SmallOffsets(z) && Steady(z, d)
    ensures d - 1 <= LocalDay(z, TwoPasses(z, d * DAY_MS)) <= d
  {
    var wall := d * DAY_MS;
    var guess := wall - Offset(z, wall);
    var r := TwoPasses(z, wall);
    assert CloseOffsets(z, r, wall) && CloseOffsets(z, r, guess);
    assert -DAY_MS < 2 * (Local(z, r) - wall) < DAY_MS;
    assert (d - 1) * DAY_MS <= Local(z, r) < (d + 1) * DAY_MS;
    DayBetween(Local(z, r), d - 1, d);
  }

  /** The start of its day is on the same side of a clear midnight as the instant itself. */
  lemma SameSide(z: Zone, d: int, t: int)
    requires Regular(z) && CleanDay(z, d) && Steady(z, LocalDay(z, t))
    ensures LocalDayStart(z, t) >= DayStart(z, d) <==> t >= DayStart(z, d)
  {
    DayStartDate(z, t);
    DaySplit(z, d, t);
    DaySplit(z, d, LocalDayStart(z, t));
    LocalDayStartResolves(z, t);
  }

  lemma SameMonthSide(z: Zone, mi: int, t: int)
    requires Regular(z) && UnitClear(z, OneMonth, mi) && Steady(z, LocalDay(z, t))
    ensures LocalMonth(z, LocalDayStart(z, t)) >= mi <==> LocalMonth(z, t) >= mi
  {
    SameSide(z, MonthStartDay(mi), t);
    LocalMonthStartTsResolves(z, mi);
    LocalMonthStartTsCorrect(z, mi, t);
    LocalMonthStartTsCorrect(z, mi, LocalDayStart(z, t));
  }

  lemma DayFitsZone(z: Zone, start: int, end: int, t: int)
    requires Regular(z) && WholeDays(ClockOf(z), start, end) && Steady(z, LocalDay(z, t))
    requires CleanDay(z, LocalDay(z, start)) && CleanDay(z, LocalDay(z, end + 1))
    requires UnitClear(z, OneMonth, LocalMonth(z, t)) && UnitClear(z, OneMonth, LocalMonth(z, t) + 1)
    ensures DayFits(ClockOf(z), start, end, t)
  {
    SameSide(z, LocalDay(z, start), t);
    SameSide(z, LocalDay(z, end + 1), t);
    LocalDayStartResolves(z, start);
    LocalDayStartResolves(z, end + 1);
    SameMonthSide(z, LocalMonth(z, t), t);
    SameMonthSide(z, LocalMonth(z, t) + 1, t);
  }

  /** A stretch from one clear midnight to a later one is more than one instant. */
  lemma WideBetween(z: Zone, d: int, e: int)
    requires Regular(z) && ClearDay(z, d) && ClearDay(z, e)
    ensures DayStart(z, d) < DayStart(z, e) ==> DayStart(z, d) + 1 < DayStart(z, e)
  {
    if e < d {
      DayStartsIncrease(z, e, d);
    } else if d < e {
      DayIsLong(z, d, e);
    }
  }

  lemma SpanInOrder(g: Grid, start: int, end: int, first: int, last: int, k0: int, k1: int)
    requires IsGrid(g, first, last + 1) && g.unitOf(start) == first && g.unitOf(end) == last
    requires start <= end && first <= k0 <= k1 <= last
    ensures Max(start, g.unitStart(k0)) < Min(end + 1, g.unitStart(k1 + 1))
  {
    assert Splits(g, first + 1, start) && Splits(g, last, end);
    assert k0 < last ==> g.unitStart(k0) < g.unitStart(last);
    assert first + 1 < k1 + 1 ==> g.unitStart(first + 1) < g.unitStart(k1 + 1);
    assert g.unitStart(k0) < g.unitStart(k1 + 1);
  }

  /** From the later of two clear midnights to the earlier of two others. */
  lemma WideBetweenFour(z: Zone, d0: int, d1: int, e0: int, e1: int)
    requires Regular(z) && ClearDay(z, d0) && ClearDay(z, d1) && ClearDay(z, e0) && ClearDay(z, e1)
    ensures var lo, hi := Max(DayStart(z, d0), DayStart(z, d1)), Min(DayStart(z, e0), DayStart(z, e1));
            lo < hi ==> lo + 1 < hi
  {
    WideBetween(z, d0, e0);
    WideBetween(z, d0, e1);
    WideBetween(z, d1, e0);
    WideBetween(z, d1, e1);
  }

  lemma WideZone(z: Zone, start: int, end: int, k0: int, k1: int)
    requires Regular(z) && WholeDays(ClockOf(z), start, end)
    requires ClearDay(z, LocalDay(z, start)) && ClearDay(z, LocalDay(z, end + 1))
    requires UnitClear(z, OneMonth, k0) && UnitClear(z, OneMonth, k1 + 1)
    requires Max(start, LocalMonthStartTs(z, k0)) < Min(end + 1, LocalMonthStartTs(z, k1 + 1))
    ensures Wide(ClockOf(z), start, end, k0, k1)
  {
    LocalDayStartResolves(z, start);
    LocalDayStartResolves(z, end + 1);
    LocalMonthStartTsResolves(z, k0);
    LocalMonthStartTsResolves(z, k1 + 1);
    WideBetweenFour(z, LocalDay(z, start), MonthStartDay(k0), LocalDay(z, end + 1), MonthStartDay(k1 + 1));
  }

  lemma DaysFit(z: Zone, start: int, end: int)
    requires RequestClear(z, start, end) && WholeDays(ClockOf(z), start, end)
    ensures forall t :: InMonths(ClockOf(z), LocalMonth(z, start), LocalMonth(z, end), t) ==>
                DayFits(ClockOf(z), start, end, t)
  {
    forall t | InMonths(ClockOf(z), LocalMonth(z, start), LocalMonth(z, end), t)
      ensures DayFits(ClockOf(z), start, end, t)
    {
      assert Steady(z, LocalDay(z, t));
      assert UnitClear(z, OneMonth, LocalMonth(z, t)) && UnitClear(z, OneMonth, LocalMonth(z, t) + 1);
      DayFitsZone(z, start, end, t);
    }
  }

  lemma MonthSpanInOrder(z: Zone, start: int, end: int, k0: int, k1: int)
    requires IsGrid(MonthGrid(z), LocalMonth(z, start), LocalMonth(z, end) + 1)
    requires start <= end && LocalMonth(z, start) <= k0 <= k1 <= LocalMonth(z, end)
    ensures Max(start, LocalMonthStartTs(z, k0)) < Min(end + 1, LocalMonthStartTs(z, k1 + 1))
  {
    SpanInOrder(MonthGrid(z), start, end, LocalMonth(z, start), LocalMonth(z, end), k0, k1);
  }

  lemma SpansAreWide(z: Zone, start: int, end: int)
    requires MonthsClear(z, start, end) && WholeDays(ClockOf(z), start, end)
    requires ClearDay(z, LocalDay(z, start)) && ClearDay(z, LocalDay(z, end + 1))
    ensures forall k0, k1 :: LocalMonth(z, start) <= k0 <= k1 <= LocalMonth(z, end) ==>
                Wide(ClockOf(z), start, end, k0, k1)
  {
    MonthsInOrder(z, start, end);
    forall k0, k1 | LocalMonth(z, start) <= k0 <= k1 <= LocalMonth(z, end)
      ensures Wide(ClockOf(z), start, end, k0, k1)
    {
      assert UnitClear(z, OneMonth, k0) && UnitClear(z, OneMonth, k1 + 1);
      MonthSpanInOrder(z, start, end, k0, k1);
      WideZone(z, start, end, k0, k1);
    }
  }

  lemma MonthsInOrder(z: Zone, start: int, end: int)
    requires MonthsClear(z, start, end) && start <= end
    ensures var g := MonthGrid(z); g.unitOf(start) <= g.unitOf(end) && IsGrid(g, g.unitOf(start), g.unitOf(end) + 1)
  {
    ClearRange(z, start, end);
    RangeInOrder(MonthGrid(z), start, end);
  }

  lemma RequestIsClock(z: Zone, start: int, end: int)
    requires RequestClear(z, start, end) && WholeDays(ClockOf(z), start, end)
    ensures IsRequest(ClockOf(z), start, end)
  {
    MonthsInOrder(z, start, end);
    DaysFit(z, start, end);
    SpansAreWide(z, start, end);
  }

  lemma RequestIsRequest(z: Zone, start: int, end: int, months: seq<Month>)
    requires RequestClear(z, start, end) && WholeDays(ClockOf(z), start, end)
    requires MonthsUpTo(MonthGrid(z), start, end, months)
    ensures IsRequest(ClockOf(z), start, end) && AreMonths(ClockOf(z), start, end, months)
  {
    RequestIsClock(z, start, end);
    ClearRange(z, start, end);
    RangeMonths(MonthGrid(z), start, end, months);
  }

  /** Every request of whole days is clear in the default zone, November 2018 with its skipped midnight
      included. */
  lemma CampoGrandeRequests(start: int, end: int)
    requires WholeDays(ClockOf(CampoGrande()), start, end)
    ensures RequestClear(CampoGrande(), start, end)
  {
    var z := CampoGrande();
    CampoGrandeMonths(LocalMonth(z, start), LocalMonth(z, end) + 1);
    CampoGrandeDayStarts(start);
    CampoGrandeDayStarts(end + 1);
    forall d | LocalMonth(z, start) <= MonthOf(d) <= LocalMonth(z, end)
      ensures Steady(z, d)
    {
      CampoGrandeSteady(d);
    }
  }

  /** The day with the skipped midnight never starts a request. */
  lemma CampoGrandeDayStarts(t: int)
    requires LocalDayStart(CampoGrande(), t) == t
    ensures ClearDay(CampoGrande(), LocalDay(CampoGrande(), t))
  {
    var z, d := CampoGrande(), LocalDay(CampoGrande(), t);
    LocalDayStartResolves(z, t);
    SkippedDayStart();
    CampoGrandeClear(d);
  }

  lemma SkippedDayStart()
    ensures LocalDay(CampoGrande(), Resolve(CampoGrande(), 17839 * DAY_MS)) == 17838
  {
  }
}
