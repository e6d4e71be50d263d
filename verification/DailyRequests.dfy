/** workers/lib/server/handlers/finance.handlers.js: requests of whole local days, and what the rollup of
    a month says of the days requested. */
module DailyRequests {
  import opened Wrappers
  import opened Seqs
  import opened LocalTime
  import opened Grouping
  import opened LocalBuckets
  import opened LocalMonths
  import opened HourlySource
  import opened MonthlyHashesCache
  import opened StoredMonths
  import opened DailyMeans

  /** A month of one series; the tag stands for the zone, the field and the cache tag. */
  datatype Key = Key(month: int, tag: string)

  /** Local days and months of one zone. */
  datatype Clock = Clock(dayStartOf: int -> int, months: Grid)

  function ClockOf(z: Zone): Clock {
    Clock(t => LocalDayStart(z, t), MonthGrid(z))
  }

  /** The clocks of the zones the tags stand for. */
  function ClocksOf(zoneOf: string -> Zone): string -> Clock {
    tag => ClockOf(zoneOf(tag))
  }

  /** The day of `t` starts in the month of `t`, and within the request exactly if `t` is within it. */
  ghost predicate DayFits(c: Clock, start: int, end: int, t: int) {
    var d := c.dayStartOf(t);
    c.months.unitOf(d) == c.months.unitOf(t) && (start <= d <= end <==> start <= t <= end)
  }

  ghost predicate InMonths(c: Clock, first: int, last: int, t: int) {
    first <= c.months.unitOf(t) <= last
  }

  /** What is requested of months `k0` to `k1` is more than one instant. */
  ghost predicate Wide(c: Clock, start: int, end: int, k0: int, k1: int) {
    Max(start, c.months.unitStart(k0)) < Min(end, c.months.unitStart(k1 + 1) - 1)
  }

  /** In months `first` to `last` days and months are what the request needs them to be. */
  ghost predicate IsClock(c: Clock, first: int, last: int, start: int, end: int) {
    && first <= last && IsGrid(c.months, first, last + 1)
    && (forall t :: InMonths(c, first, last, t) ==> DayFits(c, start, end, t))
    && (forall k0, k1 :: first <= k0 <= k1 <= last ==> Wide(c, start, end, k0, k1))
  }

  /** A request from the start of a local day to the last instant of one. */
  ghost predicate WholeDays(c: Clock, start: int, end: int) {
    start <= end && c.dayStartOf(start) == start && c.dayStartOf(end + 1) == end + 1
  }

  /** A request of whole days whose months are in order. */
  ghost predicate IsRequest(c: Clock, start: int, end: int) {
    WholeDays(c, start, end) && IsClock(c, c.months.unitOf(start), c.months.unitOf(end), start, end)
  }

  /** A month of the request. */
  ghost predicate Touches(c: Clock, start: int, end: int, month: int) {
    c.months.unitOf(start) <= month <= c.months.unitOf(end)
  }

  // ---------- days and filters ----------

  lemma InRequest(c: Clock, start: int, end: int, t: int)
    requires IsRequest(c, start, end) && start <= t <= end
    ensures Touches(c, start, end, c.months.unitOf(t))
  {
    var first, last := c.months.unitOf(start), c.months.unitOf(end);
    assert Splits(c.months, first, start) && Splits(c.months, first, t);
    assert Splits(c.months, last + 1, end) && Splits(c.months, last + 1, t);
  }

  /** A sample of a requested day is requested, and in the month of the day. */
  lemma SampleOfDay(c: Clock, start: int, end: int, t: int, day: int)
    requires IsRequest(c, start, end) && start <= day <= end && c.dayStartOf(t) == day
    requires Touches(c, start, end, c.months.unitOf(t))
    ensures start <= t <= end && c.months.unitOf(t) == c.months.unitOf(day)
  {
    assert InMonths(c, c.months.unitOf(start), c.months.unitOf(end), t) && DayFits(c, start, end, t);
  }

  lemma FetchDay(c: Clock, log: seq<Sample>, now: int, start: int, end: int, day: int)
    ensures DaySamples(c.dayStartOf, Fetch(log, now, start, end), day) ==
            Filter(Filter(log, Reported(now)), Both(Within(start, end), OnDay(c.dayStartOf, day)))
  {
    FilterBoth(Filter(log, Reported(now)), Within(start, end), OnDay(c.dayStartOf, day));
  }

  lemma MonthDay(c: Clock, log: seq<Sample>, month: int, day: int)
    ensures DaySamples(c.dayStartOf, MonthLog(c.months, log, month), day) ==
            Filter(log, Both(InBucket(c.months.unitOf, month), OnDay(c.dayStartOf, day)))
  {
    FilterBoth(log, InBucket(c.months.unitOf, month), OnDay(c.dayStartOf, day));
  }

  /** A month has no sample of another month's day. */
  lemma OtherMonthsDay(c: Clock, log: seq<Sample>, start: int, end: int, month: int, day: int)
    requires IsRequest(c, start, end) && Touches(c, start, end, month) && start <= day <= end
    requires c.months.unitOf(day) != month
    ensures DaySamples(c.dayStartOf, MonthLog(c.months, log, month), day) == []
  {
    var p := Both(InBucket(c.months.unitOf, month), OnDay(c.dayStartOf, day));
    MonthDay(c, log, month, day);
    forall s: Sample | s in log
      ensures !p(s)
    {
      if p(s) { SampleOfDay(c, start, end, s.ts.value, day); }
    }
    FilterNone(log, p);
  }

  /** Of an ended month, the whole log and the requested hours have the same samples of a day. */
  lemma WholeMonthDay(c: Clock, log: seq<Sample>, now: int, start: int, end: int, month: int, day: int)
    requires IsRequest(c, start, end) && Touches(c, start, end, month) && start <= day <= end
    requires c.months.unitOf(day) == month && c.months.unitStart(month + 1) <= now
    ensures DaySamples(c.dayStartOf, MonthLog(c.months, log, month), day) ==
            DaySamples(c.dayStartOf, Fetch(log, now, start, end), day)
  {
    var onDay := OnDay(c.dayStartOf, day);
    var p, q := Both(InBucket(c.months.unitOf, month), onDay), Both(Within<Option<real>>(start, end), onDay);
    MonthDay(c, log, month, day);
    FetchDay(c, log, now, start, end, day);
    FilterBoth(log, Reported(now), q);
    forall s: Sample | s in log
      ensures p(s) == Both(Reported(now), q)(s)
    {
      if onDay(s) { RequestedOfMonth(c, now, start, end, month, day, s.ts.value); }
    }
    FilterAgree(log, p, Both(Reported(now), q));
  }

  /** Of the samples of a requested day, those in its month are the requested ones, and reported. */
  lemma RequestedOfMonth(c: Clock, now: int, start: int, end: int, month: int, day: int, t: int)
    requires IsRequest(c, start, end) && Touches(c, start, end, month) && start <= day <= end
    requires c.months.unitOf(day) == month && c.dayStartOf(t) == day
    ensures c.months.unitOf(t) == month <==> start <= t <= end
    ensures c.months.unitOf(t) == month ==> c.months.unitStart(month) <= t < c.months.unitStart(month + 1)
  {
    if c.months.unitOf(t) == month { SampleOfDay(c, start, end, t, day); }
    if start <= t <= end {
      InRequest(c, start, end, t);
      SampleOfDay(c, start, end, t, day);
    }
    assert Splits(c.months, month, t) && Splits(c.months, month + 1, t);
  }

  /** A span that covers the requested part of a month brings all its requested samples. */
  lemma SpanDay(c: Clock, log: seq<Sample>, now: int, start: int, end: int, month: int, lo: int, hi: int, day: int)
    requires IsRequest(c, start, end) && Touches(c, start, end, month) && start <= day <= end
    requires SpanCovers(c.months, start, end, month, lo, hi) && c.months.unitOf(day) == month
    ensures DaySamples(c.dayStartOf, MonthLog(c.months, Fetch(log, now, lo, hi), month), day) ==
            DaySamples(c.dayStartOf, Fetch(log, now, start, end), day)
  {
    var seen, onDay := Filter(log, Reported(now)), OnDay(c.dayStartOf, day);
    var p, q := Both(InBucket(c.months.unitOf, month), onDay), Both(Within<Option<real>>(start, end), onDay);
    MonthDay(c, Fetch(log, now, lo, hi), month, day);
    FetchDay(c, log, now, start, end, day);
    FilterBoth(seen, Within(lo, hi), p);
    forall s: Sample | s in seen
      ensures Both(Within(lo, hi), p)(s) == q(s)
    {
      if onDay(s) { RequestedOfMonth(c, now, start, end, month, day, s.ts.value); }
    }
    FilterAgree(seen, Both(Within(lo, hi), p), q);
  }

  // ---------- the cache invariant ----------

  /** Every resident value is the rollup of its whole month in its own zone, however it was requested. */
  ghost predicate Truthful(clocks: string -> Clock, source: string -> seq<Sample>, slots: Slots<Key, DayMap>) {
    forall s :: s in slots ==> Whole(clocks, source, s.key, s.value)
  }

  ghost predicate Whole(clocks: string -> Clock, source: string -> seq<Sample>, key: Key, days: DayMap) {
    MeansOf(clocks(key.tag).dayStartOf, MonthLog(clocks(key.tag).months, source(key.tag), key.month), days)
  }

  lemma TruthfulAfterGet(clocks: string -> Clock, source: string -> seq<Sample>, slots: Slots<Key, DayMap>, key: Key,
                         now: int)
    requires Truthful(clocks, source, slots)
    ensures Truthful(clocks, source, AfterGet(slots, key, now))
    ensures GetValue(slots, key, now).Some? ==> Whole(clocks, source, key, GetValue(slots, key, now).value)
  {
    FindIsIn(slots, key);
    forall s | s in Without(slots, key) ensures s in slots {
      FilterMember(slots, OtherThan(key), s);
    }
  }

  lemma TruthfulAfterSet(clocks: string -> Clock, source: string -> seq<Sample>, slots: Slots<Key, DayMap>,
                         slot: Slot<Key, DayMap>, max: nat)
    requires Truthful(clocks, source, slots) && Whole(clocks, source, slot.key, slot.value)
    ensures Truthful(clocks, source, AfterSet(slots, slot, max))
  {
    forall s | s in Without(slots, slot.key) ensures s in slots {
      FilterMember(slots, OtherThan(slot.key), s);
    }
  }

  // ---------- filling the answer month by month ----------

  /** On the days of the request, `byDay` is right in the months done and silent in the others. */
  ghost predicate Filled(c: Clock, seen: seq<Sample>, start: int, end: int, done: set<int>, byDay: DayMap) {
    forall d :: start <= d <= end ==>
                  if c.months.unitOf(d) in done then Holds(c.dayStartOf, seen, byDay, d) else d !in byDay
  }

  /** `days` is right on the requested days of one month and silent on those of the others. */
  ghost predicate RightFor(c: Clock, seen: seq<Sample>, start: int, end: int, month: int, days: DayMap) {
    forall d :: start <= d <= end ==>
                  if c.months.unitOf(d) == month then Holds(c.dayStartOf, seen, days, d) else d !in days
  }

  lemma FillMonth(c: Clock, seen: seq<Sample>, start: int, end: int, done: set<int>, byDay: DayMap, month: int,
                  days: DayMap)
    requires Filled(c, seen, start, end, done, byDay) && month !in done && RightFor(c, seen, start, end, month, days)
    ensures Filled(c, seen, start, end, done + {month}, byDay + days)
  {
    forall d | start <= d <= end
      ensures if c.months.unitOf(d) in done + {month} then Holds(c.dayStartOf, seen, byDay + days, d)
              else d !in byDay + days
    {
      assert if c.months.unitOf(d) == month then Holds(c.dayStartOf, seen, days, d) else d !in days;
      assert if c.months.unitOf(d) in done then Holds(c.dayStartOf, seen, byDay, d) else d !in byDay;
    }
  }

  /** The rollup of a whole ended month is right for the part of it a request covers. */
  lemma CachedIsRight(c: Clock, log: seq<Sample>, now: int, start: int, end: int, month: int, days: DayMap)
    requires IsRequest(c, start, end) && Touches(c, start, end, month)
    requires MeansOf(c.dayStartOf, MonthLog(c.months, log, month), days) && c.months.unitStart(month + 1) <= now
    ensures RightFor(c, Fetch(log, now, start, end), start, end, month, days)
  {
    forall d | start <= d <= end
      ensures if c.months.unitOf(d) == month then Holds(c.dayStartOf, Fetch(log, now, start, end), days, d)
              else d !in days
    {
      assert Holds(c.dayStartOf, MonthLog(c.months, log, month), days, d);
      if c.months.unitOf(d) == month {
        WholeMonthDay(c, log, now, start, end, month, d);
      } else {
        OtherMonthsDay(c, log, start, end, month, d);
      }
    }
  }

  lemma FetchedIsRight(c: Clock, log: seq<Sample>, now: int, start: int, end: int, month: int, lo: int, hi: int,
                       days: DayMap)
    requires IsRequest(c, start, end) && Touches(c, start, end, month) &&
             SpanCovers(c.months, start, end, month, lo, hi)
    requires MeansOf(c.dayStartOf, MonthLog(c.months, Fetch(log, now, lo, hi), month), days)
    ensures RightFor(c, Fetch(log, now, start, end), start, end, month, days)
  {
    forall d | start <= d <= end
      ensures if c.months.unitOf(d) == month then Holds(c.dayStartOf, Fetch(log, now, start, end), days, d)
              else d !in days
    {
      assert Holds(c.dayStartOf, MonthLog(c.months, Fetch(log, now, lo, hi), month), days, d);
      if c.months.unitOf(d) == month {
        SpanDay(c, log, now, start, end, month, lo, hi, d);
      } else {
        OtherMonthsDay(c, Fetch(log, now, lo, hi), start, end, month, d);
      }
    }
  }

  /** A month that has ended and is wholly requested is fetched whole, so it may be stored. */
  lemma FetchedIsWhole(g: Grid, log: seq<Sample>, now: int, start: int, end: int, month: int, lo: int, hi: int)
    requires IsGrid(g, month, month + 1) && SpanCovers(g, start, end, month, lo, hi)
    requires start <= g.unitStart(month) && g.unitStart(month + 1) - 1 <= end && g.unitStart(month + 1) <= now
    ensures MonthLog(g, Fetch(log, now, lo, hi), month) == MonthLog(g, log, month)
  {
    var inMonth := InBucket(g.unitOf, month);
    forall s: Sample | inMonth(s)
      ensures Reported(now)(s) && Within(lo, hi)(s)
    {
      assert Splits(g, month, s.ts.value) && Splits(g, month + 1, s.ts.value);
    }
    FilterFilter(Filter(log, Reported(now)), Within(lo, hi), inMonth);
    FilterFilter(log, Reported(now), inMonth);
  }

  // ---------- what a request stores ----------

  /** Ended and requested end to end. */
  function Storable(start: int, end: int, now: int): Month -> bool {
    (m: Month) => m.end < now && m.start >= start && m.end <= end
  }

  function KeyFor(tag: string): int -> Key {
    (k: int) => Key(k, tag)
  }

  /** The cache after a month, set to its value if it is to be stored. */
  ghost function StoredMonth(slots: Slots<Key, DayMap>, month: Month, days: DayMap, start: int, end: int, tag: string,
                             now: int, ttlMs: int, max: nat): Slots<Key, DayMap> {
    if Storable(start, end, now)(month) then AfterSet(slots, Slot(Key(month.key, tag), days, now + ttlMs), max)
    else slots
  }

  /** The cache after the first months, each set to its value if it is to be stored. */
  ghost predicate HasStored(slots: Slots<Key, DayMap>, before: Slots<Key, DayMap>, months: seq<Month>,
                            stored: seq<DayMap>, start: int, end: int, tag: string, now: int, ttlMs: int, max: nat) {
    |stored| == |months| &&
    slots == AfterMonths(before, months, stored, Storable(start, end, now), KeyFor(tag), now + ttlMs, max)
  }

  lemma StoredOneMore(slots: Slots<Key, DayMap>, before: Slots<Key, DayMap>, missing: seq<Month>, i: nat,
                      stored: seq<DayMap>, days: DayMap, start: int, end: int, tag: string, now: int, ttlMs: int,
                      max: nat)
    requires i < |missing| && HasStored(slots, before, missing[..i], stored, start, end, tag, now, ttlMs, max)
    ensures HasStored(StoredMonth(slots, missing[i], days, start, end, tag, now, ttlMs, max), before, missing[..i + 1],
                      stored + [days], start, end, tag, now, ttlMs, max)
  {
    AfterOneMore(before, missing, i, stored, days, Storable(start, end, now), KeyFor(tag), now + ttlMs, max);
  }
}
