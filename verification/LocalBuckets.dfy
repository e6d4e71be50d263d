/** workers/lib/metrics.utils.js: grouping a log into the local days, weeks or months of a zone. */
module LocalBuckets {
  import opened Wrappers
  import opened Seqs
  import opened StableSort
  import opened Grouping
  import opened Calendar
  import opened LocalTime

  datatype Interval = OneDay | OneWeek | OneMonth

  datatype Bucket<T> = Bucket(startTs: int, endTs: int, entries: seq<Entry<T>>)

  /** The bucket-start function an interval selects. */
  function BucketStartOf(z: Zone, iv: Interval): int -> int {
    match iv
    case OneDay => ts => LocalDayStart(z, ts)
    case OneWeek => ts => LocalWeekStart(z, ts)
    case OneMonth => ts => LocalMonthStart(z, ts)
  }

  function StepMs(iv: Interval): int {
    match iv
    case OneDay => DAY_MS + DAY_MS / 2
    case OneWeek => 7 * DAY_MS + DAY_MS / 2
    case OneMonth => 32 * DAY_MS
  }

  // ---------- calendar units, the reference the buckets are compared with ----------

  /** A numbering of instants by unit, with the first instant of each unit. */
  datatype Grid = Grid(unitOf: int -> int, unitStart: int -> int)

  /** A unit's start splits all instants into those of earlier units and the rest. */
  ghost predicate Splits(g: Grid, unit: int, t: int) {
    t >= g.unitStart(unit) <==> g.unitOf(t) >= unit
  }

  /** The starts of units `lo` to `hi` are in order and split all instants; of the starts of other
      units nothing is said. */
  ghost predicate IsGrid(g: Grid, lo: int, hi: int) {
    && (forall unit, t :: lo <= unit <= hi ==> Splits(g, unit, t))
    && (forall a, b :: lo <= a < b <= hi ==> g.unitStart(a) < g.unitStart(b))
  }

  function DayGrid(z: Zone): Grid {
    Grid(t => LocalDay(z, t), d => DayStart(z, d))
  }

  function WeekGrid(z: Zone): Grid {
    Grid(t => WeekOf(LocalDay(z, t)), w => DayStart(z, MondayOf(w)))
  }

  /** localMonthKey and localMonthStartTs of one zone. */
  function MonthGrid(z: Zone): Grid {
    Grid(t => LocalMonth(z, t), mi => LocalMonthStartTs(z, mi))
  }

  function UnitGrid(z: Zone, iv: Interval): Grid {
    match iv
    case OneDay => DayGrid(z)
    case OneWeek => WeekGrid(z)
    case OneMonth => MonthGrid(z)
  }

  /** What unit `u` needs of the zone: a day or month that its first midnight is clear, a week that
      its days are. */
  ghost predicate UnitClear(z: Zone, iv: Interval, u: int) {
    match iv
    case OneDay => ClearDay(z, u)
    case OneWeek => ClearDays(z, MondayOf(u) - 1, MondayOf(u) + 7)
    case OneMonth => ClearDay(z, MonthStartDay(u))
  }

  ghost predicate UnitsClear(z: Zone, iv: Interval, lo: int, hi: int) {
    Regular(z) && forall u :: lo <= u <= hi ==> UnitClear(z, iv, u)
  }

  lemma DayGridIsGrid(z: Zone, lo: int, hi: int)
    requires UnitsClear(z, OneDay, lo, hi)
    ensures IsGrid(DayGrid(z), lo, hi)
  {
    forall d, t | lo <= d <= hi
      ensures Splits(DayGrid(z), d, t)
    {
      assert UnitClear(z, OneDay, d);
      DaySplit(z, d, t);
    }
    forall a, b | lo <= a < b <= hi
      ensures DayGrid(z).unitStart(a) < DayGrid(z).unitStart(b)
    {
      assert UnitClear(z, OneDay, a) && UnitClear(z, OneDay, b);
      DayStartsIncrease(z, a, b);
    }
  }

  lemma MondayIsClear(z: Zone, w: int)
    requires UnitClear(z, OneWeek, w)
    ensures Regular(z) && ClearDay(z, MondayOf(w))
  {
  }

  lemma WeekGridIsGrid(z: Zone, lo: int, hi: int)
    requires UnitsClear(z, OneWeek, lo, hi)
    ensures IsGrid(WeekGrid(z), lo, hi)
  {
    forall w, t | lo <= w <= hi
      ensures Splits(WeekGrid(z), w, t)
    {
      assert UnitClear(z, OneWeek, w);
      MondayIsClear(z, w);
      DaySplit(z, MondayOf(w), t);
    }
    forall a, b | lo <= a < b <= hi
      ensures WeekGrid(z).unitStart(a) < WeekGrid(z).unitStart(b)
    {
      assert UnitClear(z, OneWeek, a) && UnitClear(z, OneWeek, b);
      MondayIsClear(z, a);
      MondayIsClear(z, b);
      DayStartsIncrease(z, MondayOf(a), MondayOf(b));
    }
  }

  lemma MonthStartsIncrease(z: Zone, a: int, b: int)
    requires Regular(z) && UnitClear(z, OneMonth, a) && UnitClear(z, OneMonth, b) && a < b
    ensures LocalMonthStartTs(z, a) < LocalMonthStartTs(z, b)
  {
    MonthStartsSpread(a, b);
    DayStartsIncrease(z, MonthStartDay(a), MonthStartDay(b));
    LocalMonthStartTsResolves(z, a);
    LocalMonthStartTsResolves(z, b);
  }

  lemma MonthGridIsGrid(z: Zone, lo: int, hi: int)
    requires UnitsClear(z, OneMonth, lo, hi)
    ensures IsGrid(MonthGrid(z), lo, hi)
  {
    forall mi, t | lo <= mi <= hi
      ensures Splits(MonthGrid(z), mi, t)
    {
      assert UnitClear(z, OneMonth, mi);
      LocalMonthStartTsCorrect(z, mi, t);
    }
    forall a, b | lo <= a < b <= hi
      ensures MonthGrid(z).unitStart(a) < MonthGrid(z).unitStart(b)
    {
      assert UnitClear(z, OneMonth, a) && UnitClear(z, OneMonth, b);
      MonthStartsIncrease(z, a, b);
    }
  }

  /** Clear days, weeks or months of any zone are a grid. */
  lemma UnitGridIsGrid(z: Zone, iv: Interval, lo: int, hi: int)
    requires UnitsClear(z, iv, lo, hi)
    ensures IsGrid(UnitGrid(z, iv), lo, hi)
  {
    match iv
    case OneDay => DayGridIsGrid(z, lo, hi);
    case OneWeek => WeekGridIsGrid(z, lo, hi);
    case OneMonth => MonthGridIsGrid(z, lo, hi);
  }

  /** The default zone, from its last summer time on, skipped a midnight, but the first of no month: its
      months are a grid, all of them. */
  lemma CampoGrandeMonths(lo: int, hi: int)
    ensures UnitsClear(CampoGrande(), OneMonth, lo, hi) && IsGrid(MonthGrid(CampoGrande()), lo, hi)
  {
    CampoGrandeRegular();
    forall u | lo <= u <= hi
      ensures UnitClear(CampoGrande(), OneMonth, u)
    {
      MonthStartNotSkipped(u);
      CampoGrandeClear(MonthStartDay(u));
    }
    MonthGridIsGrid(CampoGrande(), lo, hi);
  }

  lemma NovemberStart()
    ensures MonthStartDay(12 * 2018 + 10) == 17836
  {
    assert (12 * 2018 + 10) / 12 == 2018 && (12 * 2018 + 10) % 12 == 10;
    assert YearStartDay(2018) == 17532;
    TenMonths();
  }

  lemma TenMonths()
    ensures DaysBeforeMonth(2018, 10) == 304
  {
    assert DaysBeforeMonth(2018, 2) == 59;
    assert DaysBeforeMonth(2018, 4) == 120;
    assert DaysBeforeMonth(2018, 6) == 181;
    assert DaysBeforeMonth(2018, 8) == 243;
  }

  lemma MonthStartNotSkipped(mi: int)
    ensures MonthStartDay(mi) != 17839
  {
    NovemberStart();
    if mi <= 12 * 2018 + 10 {
      MonthStartsSpread(mi, 12 * 2018 + 10);
    } else {
      MonthStartsSpread(12 * 2018 + 10, mi);
    }
  }

  /** What a week start needs of the zone; days and months need nothing. */
  predicate Reaches(z: Zone, iv: Interval, ts: int) {
    iv.OneWeek? ==> StepBackReaches(z, ts)
  }

  // ---------- the next boundary ----------

  lemma NextDay(z: Zone, d: int)
    requires Regular(z) && ClearDay(z, d)
    ensures LocalDayStart(z, DayStart(z, d) + StepMs(OneDay)) == DayStart(z, d + 1)
  {
    StepLands(z, d, StepMs(OneDay), 1, 1);
    LocalDayStartResolves(z, DayStart(z, d) + StepMs(OneDay));
  }

  lemma MondayReaches(z: Zone, week: int, ts: int)
    requires LocalDay(z, ts) == MondayOf(week)
    ensures WeekOf(LocalDay(z, ts)) == week && StepBackReaches(z, ts)
  {
  }

  lemma NextWeek(z: Zone, week: int)
    requires UnitClear(z, OneWeek, week) && UnitClear(z, OneWeek, week + 1)
    ensures LocalWeekStart(z, DayStart(z, MondayOf(week)) + StepMs(OneWeek)) == DayStart(z, MondayOf(week + 1))
  {
    var next := DayStart(z, MondayOf(week)) + StepMs(OneWeek);
    MondayIsClear(z, week);
    StepLands(z, MondayOf(week), StepMs(OneWeek), 7, 7);
    MondayReaches(z, week + 1, next);
    LocalWeekStartExact(z, next, MondayOf(week + 1));
  }

  /** 32 days on from a day start lie between the starts of any day up to 31 on and any past 32. */
  lemma MonthStepLands(z: Zone, d0: int, d1: int, d2: int)
    requires Regular(z) && ClearDay(z, d0) && CleanDay(z, d1) && CleanDay(z, d2) && d1 <= d0 + 31 && d0 + 32 < d2
    ensures DayStart(z, d1) <= DayStart(z, d0) + StepMs(OneMonth) < DayStart(z, d2)
  {
    var t := DayStart(z, d0) + StepMs(OneMonth);
    StepLands(z, d0, StepMs(OneMonth), 31, 32);
    DaySplit(z, d1, t);
    DaySplit(z, d2, t);
  }

  lemma MonthGridStart(z: Zone, mi: int)
    ensures MonthGrid(z).unitStart(mi) == DayStart(z, MonthStartDay(mi))
  {
    LocalMonthStartTsResolves(z, mi);
  }

  lemma MonthStepBounds(mi: int)
    ensures MonthStartDay(mi + 1) <= MonthStartDay(mi) + 31 && MonthStartDay(mi) + 32 < MonthStartDay(mi + 2)
  {
    MonthLength(mi);
    MonthLength(mi + 1);
  }

  lemma MonthStepBetween(z: Zone, mi: int)
    requires UnitsClear(z, OneMonth, mi, mi + 2)
    ensures var g := MonthGrid(z); g.unitStart(mi + 1) <= g.unitStart(mi) + StepMs(OneMonth) < g.unitStart(mi + 2)
  {
    MonthGridStart(z, mi);
    MonthGridStart(z, mi + 1);
    MonthGridStart(z, mi + 2);
    MonthStepBounds(mi);
    assert UnitClear(z, OneMonth, mi) && UnitClear(z, OneMonth, mi + 1) && UnitClear(z, OneMonth, mi + 2);
    MonthStepLands(z, MonthStartDay(mi), MonthStartDay(mi + 1), MonthStartDay(mi + 2));
  }

  lemma UnitBetween(g: Grid, unit: int, t: int)
    requires IsGrid(g, unit, unit + 1) && g.unitStart(unit) <= t < g.unitStart(unit + 1)
    ensures g.unitOf(t) == unit
  {
    assert Splits(g, unit, t) && Splits(g, unit + 1, t);
  }

  lemma NextMonth(z: Zone, mi: int)
    requires UnitsClear(z, OneMonth, mi, mi + 2)
    ensures MonthGrid(z).unitOf(MonthGrid(z).unitStart(mi) + StepMs(OneMonth)) == mi + 1
  {
    MonthGridIsGrid(z, mi + 1, mi + 2);
    MonthStepBetween(z, mi);
    UnitBetween(MonthGrid(z), mi + 1, MonthGrid(z).unitStart(mi) + StepMs(OneMonth));
  }

  lemma MonthStartIsUnitStart(z: Zone, t: int)
    ensures BucketStartOf(z, OneMonth)(t) == MonthGrid(z).unitStart(MonthGrid(z).unitOf(t))
  {
  }

  /** The start re-derived `step` after a unit's start is the start of the next unit. */
  ghost predicate StepsOver(startOf: int -> int, g: Grid, step: int, unit: int) {
    startOf(g.unitStart(unit) + step) == g.unitStart(unit + 1)
  }

  /** Across 23 to 25 hour days and 28 to 31 day months, the start re-derived after the 1.5-day,
      7.5-day or 32-day step is exactly the next boundary. */
  lemma NextBoundary(z: Zone, iv: Interval, unit: int)
    requires UnitsClear(z, iv, unit, unit + 2)
    ensures StepsOver(BucketStartOf(z, iv), UnitGrid(z, iv), StepMs(iv), unit)
  {
    assert UnitClear(z, iv, unit) && UnitClear(z, iv, unit + 1);
    match iv
    case OneDay => NextDayBoundary(z, unit);
    case OneWeek => NextWeekBoundary(z, unit);
    case OneMonth => NextMonthBoundary(z, unit);
  }

  lemma NextDayBoundary(z: Zone, unit: int)
    requires Regular(z) && ClearDay(z, unit)
    ensures StepsOver(BucketStartOf(z, OneDay), DayGrid(z), StepMs(OneDay), unit)
  {
    NextDay(z, unit);
  }

  lemma NextWeekBoundary(z: Zone, unit: int)
    requires UnitClear(z, OneWeek, unit) && UnitClear(z, OneWeek, unit + 1)
    ensures StepsOver(BucketStartOf(z, OneWeek), WeekGrid(z), StepMs(OneWeek), unit)
  {
    NextWeek(z, unit);
  }

  lemma NextMonthBoundary(z: Zone, unit: int)
    requires UnitsClear(z, OneMonth, unit, unit + 2)
    ensures StepsOver(BucketStartOf(z, OneMonth), MonthGrid(z), StepMs(OneMonth), unit)
  {
    NextMonth(z, unit);
    MonthStartIsUnitStart(z, MonthGrid(z).unitStart(unit) + StepMs(OneMonth));
  }

  lemma WeekStartIsUnitStart(z: Zone, ts: int)
    requires UnitClear(z, OneWeek, WeekOf(LocalDay(z, ts))) && StepBackReaches(z, ts)
    ensures LocalWeekStart(z, ts) == DayStart(z, MondayOf(WeekOf(LocalDay(z, ts))))
  {
    LocalWeekStartExact(z, ts, MondayOf(WeekOf(LocalDay(z, ts))));
  }

  /** The selected function gives the start of the unit an instant belongs to. */
  lemma BucketStartIsUnitStart(z: Zone, iv: Interval, ts: int)
    requires UnitClear(z, iv, UnitGrid(z, iv).unitOf(ts)) && Reaches(z, iv, ts)
    ensures var g := UnitGrid(z, iv); BucketStartOf(z, iv)(ts) == g.unitStart(g.unitOf(ts))
  {
    match iv
    case OneDay => LocalDayStartResolves(z, ts);
    case OneWeek => WeekStartIsUnitStart(z, ts);
    case OneMonth =>
  }

  // ---------- grouping ----------

  function InUnit<T>(g: Grid, unit: int): Entry<T> -> bool {
    (e: Entry<T>) => e.ts.Some? && g.unitOf(e.ts.value) == unit
  }

  function Clamped<T>(key: int, next: int, start: int, end: int, entries: seq<Entry<T>>): Bucket<T> {
    Bucket(if start >= key then start else key, if end <= next - 1 then end else next - 1, entries)
  }

  function BucketAt<T>(startOf: int -> int, step: int, log: seq<Entry<T>>, start: int, end: int, key: int): Bucket<T> {
    Clamped(key, startOf(key + step), start, end, Filter(log, InBucket(startOf, key)))
  }

  function SortedKeys<T>(startOf: int -> int, log: seq<Entry<T>>): seq<int> {
    Sort(KeysOf(startOf, log), Ascending())
  }

  /** One clamped bucket per key, in ascending order of the keys. */
  ghost predicate GroupedBy<T>(startOf: int -> int, step: int, log: seq<Entry<T>>, start: int, end: int,
                               r: seq<Bucket<T>>) {
    var keys := SortedKeys(startOf, log);
    |r| == |keys| && forall i :: 0 <= i < |r| ==> r[i] == BucketAt(startOf, step, log, start, end, keys[i])
  }

  ghost predicate AllClamped<T>(startOf: int -> int, step: int, keys: seq<int>, buckets: map<int, seq<Entry<T>>>,
                                start: int, end: int,
                                r: seq<Bucket<T>>) {
    |r| == |keys| &&
    forall i :: 0 <= i < |r| ==>
      keys[i] in buckets && r[i] == Clamped(keys[i], startOf(keys[i] + step), start, end, buckets[keys[i]])
  }

  method ClampBuckets<T>(bucketStartOf: int -> int, step: int, keys: seq<int>, buckets: map<int, seq<Entry<T>>>,
                         start: int, end: int)
    returns (r: seq<Bucket<T>>)
    requires forall k :: k in keys ==> k in buckets
    ensures AllClamped(bucketStartOf, step, keys, buckets, start, end, r)
  {
    r := [];
    for i := 0 to |keys|
      invariant AllClamped(bucketStartOf, step, keys[..i], buckets, start, end, r)
    {
      var bucketStart := keys[i];
      assert bucketStart in keys;
      var bucketEnd := bucketStartOf(bucketStart + step) - 1;
      var startTs := if start >= bucketStart then start else bucketStart;
      var endTs := if end <= bucketEnd then end else bucketEnd;
      r := r + [Bucket(startTs, endTs, buckets[bucketStart])];
    }
    assert keys[..|keys|] == keys;
  }

  /** Clamping the collected buckets in ascending order of their keys is the grouping. */
  lemma ClampedIsGrouped<T>(startOf: int -> int, step: int, log: seq<Entry<T>>, start: int, end: int,
                            keys: seq<int>, buckets: map<int, seq<Entry<T>>>, r: seq<Bucket<T>>)
    requires Collected(startOf, log, keys, buckets)
    requires AllClamped(startOf, step, SortedKeys(startOf, log), buckets, start, end, r)
    ensures GroupedBy(startOf, step, log, start, end, r)
  {
    forall i | 0 <= i < |r|
      ensures r[i] == BucketAt(startOf, step, log, start, end, SortedKeys(startOf, log)[i])
    {
      var k := SortedKeys(startOf, log)[i];
      assert Filter(log, InBucket(startOf, k)) == buckets[k];
    }
  }

  lemma SortedKeysCollected<T>(startOf: int -> int, log: seq<Entry<T>>, keys: seq<int>,
                               buckets: map<int, seq<Entry<T>>>)
    requires Collected(startOf, log, keys, buckets)
    ensures Sort(keys, Ascending()) == SortedKeys(startOf, log)
    ensures forall k :: k in SortedKeys(startOf, log) ==> k in buckets
  {
    SortedKeysStay(startOf, log);
  }

  method GroupBy<T>(log: seq<Entry<T>>, bucketStartOf: int -> int, step: int, start: int, end: int)
    returns (r: seq<Bucket<T>>)
    ensures GroupedBy(bucketStartOf, step, log, start, end, r)
  {
    var keys, buckets := CollectBuckets(log, bucketStartOf);
    SortedKeysCollected(bucketStartOf, log, keys, buckets);
    var sorted := Sort(keys, Ascending());
    r := ClampBuckets(bucketStartOf, step, sorted, buckets, start, end);
    ClampedIsGrouped(bucketStartOf, step, log, start, end, keys, buckets, r);
  }

  method GroupLocalBuckets<T>(log: seq<Entry<T>>, iv: Interval, z: Zone, start: int, end: int)
    returns (r: seq<Bucket<T>>)
    ensures GroupedBy(BucketStartOf(z, iv), StepMs(iv), log, start, end, r)
  {
    r := GroupBy(log, BucketStartOf(z, iv), StepMs(iv), start, end);
  }

  lemma SortedKeysStay<T>(startOf: int -> int, log: seq<Entry<T>>)
    ensures forall k :: k in SortedKeys(startOf, log) <==> k in KeysOf(startOf, log)
  {
    KeysDistinct(startOf, log);
    SortAscending(KeysOf(startOf, log));
  }

  lemma SortedKeysAscend<T>(startOf: int -> int, log: seq<Entry<T>>)
    ensures forall i, j :: 0 <= i < j < |SortedKeys(startOf, log)| ==>
            SortedKeys(startOf, log)[i] < SortedKeys(startOf, log)[j]
  {
    KeysDistinct(startOf, log);
    SortAscending(KeysOf(startOf, log));
  }

  // ---------- the buckets are calendar units ----------

  /** The dated entries of a log lie in units `lo` to `hi`. */
  ghost predicate UnitsWithin<T>(g: Grid, log: seq<Entry<T>>, lo: int, hi: int) {
    forall e :: e in log && e.ts.Some? ==> lo <= g.unitOf(e.ts.value) <= hi
  }

  /** The bucket-start function agrees with the grid on the log, and the step finds next starts. */
  ghost predicate Follows<T>(g: Grid, startOf: int -> int, step: int, log: seq<Entry<T>>, lo: int, hi: int) {
    && UnitsWithin(g, log, lo, hi)
    && (forall e :: e in log && e.ts.Some? ==> startOf(e.ts.value) == g.unitStart(g.unitOf(e.ts.value)))
    && (forall unit :: lo <= unit <= hi ==> StepsOver(startOf, g, step, unit))
  }

  /** `units` lists the units of the buckets: one bucket per unit that has entries, in order. */
  ghost predicate BucketsAre<T>(g: Grid, log: seq<Entry<T>>, start: int, end: int, r: seq<Bucket<T>>, units: seq<int>) {
    && |units| == |r|
    && (forall i :: 0 <= i < |r| ==> r[i] == UnitBucket(g, log, start, end, units[i]))
    && (forall i, j :: 0 <= i < j < |units| ==> units[i] < units[j])
    && (forall e :: e in log && e.ts.Some? ==> g.unitOf(e.ts.value) in units)
  }

  ghost function UnitBucket<T>(g: Grid, log: seq<Entry<T>>, start: int, end: int, unit: int): Bucket<T> {
    Clamped(g.unitStart(unit), g.unitStart(unit + 1), start, end, Filter(log, InUnit(g, unit)))
  }

  lemma KeyIsUnitStart<T>(g: Grid, startOf: int -> int, step: int, log: seq<Entry<T>>, lo: int, hi: int,
                          start: int, end: int, key: int)
    returns (unit: int)
    requires IsGrid(g, lo, hi) && Follows(g, startOf, step, log, lo, hi) && key in KeysOf(startOf, log)
    ensures key == g.unitStart(unit) && lo <= unit <= hi
    ensures BucketAt(startOf, step, log, start, end, key) == UnitBucket(g, log, start, end, unit)
  {
    var met := KeyIsMet(startOf, log, key);
    unit := g.unitOf(met.ts.value);
    assert StepsOver(startOf, g, step, unit);
    forall e: Entry<T> | e in log
      ensures InBucket(startOf, key)(e) == InUnit(g, unit)(e)
    {
      if InBucket(startOf, key)(e) { SameStartSameUnit(g, lo, hi, g.unitOf(e.ts.value), unit); }
    }
    FilterAgree(log, InBucket(startOf, key), InUnit(g, unit));
  }

  /** `units` are the units whose starts are the keys. */
  ghost predicate UnitsAre(g: Grid, keys: seq<int>, units: seq<int>, lo: int, hi: int) {
    |units| == |keys| && forall i :: 0 <= i < |keys| ==> keys[i] == g.unitStart(units[i]) && lo <= units[i] <= hi
  }

  lemma {:induction false} UnitsOfKeys<T>(g: Grid, startOf: int -> int, step: int, log: seq<Entry<T>>, lo: int, hi: int,
                                          start: int, end: int, keys: seq<int>)
    returns (units: seq<int>)
    requires IsGrid(g, lo, hi) && Follows(g, startOf, step, log, lo, hi)
    requires forall k :: k in keys ==> k in KeysOf(startOf, log)
    ensures UnitsAre(g, keys, units, lo, hi)
    ensures forall i :: 0 <= i < |keys| ==>
              BucketAt(startOf, step, log, start, end, keys[i]) == UnitBucket(g, log, start, end, units[i])
  {
    if keys == [] {
      units := [];
    } else {
      var n := |keys| - 1;
      units := UnitsOfKeys(g, startOf, step, log, lo, hi, start, end, keys[..n]);
      var unit := KeyIsUnitStart(g, startOf, step, log, lo, hi, start, end, keys[n]);
      units := units + [unit];
    }
  }

  lemma SameStartSameUnit(g: Grid, lo: int, hi: int, a: int, b: int)
    requires IsGrid(g, lo, hi) && lo <= a <= hi && lo <= b <= hi && g.unitStart(a) == g.unitStart(b)
    ensures a == b
  {
    assert a < b ==> g.unitStart(a) < g.unitStart(b);
    assert b < a ==> g.unitStart(b) < g.unitStart(a);
  }

  lemma UnitsAscend(g: Grid, lo: int, hi: int, keys: seq<int>, units: seq<int>)
    requires IsGrid(g, lo, hi) && UnitsAre(g, keys, units, lo, hi)
    requires forall i, j :: 0 <= i < j < |keys| ==> keys[i] < keys[j]
    ensures forall i, j :: 0 <= i < j < |units| ==> units[i] < units[j]
  {
    forall i, j | 0 <= i < j < |units|
      ensures units[i] < units[j]
    {
      LaterStartLaterUnit(g, lo, hi, units[i], units[j]);
    }
  }

  lemma LaterStartLaterUnit(g: Grid, lo: int, hi: int, a: int, b: int)
    requires IsGrid(g, lo, hi) && lo <= a <= hi && lo <= b <= hi && g.unitStart(a) < g.unitStart(b)
    ensures a < b
  {
    assert b < a ==> g.unitStart(b) < g.unitStart(a);
  }

  lemma GroupingFollowsGrid<T>(g: Grid, startOf: int -> int, step: int, log: seq<Entry<T>>, lo: int, hi: int,
                               start: int, end: int, r: seq<Bucket<T>>)
    returns (units: seq<int>)
    requires IsGrid(g, lo, hi) && Follows(g, startOf, step, log, lo, hi) && GroupedBy(startOf, step, log, start, end, r)
    ensures BucketsAre(g, log, start, end, r, units)
    ensures forall u :: u in units ==> lo <= u <= hi
  {
    var keys := SortedKeys(startOf, log);
    SortedKeysStay(startOf, log);
    SortedKeysAscend(startOf, log);
    units := UnitsOfKeys(g, startOf, step, log, lo, hi, start, end, keys);
    UnitsAscend(g, lo, hi, keys, units);
    forall e: Entry<T> | e in log && e.ts.Some?
      ensures g.unitOf(e.ts.value) in units
    {
      MetIsKey(startOf, log, e);
      var j :| 0 <= j < |keys| && keys[j] == startOf(e.ts.value);
      SameStartSameUnit(g, lo, hi, units[j], g.unitOf(e.ts.value));
      assert units[j] in units;
    }
  }

  /** Ranges stay inside the request and do not overlap, and in-range entries are inside theirs. */
  lemma RangesDisjointAndCovering<T>(g: Grid, log: seq<Entry<T>>, lo: int, hi: int, start: int, end: int,
                                     r: seq<Bucket<T>>, units: seq<int>)
    requires IsGrid(g, lo, hi + 1) && BucketsAre(g, log, start, end, r, units)
    requires forall u :: u in units ==> lo <= u <= hi
    ensures forall i :: 0 <= i < |r| ==> start <= r[i].startTs && r[i].endTs <= end
    ensures forall i, j :: 0 <= i < j < |r| ==> r[i].endTs < r[j].startTs
    ensures forall i, e :: 0 <= i < |r| && e in r[i].entries && e.ts.Some? && start <= e.ts.value <= end ==>
              r[i].startTs <= e.ts.value <= r[i].endTs
  {
    forall i, j | 0 <= i < j < |r|
      ensures r[i].endTs < r[j].startTs
    {
      assert units[i] in units && units[j] in units;
      assert units[i] + 1 < units[j] ==> g.unitStart(units[i] + 1) < g.unitStart(units[j]);
    }
    forall i, e: Entry<T> | 0 <= i < |r| && e in r[i].entries && e.ts.Some? && start <= e.ts.value <= end
      ensures r[i].startTs <= e.ts.value <= r[i].endTs
    {
      assert units[i] in units;
      FilterMember(log, InUnit(g, units[i]), e);
      assert Splits(g, units[i], e.ts.value) && Splits(g, units[i] + 1, e.ts.value);
    }
  }

  /** Every dated entry is in exactly one bucket, as often as the log has it, whatever the zone. */
  lemma EachEntryOnce<T>(startOf: int -> int, step: int, log: seq<Entry<T>>, start: int, end: int, r: seq<Bucket<T>>,
                         e: Entry<T>)
    returns (i: nat)
    requires GroupedBy(startOf, step, log, start, end, r) && e in log && e.ts.Some?
    ensures i < |r| && multiset(r[i].entries)[e] == multiset(log)[e]
    ensures forall j :: 0 <= j < |r| && j != i ==> e !in r[j].entries
  {
    var keys := SortedKeys(startOf, log);
    SortedKeysStay(startOf, log);
    SortedKeysAscend(startOf, log);
    MetIsKey(startOf, log, e);
    i :| 0 <= i < |keys| && keys[i] == startOf(e.ts.value);
    FilterCounts(log, InBucket(startOf, keys[i]), e);
    forall j | 0 <= j < |r| && j != i
      ensures e !in r[j].entries
    {
      assert keys[j] != keys[i];
      FilterMember(log, InBucket(startOf, keys[j]), e);
    }
  }

  lemma {:induction false} FilterCounts<T>(xs: seq<T>, p: T -> bool, x: T)
    requires p(x)
    ensures multiset(Filter(xs, p))[x] == multiset(xs)[x]
  {
    if xs != [] {
      FilterCounts(xs[..|xs| - 1], p, x);
      assert xs == xs[..|xs| - 1] + [xs[|xs| - 1]];
    }
  }

  ghost predicate AllReach<T>(z: Zone, iv: Interval, log: seq<Entry<T>>) {
    forall e :: e in log && e.ts.Some? ==> Reaches(z, iv, e.ts.value)
  }

  lemma ZoneFollows<T>(z: Zone, iv: Interval, log: seq<Entry<T>>, lo: int, hi: int)
    requires UnitsClear(z, iv, lo, hi + 2) && UnitsWithin(UnitGrid(z, iv), log, lo, hi) && AllReach(z, iv, log)
    ensures Follows(UnitGrid(z, iv), BucketStartOf(z, iv), StepMs(iv), log, lo, hi)
  {
    forall e: Entry<T> | e in log && e.ts.Some?
      ensures var g := UnitGrid(z, iv); BucketStartOf(z, iv)(e.ts.value) == g.unitStart(g.unitOf(e.ts.value))
    {
      assert UnitClear(z, iv, UnitGrid(z, iv).unitOf(e.ts.value));
      BucketStartIsUnitStart(z, iv, e.ts.value);
    }
    forall unit | lo <= unit <= hi
      ensures StepsOver(BucketStartOf(z, iv), UnitGrid(z, iv), StepMs(iv), unit)
    {
      NextBoundary(z, iv, unit);
    }
  }

  /** groupLocalBuckets partitions the log into the local days, weeks or months of the zone: one
      bucket per unit with entries, in order, clamped to the request, ranges pairwise disjoint. Only
      the units the log has entries in, and the next two, need be clear. */
  lemma GroupingIsByUnit<T>(z: Zone, iv: Interval, log: seq<Entry<T>>, lo: int, hi: int, start: int, end: int,
                            r: seq<Bucket<T>>)
    returns (units: seq<int>)
    requires UnitsClear(z, iv, lo, hi + 2) && UnitsWithin(UnitGrid(z, iv), log, lo, hi) && AllReach(z, iv, log)
    requires GroupedBy(BucketStartOf(z, iv), StepMs(iv), log, start, end, r)
    ensures BucketsAre(UnitGrid(z, iv), log, start, end, r, units)
    ensures forall i, j :: 0 <= i < j < |r| ==> r[i].endTs < r[j].startTs
    ensures forall i, e :: 0 <= i < |r| && e in r[i].entries && e.ts.Some? && start <= e.ts.value <= end ==>
              r[i].startTs <= e.ts.value <= r[i].endTs
  {
    UnitGridIsGrid(z, iv, lo, hi);
    UnitGridIsGrid(z, iv, lo, hi + 1);
    ZoneFollows(z, iv, log, lo, hi);
    units := GroupingFollowsGrid(UnitGrid(z, iv), BucketStartOf(z, iv), StepMs(iv), log, lo, hi, start, end, r);
    RangesDisjointAndCovering(UnitGrid(z, iv), log, lo, hi, start, end, r, units);
  }
}
