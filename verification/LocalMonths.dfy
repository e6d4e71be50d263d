/** workers/lib/metrics.utils.js: the calendar months a range touches. */
module LocalMonths {
  import opened Calendar
  import opened LocalTime
  import opened LocalBuckets

  /** `key` is the month itself, which the code writes as YYYY-MM. */
  datatype Month = Month(key: int, start: int, end: int)

  function MonthOn(g: Grid, mi: int): Month {
    Month(mi, g.unitStart(mi), g.unitStart(mi + 1) - 1)
  }

  /** Month starts stay within a day of their wall clock, whatever the shifts. */
  ghost predicate NearWall(g: Grid, mi: int) {
    g.unitStart(mi) > (MonthStartDay(mi) - 1) * DAY_MS
  }

  /** The months from that of `start` on that begin by `end`, and no more. */
  ghost predicate MonthsUpTo(g: Grid, start: int, end: int, months: seq<Month>) {
    && FirstMonths(g, start, end, months)
    && g.unitStart(g.unitOf(start) + |months|) > end
  }

  /** How far the wall-clock start of month `mi` is from a day after `end`. */
  ghost function Ahead(mi: int, end: int): int {
    end + DAY_MS - MonthStartDay(mi) * DAY_MS
  }

  lemma AheadShrinks(g: Grid, mi: int, end: int)
    requires NearWall(g, mi) && g.unitStart(mi) <= end
    ensures Ahead(mi + 1, end) < Ahead(mi, end) && 0 <= Ahead(mi, end)
  {
    MonthLength(mi);
  }

  ghost predicate FirstMonths(g: Grid, start: int, end: int, months: seq<Month>) {
    forall i :: 0 <= i < |months| ==> months[i] == MonthOn(g, g.unitOf(start) + i) && months[i].start <= end
  }

  method MonthsFrom(g: Grid, start: int, end: int) returns (months: seq<Month>)
    requires forall mi :: NearWall(g, mi)
    ensures MonthsUpTo(g, start, end, months)
  {
    var mi := g.unitOf(start);
    months := [];
    while true
      invariant mi == g.unitOf(start) + |months|
      invariant FirstMonths(g, start, end, months)
      decreases Ahead(mi, end)
    {
      var monthStart := g.unitStart(mi);
      if monthStart > end { return; }
      AheadShrinks(g, mi, end);
      months := months + [Month(mi, monthStart, g.unitStart(mi + 1) - 1)];
      mi := mi + 1;
    }
  }

  /** The loop ends for every zone whose offsets stay below a day. */
  method LocalMonthsInRange(start: int, end: int, z: Zone) returns (months: seq<Month>)
    requires SmallOffsets(z)
    ensures MonthsUpTo(MonthGrid(z), start, end, months)
  {
    forall mi
      ensures NearWall(MonthGrid(z), mi)
    {
    }
    months := MonthsFrom(MonthGrid(z), start, end);
  }

  /** The wall clock never goes back by a month. */
  lemma MonthsHardlyBack(z: Zone, start: int, end: int)
    requires SmallOffsets(z) && start <= end
    ensures LocalMonth(z, start) <= LocalMonth(z, end) + 1
  {
    var d, e, m := LocalDay(z, start), LocalDay(z, end), LocalMonth(z, end);
    WallHardlyBack(z, start, end);
    MonthLength(m + 1);
    MonthSplit(e, m + 1);
    MonthSplit(d, m + 2);
  }

  lemma WallHardlyBack(z: Zone, start: int, end: int)
    requires SmallOffsets(z) && start <= end
    ensures LocalDay(z, start) <= LocalDay(z, end) + 2
  {
    assert -DAY_MS < Offset(z, start) < DAY_MS && -DAY_MS < Offset(z, end) < DAY_MS;
  }

  /** The units of a range, from that of its start to that of its end, have clear starts, and so has
      the next one. */
  ghost predicate IsRange(g: Grid, start: int, end: int) {
    start <= end && g.unitOf(start) <= g.unitOf(end) + 1 && IsGrid(g, g.unitOf(start), g.unitOf(end) + 1)
  }

  lemma RangeInOrder(g: Grid, start: int, end: int)
    requires IsRange(g, start, end)
    ensures g.unitOf(start) <= g.unitOf(end)
    ensures g.unitStart(g.unitOf(start)) <= start < g.unitStart(g.unitOf(start) + 1)
    ensures g.unitStart(g.unitOf(end)) <= end < g.unitStart(g.unitOf(end) + 1)
  {
    var m := g.unitOf(start);
    assert Splits(g, m, start) && Splits(g, m, end);
    assert Splits(g, m + 1, start);
    assert Splits(g, g.unitOf(end), end) && Splits(g, g.unitOf(end) + 1, end);
  }

  lemma MonthsCounted(g: Grid, start: int, end: int, months: seq<Month>)
    requires IsRange(g, start, end) && MonthsUpTo(g, start, end, months)
    ensures |months| == g.unitOf(end) - g.unitOf(start) + 1
  {
    RangeInOrder(g, start, end);
    var first, last := g.unitOf(start), g.unitOf(end);
    assert |months| <= last - first ==> Splits(g, first + |months|, end);
    ListedStarts(g, start, end, months, last + 1 - first);
  }

  lemma ListedStarts(g: Grid, start: int, end: int, months: seq<Month>, i: int)
    requires FirstMonths(g, start, end, months)
    ensures 0 <= i < |months| ==> g.unitStart(g.unitOf(start) + i) <= end
  {
    assert 0 <= i < |months| ==> months[i] == MonthOn(g, g.unitOf(start) + i);
  }

  /** The months are contiguous, the first one holds `start` and the last one holds `end`: they are
      those from the month of `start` to the month of `end`. */
  lemma MonthsSpanRange(g: Grid, start: int, end: int, months: seq<Month>)
    requires IsRange(g, start, end) && MonthsUpTo(g, start, end, months)
    ensures |months| == g.unitOf(end) - g.unitOf(start) + 1 && |months| > 0
    ensures months[0].start <= start <= months[0].end
    ensures months[|months| - 1].start <= end <= months[|months| - 1].end
    ensures forall i :: 0 < i < |months| ==> months[i - 1].end + 1 == months[i].start
  {
    RangeInOrder(g, start, end);
    MonthsCounted(g, start, end, months);
    var m := g.unitOf(start);
    assert months[0] == MonthOn(g, m) && months[|months| - 1] == MonthOn(g, m + |months| - 1);
  }

  /** The months an interval of instants touches are clear, and so is the month after. */
  ghost predicate MonthsClear(z: Zone, start: int, end: int) {
    UnitsClear(z, OneMonth, LocalMonth(z, start), LocalMonth(z, end) + 1)
  }

  lemma ClearRange(z: Zone, start: int, end: int)
    requires start <= end && MonthsClear(z, start, end)
    ensures IsRange(MonthGrid(z), start, end)
  {
    MonthsHardlyBack(z, start, end);
    MonthGridIsGrid(z, LocalMonth(z, start), LocalMonth(z, end) + 1);
  }
}
