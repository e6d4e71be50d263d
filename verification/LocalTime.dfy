/** workers/lib/period.utils.js: instants, zones whose offset shifts, and the first instants of
    local days, months and weeks. */
module LocalTime {
  import opened Calendar

  /** 'UTC' takes a shortcut in the code; any other zone is an offset function of the instant. */
  datatype Zone = Utc | Named(offset: int -> int)

  function Offset(z: Zone, t: int): int {
    if z.Utc? then 0 else z.offset(t)
  }

  /** The wall clock of `z` at `t`, written as if it were a UTC instant. */
  function Local(z: Zone, t: int): int {
    t + Offset(z, t)
  }

  function LocalDay(z: Zone, t: int): int {
    Local(z, t) / DAY_MS
  }

  function LocalMonth(z: Zone, t: int): int {
    MonthOf(LocalDay(z, t))
  }

  /** zoneOffsetMs formats `t` with whole seconds, so its answer loses the millisecond part. */
  function ZoneOffsetMs(z: Zone, t: int): int {
    Local(z, t) / 1000 * 1000 - t
  }

  /** The two-pass resolution shared by localDayStart and localMonthStartTs. */
  function Resolve(z: Zone, wall: int): int {
    var asTs := wall - ZoneOffsetMs(z, wall);
    var settled := ZoneOffsetMs(z, asTs);
    if settled == ZoneOffsetMs(z, wall) then asTs else wall - settled
  }

  function LocalDayStart(z: Zone, ts: int): int {
    if z.Utc? then ts / DAY_MS * DAY_MS else Resolve(z, LocalDay(z, ts) * DAY_MS)
  }

  function LocalMonthStartTs(z: Zone, mi: int): int {
    if z.Utc? then MonthStartDay(mi) * DAY_MS else Resolve(z, MonthStartDay(mi) * DAY_MS)
  }

  function LocalMonthStart(z: Zone, ts: int): int {
    LocalMonthStartTs(z, LocalMonth(z, ts))
  }

  /** Days since Monday at `ts`: getUTCDay of the day start's wall clock, day 0 being a Thursday. */
  function DaysSinceMonday(z: Zone, dayStart: int): int {
    var dow := ((dayStart + ZoneOffsetMs(z, dayStart)) / DAY_MS + 4) % 7;
    (dow + 6) % 7
  }

  function LocalWeekStart(z: Zone, ts: int): int {
    var dayStart := LocalDayStart(z, ts);
    var k := DaysSinceMonday(z, dayStart);
    if k == 0 then dayStart else LocalDayStart(z, dayStart - k * DAY_MS)
  }

  // ---------- zones ----------

  ghost predicate SmallOffsets(z: Zone) {
    forall t :: -DAY_MS < Offset(z, t) < DAY_MS
  }

  ghost predicate WholeSecondOffsets(z: Zone) {
    forall t :: Offset(z, t) % 1000 == 0
  }

  /** The offset does not change both between `a` and `b` and between `b` and `c`. */
  ghost predicate OneChange(z: Zone, a: int, b: int, c: int) {
    Offset(z, a) == Offset(z, b) || Offset(z, b) == Offset(z, c)
  }

  /** No three instants of a two-day window see the offset change twice. */
  ghost predicate SpacedShifts(z: Zone) {
    forall a, b, c :: a <= b <= c <= a + 2 * DAY_MS ==> OneChange(z, a, b, c)
  }

  ghost predicate Regular(z: Zone) {
    SmallOffsets(z) && WholeSecondOffsets(z) && SpacedShifts(z)
  }

  /** `r` is the first instant whose wall clock has reached `wall`, and it never goes back. */
  ghost predicate Starts(z: Zone, wall: int, r: int) {
    forall t :: t >= r <==> Local(z, t) >= wall
  }

  /** Wall-clock times of `z` that the two passes get right, read off six offsets. With A the offset
      a day before and B the offset a day after: no shift; or exactly one reading; or the reading
      happens twice, the guess uses A and the second one is the shift itself; or it is skipped, the
      guess uses B and the skip begins exactly there. */
  predicate Resolvable(z: Zone, wall: int) {
    var A := Offset(z, wall - DAY_MS);
    var B := Offset(z, wall + DAY_MS);
    A == B ||
    if Offset(z, wall - A) == A && Offset(z, wall - B) == B then
      Offset(z, wall) == A && Offset(z, wall - B - 1) == A
    else if Offset(z, wall - A) != A && Offset(z, wall - B) != B then
      Offset(z, wall) == B && Offset(z, wall - A - 1) == A
    else
      true
  }

  /** Around `wall` the offset is one constant up to `s` and another from `s` on. */
  ghost predicate TwoPieces(z: Zone, wall: int, s: int) {
    forall t :: wall - DAY_MS <= t <= wall + DAY_MS ==>
                  Offset(z, t) == if t < s then Offset(z, wall - DAY_MS) else Offset(z, wall + DAY_MS)
  }

  /** The first instant from `t` on that carries the later offset. */
  lemma {:induction false} FirstShifted(z: Zone, wall: int, t: int) returns (s: int)
    requires wall - DAY_MS <= t <= wall + DAY_MS
    ensures t <= s <= wall + DAY_MS && Offset(z, s) == Offset(z, wall + DAY_MS)
    ensures forall u :: t <= u < s ==> Offset(z, u) != Offset(z, wall + DAY_MS)
    decreases wall + DAY_MS - t
  {
    if Offset(z, t) == Offset(z, wall + DAY_MS) {
      s := t;
    } else {
      s := FirstShifted(z, wall, t + 1);
    }
  }

  lemma ShiftInstant(z: Zone, wall: int) returns (s: int)
    requires Regular(z)
    ensures TwoPieces(z, wall, s)
  {
    s := FirstShifted(z, wall, wall - DAY_MS);
    var a, c := wall - DAY_MS, wall + DAY_MS;
    forall t | a <= t <= c
      ensures Offset(z, t) == if t < s then Offset(z, a) else Offset(z, c)
    {
      assert OneChange(z, a, t, c);
      if s <= t {
        assert OneChange(z, s, t, c);
      }
    }
  }

  lemma WholeSeconds(z: Zone, t: int)
    requires t % 1000 == 0 && Offset(z, t) % 1000 == 0
    ensures ZoneOffsetMs(z, t) == Offset(z, t)
  {
    var o := Offset(z, t);
    assert t == t / 1000 * 1000 && o == o / 1000 * 1000;
    assert t + o == (t / 1000 + o / 1000) * 1000;
  }

  /** On a whole-second wall clock the two passes see exact offsets. */
  function TwoPasses(z: Zone, wall: int): int {
    var guess := wall - Offset(z, wall);
    if Offset(z, guess) == Offset(z, wall) then guess else wall - Offset(z, guess)
  }

  lemma ResolveUnfolds(z: Zone, wall: int)
    requires WholeSecondOffsets(z) && wall % 1000 == 0
    ensures Resolve(z, wall) == TwoPasses(z, wall)
  {
    WholeSeconds(z, wall);
    WholeSeconds(z, wall - Offset(z, wall));
  }

  lemma ResolveStarts(z: Zone, wall: int, s: int)
    requires SmallOffsets(z) && TwoPieces(z, wall, s) && Resolvable(z, wall)
    ensures Starts(z, wall, TwoPasses(z, wall))
  {
  }

  lemma StartsResolvable(z: Zone, wall: int, s: int)
    requires SmallOffsets(z) && TwoPieces(z, wall, s) && Starts(z, wall, TwoPasses(z, wall))
    ensures Resolvable(z, wall)
  {
    var A, B, r := Offset(z, wall - DAY_MS), Offset(z, wall + DAY_MS), TwoPasses(z, wall);
    assert Local(z, wall - A) >= wall <==> wall - A >= r;
    assert Local(z, wall - B) >= wall <==> wall - B >= r;
    assert Local(z, r) >= wall;
    assert Local(z, wall - B - 1) >= wall <==> wall - B - 1 >= r;
    assert Local(z, wall - A - 1) >= wall <==> wall - A - 1 >= r;
  }

  /** Exactly when the two passes return the first instant of the wall-clock time. */
  lemma ResolveExact(z: Zone, wall: int)
    requires Regular(z) && wall % 1000 == 0
    ensures Starts(z, wall, Resolve(z, wall)) <==> Resolvable(z, wall)
  {
    ResolveUnfolds(z, wall);
    var s := ShiftInstant(z, wall);
    if Resolvable(z, wall) {
      ResolveStarts(z, wall, s);
    } else if Starts(z, wall, Resolve(z, wall)) {
      StartsResolvable(z, wall, s);
    }
  }

  // ---------- local days ----------

  /** A wall-clock time read exactly once is resolved to the instant that reads it. */
  lemma UniqueReading(z: Zone, wall: int, u: int)
    requires Regular(z) && wall % 1000 == 0
    requires Local(z, u) == wall && forall t :: Local(z, t) == wall ==> t == u
    ensures Resolve(z, wall) == u && Resolvable(z, wall)
  {
    ResolveUnfolds(z, wall);
    var s := ShiftInstant(z, wall);
    UniqueInPieces(z, wall, s, u);
  }

  lemma UniqueInPieces(z: Zone, wall: int, s: int, u: int)
    requires SmallOffsets(z) && TwoPieces(z, wall, s)
    requires Local(z, u) == wall && forall t :: Local(z, t) == wall ==> t == u
    ensures TwoPasses(z, wall) == u && Resolvable(z, wall)
  {
    var A, B := Offset(z, wall - DAY_MS), Offset(z, wall + DAY_MS);
    assert u == wall - A || u == wall - B;
    assert Local(z, wall - A) == wall ==> wall - A == u;
    assert Local(z, wall - B) == wall ==> wall - B == u;
  }

  lemma LocalDayStartResolves(z: Zone, ts: int)
    ensures LocalDayStart(z, ts) == Resolve(z, LocalDay(z, ts) * DAY_MS)
  {
    if z.Utc? { UtcResolves(LocalDay(z, ts)); }
  }

  lemma UtcResolves(d: int)
    ensures Resolve(Utc, d * DAY_MS) == d * DAY_MS
  {
    WholeSeconds(Utc, d * DAY_MS);
  }

  ghost predicate CleanDay(z: Zone, d: int) {
    Resolvable(z, d * DAY_MS)
  }

  function DayStart(z: Zone, d: int): int {
    Resolve(z, d * DAY_MS)
  }

  /** The start of day `d` splits all instants into those of earlier days and the rest. */
  lemma DaySplit(z: Zone, d: int, t: int)
    requires Regular(z) && CleanDay(z, d)
    ensures t >= DayStart(z, d) <==> LocalDay(z, t) >= d
  {
    DayStartStarts(z, d);
    assert t >= DayStart(z, d) <==> Local(z, t) >= d * DAY_MS;
  }

  /** localDayStart is the first instant of the local day, and no later day has begun by `ts`. */
  lemma LocalDayStartCorrect(z: Zone, ts: int)
    requires Regular(z) && CleanDay(z, LocalDay(z, ts))
    ensures LocalDayStart(z, ts) <= ts
    ensures forall t :: t >= LocalDayStart(z, ts) <==> LocalDay(z, t) >= LocalDay(z, ts)
    ensures forall d, r :: Starts(z, d * DAY_MS, r) && r <= ts ==> r <= LocalDayStart(z, ts)
  {
    var d0 := LocalDay(z, ts);
    LocalDayStartResolves(z, ts);
    forall t
      ensures t >= LocalDayStart(z, ts) <==> LocalDay(z, t) >= d0
    {
      DaySplit(z, d0, t);
    }
    forall d, r | Starts(z, d * DAY_MS, r) && r <= ts
      ensures r <= LocalDayStart(z, ts)
    {
      assert Local(z, ts) >= d * DAY_MS;
      var u := LocalDayStart(z, ts);
      assert LocalDay(z, u) >= d0 >= d;
      assert Local(z, u) >= d * DAY_MS;
    }
  }

  /** The midnights on either side of an instant are resolvable. */
  ghost predicate CleanAt(z: Zone, ts: int) {
    CleanDay(z, LocalDay(z, ts)) && CleanDay(z, LocalDay(z, ts) + 1)
  }

  lemma DayStartOfStart(z: Zone, ts: int)
    requires Regular(z) && CleanAt(z, ts)
    ensures LocalDay(z, LocalDayStart(z, ts)) == LocalDay(z, ts)
  {
    var d := LocalDay(z, ts);
    LocalDayStartCorrect(z, ts);
    DaySplit(z, d + 1, LocalDayStart(z, ts));
    DaySplit(z, d + 1, ts);
  }

  lemma LocalDayStartIdempotentMonotone(z: Zone, ts: int, us: int)
    requires Regular(z) && CleanAt(z, ts) && CleanDay(z, LocalDay(z, us))
    ensures LocalDayStart(z, LocalDayStart(z, ts)) == LocalDayStart(z, ts)
    ensures ts <= us ==> LocalDayStart(z, ts) <= LocalDayStart(z, us)
  {
    DayStartOfStart(z, ts);
    LocalDayStartResolves(z, ts);
    LocalDayStartResolves(z, LocalDayStart(z, ts));
    LocalDayStartCorrect(z, ts);
    LocalDayStartCorrect(z, us);
  }

  /** West of Greenwich, an hour forward at the midnight of day 0. */
  function SkippingWest(): Zone {
    Named(t => if t < 14_400_000 then -14_400_000 else -10_800_000)
  }

  /** Clocks skip midnight west of Greenwich: the "start" of the day is 23:00 of the day before. */
  lemma SkippedMidnightWest()
    ensures var z, start := SkippingWest(), LocalDayStart(SkippingWest(), 18_000_000);
            Regular(z) && start == DayStart(z, 0) && LocalDay(z, 18_000_000) == 0 && LocalDay(z, start) == -1 &&
            Local(z, start) % DAY_MS == 23 * 3_600_000
  {
  }

  /** Clocks skip midnight east of Greenwich: the day is given its true start, the shift. */
  lemma SkippedMidnightEast()
    ensures var z := Named(t => if t < -7_200_000 then 7_200_000 else 10_800_000);
            Regular(z) && (forall t :: Local(z, t) != 0) && Resolvable(z, 0) &&
            LocalDay(z, 0) == 0 && LocalDayStart(z, 0) == -7_200_000
  {
  }

  /** Midnight happens twice east of Greenwich: 00:15 before the clocks go back is given the second
      midnight, which has not happened yet. */
  lemma RepeatedMidnightEast()
    ensures var z := Named(t => if t < -5_400_000 then 7_200_000 else 3_600_000);
            var start := LocalDayStart(z, -6_300_000);
            Regular(z) && LocalDay(z, -6_300_000) == 0 && start > -6_300_000 &&
            Local(z, start) == 0 && Local(z, -7_200_000) == 0 && -7_200_000 < start &&
            (forall t :: Local(z, t) == 0 ==> t == -7_200_000 || t == start)
  {
  }

  // ---------- local months ----------

  ghost predicate CleanMonth(z: Zone, mi: int) {
    Resolvable(z, MonthStartDay(mi) * DAY_MS)
  }

  lemma LocalMonthStartTsResolves(z: Zone, mi: int)
    ensures LocalMonthStartTs(z, mi) == Resolve(z, MonthStartDay(mi) * DAY_MS)
  {
    if z.Utc? { UtcResolves(MonthStartDay(mi)); }
  }

  /** localMonthStartTs is the first instant of its civil month. */
  lemma LocalMonthStartTsCorrect(z: Zone, mi: int, t: int)
    requires Regular(z) && CleanMonth(z, mi)
    ensures t >= LocalMonthStartTs(z, mi) <==> LocalMonth(z, t) >= mi
  {
    LocalMonthStartTsResolves(z, mi);
    assert CleanDay(z, MonthStartDay(mi));
    DaySplit(z, MonthStartDay(mi), t);
    MonthSplit(LocalDay(z, t), mi);
  }

  // ---------- local weeks ----------

  ghost predicate CloseOffsets(z: Zone, a: int, b: int) {
    -DAY_MS < 2 * (Offset(z, a) - Offset(z, b)) < DAY_MS
  }

  /** From nine days before day `d` to 34 days after it. */
  ghost predicate InReach(d: int, t: int) {
    (d - 9) * DAY_MS <= t <= (d + 34) * DAY_MS
  }

  /** Around day `d` the offset moves by less than half a day. */
  ghost predicate Steady(z: Zone, d: int) {
    forall a, b :: InReach(d, a) && InReach(d, b) ==> CloseOffsets(z, a, b)
  }

  /** The midnight that opens day `d` is resolvable and no great shift is near. */
  ghost predicate ClearDay(z: Zone, d: int) {
    CleanDay(z, d) && Steady(z, d)
  }

  /** Days `lo` to `hi` are clear; nothing is asked of other days. */
  ghost predicate ClearDays(z: Zone, lo: int, hi: int) {
    Regular(z) && forall d :: lo <= d <= hi ==> ClearDay(z, d)
  }

  lemma DayStartEdge(z: Zone, d: int)
    requires Regular(z) && CleanDay(z, d)
    ensures Local(z, DayStart(z, d) - 1) < d * DAY_MS <= Local(z, DayStart(z, d))
  {
    DayStartStarts(z, d);
    StartsEdge(z, d * DAY_MS, DayStart(z, d));
  }

  lemma MidnightIsWhole(d: int)
    ensures d * DAY_MS % 1000 == 0
  {
    assert d * DAY_MS == 1000 * (86_400 * d);
  }

  lemma DayStartStarts(z: Zone, d: int)
    requires Regular(z) && CleanDay(z, d)
    ensures Starts(z, d * DAY_MS, DayStart(z, d))
  {
    MidnightIsWhole(d);
    ResolveExact(z, d * DAY_MS);
  }

  lemma StartsEdge(z: Zone, wall: int, r: int)
    requires Starts(z, wall, r)
    ensures Local(z, r - 1) < wall <= Local(z, r)
  {
  }

  lemma DayStartNear(z: Zone, d: int)
    requires Regular(z) && CleanDay(z, d)
    ensures (d - 1) * DAY_MS < DayStart(z, d) <= (d + 1) * DAY_MS
  {
    DayStartEdge(z, d);
    var u := DayStart(z, d);
    assert -DAY_MS < Offset(z, u) < DAY_MS && -DAY_MS < Offset(z, u - 1) < DAY_MS;
  }

  /** Stepping from a day's start moves the wall clock by the step, give or take half a day. */
  lemma StepFromDayStart(z: Zone, d: int, step: int)
    requires Regular(z) && ClearDay(z, d) && -7 * DAY_MS <= step <= 32 * DAY_MS
    ensures -DAY_MS <= 2 * (Local(z, DayStart(z, d) + step) - (d * DAY_MS + step)) < DAY_MS
  {
    var u := DayStart(z, d);
    DayStartEdge(z, d);
    DayStartNear(z, d);
    assert CloseOffsets(z, u, u + step) && CloseOffsets(z, u - 1, u + step);
  }

  /** Over n and a half days, the step lands on the n-th day after, or between two such days. */
  lemma StepLands(z: Zone, d: int, step: int, lo: int, hi: int)
    requires Regular(z) && ClearDay(z, d) && -7 * DAY_MS <= step <= 32 * DAY_MS
    requires 2 * lo * DAY_MS <= 2 * step - DAY_MS && 2 * step + DAY_MS <= 2 * (hi + 1) * DAY_MS
    ensures d + lo <= LocalDay(z, DayStart(z, d) + step) <= d + hi
  {
    StepFromDayStart(z, d, step);
    DayBetween(Local(z, DayStart(z, d) + step), d + lo, d + hi);
  }

  lemma DayBetween(w: int, lo: int, hi: int)
    requires lo * DAY_MS <= w < (hi + 1) * DAY_MS
    ensures lo <= w / DAY_MS <= hi
  {
  }

  lemma DayStartsIncrease(z: Zone, d: int, e: int)
    requires Regular(z) && ClearDay(z, d) && CleanDay(z, e) && d < e
    ensures DayStart(z, d) < DayStart(z, e) && LocalDay(z, DayStart(z, d)) == d
  {
    StepFromDayStart(z, d, 0);
    DaySplit(z, d, DayStart(z, d));
    DaySplit(z, e, DayStart(z, d));
  }

  /** Between two day starts lies more than one millisecond. */
  lemma DayIsLong(z: Zone, d: int, e: int)
    requires Regular(z) && ClearDay(z, d) && CleanDay(z, e) && d < e
    ensures DayStart(z, d) + 1 < DayStart(z, e)
  {
    StepFromDayStart(z, d, 1);
    DaySplit(z, e, DayStart(z, d) + 1);
  }

  function WeekOf(day: int): int {
    (day + 3) / 7
  }

  /** Day 4 of the epoch, a Monday, opens week 1. */
  function MondayOf(week: int): int {
    7 * week - 3
  }

  /** No clock went forward, on balance, between the stepped-back instant and the day start. */
  predicate StepBackReaches(z: Zone, ts: int) {
    var d := LocalDay(z, ts);
    var k := (d + 3) % 7;
    k == 0 || DayStart(z, d) + Offset(z, DayStart(z, d) - k * DAY_MS) >= d * DAY_MS
  }

  /** Dropping the milliseconds does not change the day of a wall clock. */
  lemma SecondsKeepTheDay(w: int)
    ensures w / 1000 * 1000 / DAY_MS == w / DAY_MS
  {
  }

  lemma DaysSinceMondayCorrect(z: Zone, ts: int)
    requires Regular(z) && CleanAt(z, ts)
    ensures DaysSinceMonday(z, LocalDayStart(z, ts)) == (LocalDay(z, ts) + 3) % 7
  {
    DayStartOfStart(z, ts);
    DaysSinceMondayAt(z, LocalDayStart(z, ts));
  }

  lemma DaysSinceMondayAt(z: Zone, u: int)
    ensures DaysSinceMonday(z, u) == (LocalDay(z, u) + 3) % 7
  {
    SecondsKeepTheDay(Local(z, u));
  }

  lemma StepBackLands(z: Zone, ts: int)
    requires Regular(z) && ClearDay(z, LocalDay(z, ts))
    ensures var d := LocalDay(z, ts);
            var k := (d + 3) % 7;
            k > 0 ==> LocalDay(z, DayStart(z, d) - k * DAY_MS) ==
                      if StepBackReaches(z, ts) then d - k else d - k - 1
  {
    var d := LocalDay(z, ts);
    var k := (d + 3) % 7;
    if k > 0 {
      StepFromDayStart(z, d, -k * DAY_MS);
    }
  }

  lemma LocalWeekStartUnfolds(z: Zone, ts: int, d: int, k: int)
    requires LocalDay(z, ts) == d && DaysSinceMonday(z, LocalDayStart(z, ts)) == k
    ensures LocalWeekStart(z, ts) ==
            DayStart(z, if k == 0 then d else LocalDay(z, DayStart(z, d) - k * DAY_MS))
  {
    LocalDayStartResolves(z, ts);
    LocalDayStartResolves(z, DayStart(z, d) - k * DAY_MS);
  }

  lemma LocalWeekStartLands(z: Zone, ts: int)
    requires Regular(z) && CleanAt(z, ts) && ClearDay(z, LocalDay(z, ts))
    ensures LocalWeekStart(z, ts) ==
            var monday := MondayOf(WeekOf(LocalDay(z, ts)));
            DayStart(z, if StepBackReaches(z, ts) then monday else monday - 1)
  {
    var d := LocalDay(z, ts);
    var k := (d + 3) % 7;
    assert MondayOf(WeekOf(d)) == d - k;
    DaysSinceMondayCorrect(z, ts);
    LocalWeekStartUnfolds(z, ts, d, k);
    StepBackLands(z, ts);
  }

  lemma WeekIsClear(z: Zone, d: int, monday: int)
    requires monday == MondayOf(WeekOf(d)) && ClearDays(z, monday - 1, monday + 7)
    ensures ClearDay(z, d) && ClearDay(z, d + 1) && ClearDay(z, monday - 1) && ClearDay(z, monday)
  {
    assert monday <= d < monday + 7;
  }

  /** localWeekStart is the first instant of the week's Monday exactly when its step back by whole
      days meets no forward shift; otherwise it is the first instant of the Sunday before. */
  lemma LocalWeekStartExact(z: Zone, ts: int, monday: int)
    requires monday == MondayOf(WeekOf(LocalDay(z, ts))) && ClearDays(z, monday - 1, monday + 7)
    ensures LocalWeekStart(z, ts) == DayStart(z, monday) <==> StepBackReaches(z, ts)
    ensures LocalWeekStart(z, ts) == DayStart(z, monday - 1) <==> !StepBackReaches(z, ts)
  {
    WeekIsClear(z, LocalDay(z, ts), monday);
    LocalWeekStartLands(z, ts);
    DayStartsIncrease(z, monday - 1, monday);
  }

  /** A zone that goes one hour forward at noon of day 5, a Tuesday. */
  function MidweekZone(): Zone {
    Named(t => if t < 475_200_000 then 0 else 3_600_000)
  }

  lemma MidweekZoneRegular()
    ensures Regular(MidweekZone())
  {
  }

  /** The Wednesday after the shift is given a week that starts on the Sunday. */
  lemma ForwardShiftMidweek()
    ensures Regular(MidweekZone()) && LocalDay(MidweekZone(), 6 * DAY_MS) == 6 && MondayOf(WeekOf(6)) == 4
    ensures LocalDay(MidweekZone(), LocalWeekStart(MidweekZone(), 6 * DAY_MS)) == 3
  {
    MidweekZoneRegular();
    MidweekSteps();
    LocalWeekStartUnfolds(MidweekZone(), 6 * DAY_MS, 6, 2);
  }

  lemma MidweekDayStart(d: int, u: int)
    requires u == if d <= 5 then d * DAY_MS else d * DAY_MS - 3_600_000
    ensures DayStart(MidweekZone(), d) == u && LocalDay(MidweekZone(), u) == d
  {
    MidweekZoneRegular();
    ResolveUnfolds(MidweekZone(), d * DAY_MS);
  }

  lemma MidweekSteps()
    ensures var z := MidweekZone();
            DaysSinceMonday(z, LocalDayStart(z, 6 * DAY_MS)) == 2 &&
            LocalDay(z, DayStart(z, 6) - 2 * DAY_MS) == 3 && LocalDay(z, DayStart(z, 3)) == 3
  {
    MidweekDayStart(6, 514_800_000);
    MidweekDayStart(3, 259_200_000);
    MidweekWeekday();
    LocalDayStartResolves(MidweekZone(), 6 * DAY_MS);
  }

  lemma MidweekWeekday()
    ensures DaysSinceMonday(MidweekZone(), 514_800_000) == 2
    ensures LocalDay(MidweekZone(), 6 * DAY_MS) == 6
    ensures LocalDay(MidweekZone(), 514_800_000 - 2 * DAY_MS) == 3
  {
  }

  // ---------- the default zone ----------

  /** America/Campo_Grande from its last summer time on: an hour forward at midnight of 4 November
      2018, back at midnight of 17 February 2019. */
  function CampoGrande(): Zone {
    Named(t => if 1_541_304_000_000 <= t < 1_550_372_400_000 then -10_800_000 else -14_400_000)
  }

  lemma CampoGrandeRegular()
    ensures Regular(CampoGrande())
  {
  }

  lemma CampoGrandeSteady(d: int)
    ensures Steady(CampoGrande(), d)
  {
  }

  /** The one midnight of the default zone that is not clear is the one that was skipped: day 17839,
      4 November 2018. */
  lemma CampoGrandeClear(d: int)
    ensures ClearDay(CampoGrande(), d) <==> d != 17839
  {
    CampoGrandeSteady(d);
  }
}
