/** workers/lib/server/handlers/finance.handlers.js: hourly samples rolled up into local days. */
module DailyMeans {
  import opened Wrappers
  import opened Seqs
  import opened Grouping

  /** An hourly entry; the field is None where the code finds no finite number. */
  type Sample = Entry<Option<real>>

  /** Day averages keyed by the first instant of the day. */
  type DayMap = map<int, real>

  function OnDay(dayStartOf: int -> int, day: int): Sample -> bool {
    (s: Sample) => s.ts.Some? && s.data.Some? && dayStartOf(s.ts.value) == day
  }

  function Values(log: seq<Sample>): seq<real> {
    if log == [] then []
    else
      var last := log[|log| - 1];
      Values(log[..|log| - 1]) + (if last.data.Some? then [last.data.value] else [])
  }

  function DaySamples(dayStartOf: int -> int, log: seq<Sample>, day: int): seq<Sample> {
    Filter(log, OnDay(dayStartOf, day))
  }

  function Value(): Sample -> real {
    (s: Sample) => if s.data.Some? then s.data.value else 0.0
  }

  /** `days` says of `day` what the samples of `log` say: the value that taken once per sample makes up
      their sum, or nothing without samples. */
  ghost predicate Holds(dayStartOf: int -> int, log: seq<Sample>, days: DayMap, day: int) {
    var of := DaySamples(dayStartOf, log, day);
    (day in days <==> of != []) && (of != [] ==> IsMean(days[day], of, Value()))
  }

  /** The direct, uncached daily means of a log. */
  ghost predicate MeansOf(dayStartOf: int -> int, log: seq<Sample>, days: DayMap) {
    forall day :: Holds(dayStartOf, log, days, day)
  }

  lemma MeansUnique(dayStartOf: int -> int, log: seq<Sample>, a: DayMap, b: DayMap)
    requires MeansOf(dayStartOf, log, a) && MeansOf(dayStartOf, log, b)
    ensures a == b
  {
    forall day
      ensures day in a <==> day in b
      ensures day in a ==> a[day] == b[day]
    {
      assert Holds(dayStartOf, log, a, day) && Holds(dayStartOf, log, b, day);
      if day in a { MeanUnique(a[day], b[day], DaySamples(dayStartOf, log, day), Value()); }
    }
  }

  /** The samples of a day, by whatever test they are found. */
  ghost predicate IsOnDay(dayStartOf: int -> int, day: int, onDay: Sample -> bool, s: Sample) {
    onDay(s) <==> s.ts.Some? && s.data.Some? && dayStartOf(s.ts.value) == day
  }

  /** Of the samples that fall on a day and carry a number: the day is answered exactly if there is one,
      its answer taken once per sample makes up their sum, and lies between two of them. */
  lemma DayMeanIsMean(dayStartOf: int -> int, log: seq<Sample>, days: DayMap, day: int, onDay: Sample -> bool,
                      value: Sample -> real)
    requires MeansOf(dayStartOf, log, days)
    requires forall s: Sample :: IsOnDay(dayStartOf, day, onDay, s)
    requires forall s: Sample :: s.data.Some? ==> value(s) == s.data.value
    ensures day in days <==> Filter(log, onDay) != []
    ensures day in days ==> days[day] * |Filter(log, onDay)| as real == SumOf(Filter(log, onDay), value)
    ensures day in days ==> LiesAmong(days[day], Filter(log, onDay), value)
  {
    SameSamples(dayStartOf, log, day, onDay);
    assert Holds(dayStartOf, log, days, day);
    if day in days {
      SameValues(dayStartOf, log, day, value);
      MeanBetween(days[day], Filter(log, onDay), value);
    }
  }

  lemma SameSamples(dayStartOf: int -> int, log: seq<Sample>, day: int, onDay: Sample -> bool)
    requires forall s: Sample :: IsOnDay(dayStartOf, day, onDay, s)
    ensures Filter(log, onDay) == DaySamples(dayStartOf, log, day)
  {
    forall s: Sample
      ensures onDay(s) == OnDay(dayStartOf, day)(s)
    {
      assert IsOnDay(dayStartOf, day, onDay, s);
    }
    FilterAgree(log, onDay, OnDay(dayStartOf, day));
  }

  lemma SameValues(dayStartOf: int -> int, log: seq<Sample>, day: int, value: Sample -> real)
    requires forall s: Sample :: s.data.Some? ==> value(s) == s.data.value
    ensures SumOf(DaySamples(dayStartOf, log, day), Value()) == SumOf(DaySamples(dayStartOf, log, day), value)
  {
    forall s | s in DaySamples(dayStartOf, log, day)
      ensures Value()(s) == value(s)
    {
      FilterMember(log, OnDay(dayStartOf, day), s);
    }
    SumOfAgree(DaySamples(dayStartOf, log, day), Value(), value);
  }

  ghost predicate Gathered(dayStartOf: int -> int, log: seq<Sample>, byDay: map<int, seq<real>>) {
    && (forall d :: d in byDay ==> byDay[d] != [])
    && (forall d :: Values(DaySamples(dayStartOf, log, d)) == ValuesAt(byDay, d))
  }

  lemma DaySamplesAppend(dayStartOf: int -> int, log: seq<Sample>, s: Sample, day: int)
    ensures Values(DaySamples(dayStartOf, log + [s], day)) ==
            Values(DaySamples(dayStartOf, log, day)) + if OnDay(dayStartOf, day)(s) then [s.data.value] else []
  {
    assert (log + [s])[..|log|] == log;
    var kept := Filter(log, OnDay(dayStartOf, day));
    if OnDay(dayStartOf, day)(s) {
      assert (kept + [s])[..|kept|] == kept;
    } else {
      assert Filter(log + [s], OnDay(dayStartOf, day)) == kept;
    }
  }

  function Appended(byDay: map<int, seq<real>>, day: int, value: real): map<int, seq<real>> {
    byDay[day := (if day in byDay then byDay[day] else []) + [value]]
  }

  function ValuesAt(byDay: map<int, seq<real>>, day: int): seq<real> {
    if day in byDay then byDay[day] else []
  }

  function Gathering(dayStartOf: int -> int, byDay: map<int, seq<real>>, s: Sample): map<int, seq<real>> {
    if s.ts.Some? && s.data.Some? then Appended(byDay, dayStartOf(s.ts.value), s.data.value) else byDay
  }

  lemma GatherOne(dayStartOf: int -> int, log: seq<Sample>, s: Sample, byDay: map<int, seq<real>>)
    requires Gathered(dayStartOf, log, byDay)
    ensures Gathered(dayStartOf, log + [s], Gathering(dayStartOf, byDay, s))
  {
    var after := Gathering(dayStartOf, byDay, s);
    forall d
      ensures Values(DaySamples(dayStartOf, log + [s], d)) == ValuesAt(after, d)
    {
      DaySamplesAppend(dayStartOf, log, s, d);
      assert Values(DaySamples(dayStartOf, log, d)) == ValuesAt(byDay, d);
    }
  }

  method GatherDays(log: seq<Sample>, dayStartOf: int -> int) returns (byDay: map<int, seq<real>>)
    ensures Gathered(dayStartOf, log, byDay)
  {
    byDay := map[];
    for i := 0 to |log|
      invariant Gathered(dayStartOf, log[..i], byDay)
    {
      var entry := log[i];
      assert log[..i + 1] == log[..i] + [entry];
      GatherOne(dayStartOf, log[..i], entry, byDay);
      if entry.ts.Some? && entry.data.Some? {
        var dayTs := dayStartOf(entry.ts.value);
        byDay := Appended(byDay, dayTs, entry.data.value);
      }
    }
    assert log[..|log|] == log;
  }

  lemma {:induction false} ValuesOfSamples(log: seq<Sample>)
    requires forall s :: s in log ==> s.data.Some?
    ensures |Values(log)| == |log| && Sum(Values(log)) == SumOf(log, Value())
  {
    if log != [] {
      var front, last := log[..|log| - 1], log[|log| - 1];
      assert last in log;
      ValuesOfSamples(front);
      assert (Values(front) + [last.data.value])[..|front|] == Values(front);
    }
  }

  lemma MeanOfSamples(log: seq<Sample>)
    requires log != [] && forall s :: s in log ==> s.data.Some?
    ensures Values(log) != [] && IsMean(Mean(Values(log)), log, Value())
  {
    ValuesOfSamples(log);
    MeanTimesCount(Values(log));
  }

  lemma DaySamplesCarry(dayStartOf: int -> int, log: seq<Sample>, day: int)
    ensures forall s :: s in DaySamples(dayStartOf, log, day) ==> s.data.Some?
  {
    forall s | s in DaySamples(dayStartOf, log, day) ensures s.data.Some? {
      FilterMember(log, OnDay(dayStartOf, day), s);
    }
  }

  method RollupLocalDaysMean(log: seq<Sample>, dayStartOf: int -> int) returns (days: DayMap)
    ensures MeansOf(dayStartOf, log, days)
  {
    var byDay := GatherDays(log, dayStartOf);
    days := map d | d in byDay :: Mean(byDay[d]);
    forall d
      ensures Holds(dayStartOf, log, days, d)
    {
      DaySamplesCarry(dayStartOf, log, d);
      if DaySamples(dayStartOf, log, d) != [] { MeanOfSamples(DaySamples(dayStartOf, log, d)); }
      assert Values(DaySamples(dayStartOf, log, d)) == ValuesAt(byDay, d);
    }
  }
}
