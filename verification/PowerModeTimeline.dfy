/** workers/lib/server/handlers/metrics.handlers.js: the power-mode timeline, samples folded window
    by window into segments. */
module PowerModeTimeline {
  import opened Wrappers
  import opened Seqs
  import opened StableSort

  datatype Segment = Segment(from: int, to: int, mode: string, status: string)

  datatype MinerState = MinerState(segments: seq<Segment>, current: Option<Segment>)

  datatype Sample = Sample(miner: string, ts: int, mode: string, status: string)

  /** An RPC entry; the two objects list their keys in order, and a value may be empty. */
  datatype Entry = Entry(ts: Option<int>, modes: seq<(string, string)>, statuses: seq<(string, string)>)

  /** The miners in the order they were first seen, and the state of each. */
  datatype Timeline = Timeline(order: seq<string>, states: map<string, MinerState>)

  const UNKNOWN: string := "unknown"

  // ---------- one miner ----------

  function Extend(state: MinerState, ts: int, mode: string, status: string): MinerState {
    match state.current
    case Some(current) =>
      if current.mode != mode || current.status != status then
        MinerState(state.segments + [current.(to := ts)], Some(Segment(ts, ts, mode, status)))
      else
        MinerState(state.segments, Some(current.(to := ts)))
    case None => MinerState(state.segments, Some(Segment(ts, ts, mode, status)))
  }

  function Fold(samples: seq<Sample>): MinerState {
    if samples == [] then MinerState([], None)
    else
      var last := samples[|samples| - 1];
      Extend(Fold(samples[..|samples| - 1]), last.ts, last.mode, last.status)
  }

  function SegmentsOf(state: MinerState): seq<Segment> {
    state.segments + (if state.current.Some? then [state.current.value] else [])
  }

  // ---------- the aggregator ----------

  function LastDash(key: string): int {
    if key == "" then -1 else if key[|key| - 1] == '-' then |key| - 1 else LastDash(key[..|key| - 1])
  }

  /** extractContainerFromMinerKey: the key up to its last dash. */
  function ContainerOf(key: string): string {
    var dash := LastDash(key);
    if 0 < dash < |key| then key[..dash] else key
  }

  function Wanted(filter: string, miner: string): bool {
    filter == "" || ContainerOf(miner) == filter
  }

  function Add(filter: string, t: Timeline, s: Sample): Timeline {
    if !Wanted(filter, s.miner) then t
    else
      var known := s.miner in t.states;
      var state := if known then t.states[s.miner] else MinerState([], None);
      Timeline(if known then t.order else t.order + [s.miner],
               t.states[s.miner := Extend(state, s.ts, s.mode, s.status)])
  }

  function Feed(filter: string, t: Timeline, samples: seq<Sample>): Timeline {
    if samples == [] then t else Add(filter, Feed(filter, t, samples[..|samples| - 1]), samples[|samples| - 1])
  }

  function Get(fields: seq<(string, string)>, key: string): string {
    if fields == [] then "" else if fields[0].0 == key then fields[0].1 else Get(fields[1..], key)
  }

  predicate Has(fields: seq<(string, string)>, key: string) {
    exists i :: 0 <= i < |fields| && fields[i].0 == key
  }

  function Or(a: string, b: string): string {
    if a != "" then a else b
  }

  function StatusSamples(e: Entry, ts: int, n: nat): seq<Sample>
    requires n <= |e.statuses|
  {
    if n == 0 then []
    else
      var (miner, _) := e.statuses[n - 1];
      var status := Get(e.statuses, miner);
      StatusSamples(e, ts, n - 1) +
      [Sample(miner, ts, Or(Get(e.modes, miner), Or(status, UNKNOWN)), Or(status, UNKNOWN))]
  }

  function ModeSamples(e: Entry, ts: int, n: nat): seq<Sample>
    requires n <= |e.modes|
  {
    if n == 0 then []
    else
      var (miner, _) := e.modes[n - 1];
      ModeSamples(e, ts, n - 1) +
      (if Has(e.statuses, miner) then [] else [Sample(miner, ts, Or(Get(e.modes, miner), UNKNOWN), UNKNOWN)])
  }

  /** The samples of one entry: miners with a status first, then those with only a mode. */
  function SamplesOf(e: Entry): seq<Sample>
    requires e.ts.Some?
  {
    StatusSamples(e, e.ts.value, |e.statuses|) + ModeSamples(e, e.ts.value, |e.modes|)
  }

  /** `if (!ts) continue`. */
  function Dated(): Entry -> bool {
    (e: Entry) => e.ts.Some? && e.ts.value != 0
  }

  function ByTs(): (Entry, Entry) -> bool {
    (a: Entry, b: Entry) => Ts(a) <= Ts(b)
  }

  function Ts(e: Entry): int {
    if e.ts.Some? then e.ts.value else 0
  }

  function AllSamples(entries: seq<Entry>): seq<Sample> {
    if entries == [] then []
    else
      AllSamples(entries[..|entries| - 1]) + DatedSamples(entries[|entries| - 1])
  }

  function DatedSamples(e: Entry): seq<Sample> {
    if Dated()(e) then SamplesOf(e) else []
  }

  /** The samples of a batch of results in the order they are fed. */
  function BatchSamples(results: seq<Entry>): seq<Sample> {
    AllSamples(Sort(Filter(results, Dated()), ByTs()))
  }

  class Aggregator {
    const containerFilter: string
    var order: seq<string>
    var minerStates: map<string, MinerState>

    function Abs(): Timeline
      reads this
    {
      Timeline(order, minerStates)
    }

    constructor (containerFilter: string)
      ensures this.containerFilter == containerFilter && Abs() == Timeline([], map[])
    {
      this.containerFilter, order, minerStates := containerFilter, [], map[];
    }

    method AddSample(miner: string, ts: int, mode: string, status: string)
      modifies this
      ensures Abs() == Add(containerFilter, old(Abs()), Sample(miner, ts, mode, status))
    {
      if !Wanted(containerFilter, miner) { return; }
      if miner !in minerStates {
        order := order + [miner];
        minerStates := minerStates[miner := MinerState([], None)];
      }
      var state := minerStates[miner];
      if state.current.None? || state.current.value.mode != mode || state.current.value.status != status {
        if state.current.Some? {
          state := state.(segments := state.segments + [state.current.value.(to := ts)]);
        }
        state := state.(current := Some(Segment(ts, ts, mode, status)));
      } else {
        state := state.(current := Some(state.current.value.(to := ts)));
      }
      minerStates := minerStates[miner := state];
    }

    method AddStatuses(e: Entry, ts: int)
      modifies this
      ensures Abs() == Feed(containerFilter, old(Abs()), StatusSamples(e, ts, |e.statuses|))
    {
      for i := 0 to |e.statuses|
        invariant Abs() == Feed(containerFilter, old(Abs()), StatusSamples(e, ts, i))
      {
        var miner := e.statuses[i].0;
        var status := Get(e.statuses, miner);
        var mode := Or(Get(e.modes, miner), Or(status, UNKNOWN));
        AddSample(miner, ts, mode, Or(status, UNKNOWN));
        FeedOne(containerFilter, old(Abs()), StatusSamples(e, ts, i), Sample(miner, ts, mode, Or(status, UNKNOWN)));
      }
    }

    method AddModes(e: Entry, ts: int)
      modifies this
      ensures Abs() == Feed(containerFilter, old(Abs()), ModeSamples(e, ts, |e.modes|))
    {
      for i := 0 to |e.modes|
        invariant Abs() == Feed(containerFilter, old(Abs()), ModeSamples(e, ts, i))
      {
        var miner := e.modes[i].0;
        if !Has(e.statuses, miner) {
          var mode := Or(Get(e.modes, miner), UNKNOWN);
          AddSample(miner, ts, mode, UNKNOWN);
          FeedOne(containerFilter, old(Abs()), ModeSamples(e, ts, i), Sample(miner, ts, mode, UNKNOWN));
        } else {
          assert ModeSamples(e, ts, i + 1) == ModeSamples(e, ts, i);
        }
      }
    }

    method AddEntry(e: Entry)
      requires e.ts.Some?
      modifies this
      ensures Abs() == Feed(containerFilter, old(Abs()), SamplesOf(e))
    {
      AddStatuses(e, e.ts.value);
      AddModes(e, e.ts.value);
      FeedConcat(containerFilter, old(Abs()), StatusSamples(e, e.ts.value, |e.statuses|),
                 ModeSamples(e, e.ts.value, |e.modes|));
    }

    method AddResults(results: seq<Entry>)
      modifies this
      ensures Abs() == Feed(containerFilter, old(Abs()), BatchSamples(results))
    {
      var entries := [];
      for i := 0 to |results|
        invariant entries == Filter(results[..i], Dated())
      {
        assert results[..i + 1][..i] == results[..i];
        if results[i].ts.Some? && results[i].ts.value != 0 { entries := entries + [results[i]]; }
      }
      assert results[..|results|] == results;
      entries := Sort(entries, ByTs());
      SortedDated(results);
      for i := 0 to |entries|
        invariant Abs() == Feed(containerFilter, old(Abs()), AllSamples(entries[..i]))
      {
        assert entries[..i + 1][..i] == entries[..i] && entries[i] in entries;
        AddEntry(entries[i]);
        FeedConcat(containerFilter, old(Abs()), AllSamples(entries[..i]), SamplesOf(entries[i]));
      }
      assert entries[..|entries|] == entries;
    }

    method Build() returns (log: seq<(string, string, seq<Segment>)>)
      requires forall m :: m in order ==> m in minerStates
      ensures |log| == |order|
      ensures forall i :: 0 <= i < |order| ==>
              log[i] == (order[i], ContainerOf(order[i]), SegmentsOf(minerStates[order[i]]))
    {
      log := [];
      for i := 0 to |order|
        invariant |log| == i
        invariant forall j :: 0 <= j < i ==>
                  log[j] == (order[j], ContainerOf(order[j]), SegmentsOf(minerStates[order[j]]))
      {
        assert order[i] in order;
        log := log + [(order[i], ContainerOf(order[i]), SegmentsOf(minerStates[order[i]]))];
      }
    }
  }

  lemma FeedOne(filter: string, t: Timeline, xs: seq<Sample>, x: Sample)
    ensures Feed(filter, t, xs + [x]) == Add(filter, Feed(filter, t, xs), x)
  {
    assert (xs + [x])[..|xs|] == xs;
  }

  /** Feeding is incremental: first A, then B, is A followed by B. */
  lemma {:induction false} FeedConcat(filter: string, t: Timeline, xs: seq<Sample>, ys: seq<Sample>)
    ensures Feed(filter, t, xs + ys) == Feed(filter, Feed(filter, t, xs), ys)
  {
    if ys == [] {
      assert xs + ys == xs;
    } else {
      FeedConcat(filter, t, xs, ys[..|ys| - 1]);
      assert (xs + ys)[..|xs + ys| - 1] == xs + ys[..|ys| - 1];
    }
  }

  lemma ByTsIsPreorder()
    ensures TotalPreorder(ByTs())
  {
  }

  lemma SortedDated(results: seq<Entry>)
    ensures forall e :: e in Sort(Filter(results, Dated()), ByTs()) ==> Dated()(e)
  {
    ByTsIsPreorder();
    var kept := Filter(results, Dated());
    SortSorts(kept, ByTs());
    forall e | e in Sort(kept, ByTs()) ensures Dated()(e) {
      assert e in multiset(Sort(kept, ByTs()));
      assert e in multiset(kept);
      FilterMember(results, Dated(), e);
    }
  }

  // ---------- batches and windows ----------

  lemma {:induction false} AllSamplesConcat(a: seq<Entry>, b: seq<Entry>)
    ensures AllSamples(a + b) == AllSamples(a) + AllSamples(b)
  {
    if b == [] {
      assert a + b == a;
    } else {
      var front, last := b[..|b| - 1], b[|b| - 1];
      AllSamplesConcat(a, front);
      AllSamplesSnoc(b, front, last);
      AllSamplesSnoc(a + b, a + front, last);
      Regrouped(AllSamples(a), AllSamples(front), DatedSamples(last));
    }
  }

  lemma Regrouped(a: seq<Sample>, b: seq<Sample>, c: seq<Sample>)
    ensures (a + b) + c == a + (b + c)
  {
  }

  lemma AllSamplesSnoc(xs: seq<Entry>, front: seq<Entry>, e: Entry)
    requires xs == front + [e]
    ensures AllSamples(xs) == AllSamples(front) + DatedSamples(e)
  {
    assert xs[..|front|] == front;
  }

  /** Two batches in time order are fed like the one batch of both. */
  lemma BatchesInOrder(a: seq<Entry>, b: seq<Entry>)
    requires forall x, y :: x in a && y in b && Dated()(x) && Dated()(y) ==> Ts(x) <= Ts(y)
    ensures BatchSamples(a + b) == BatchSamples(a) + BatchSamples(b)
  {
    ByTsIsPreorder();
    var da, db := Filter(a, Dated()), Filter(b, Dated());
    FilterConcat(a, b, Dated());
    SortConcat(da, db, ByTs());
    var sa, sb := Sort(da, ByTs()), Sort(db, ByTs());
    forall x, y | x in sa && y in sb ensures ByTs()(x, y) {
      SortMember(da, x);
      SortMember(db, y);
      FilterMember(a, Dated(), x);
      FilterMember(b, Dated(), y);
    }
    MergeOrdered(sa, sb, ByTs());
    AllSamplesConcat(sa, sb);
  }

  lemma SortMember(xs: seq<Entry>, x: Entry)
    ensures x in Sort(xs, ByTs()) <==> x in xs
  {
    ByTsIsPreorder();
    SortSorts(xs, ByTs());
    assert x in multiset(Sort(xs, ByTs())) <==> x in multiset(xs);
  }

  /** Feeding batch A and then batch B gives the timeline of A followed by B. */
  lemma BatchesAreIncremental(filter: string, t: Timeline, a: seq<Entry>, b: seq<Entry>)
    requires forall x, y :: x in a && y in b && Dated()(x) && Dated()(y) ==> Ts(x) <= Ts(y)
    ensures Feed(filter, Feed(filter, t, BatchSamples(a)), BatchSamples(b)) == Feed(filter, t, BatchSamples(a + b))
  {
    BatchesInOrder(a, b);
    FeedConcat(filter, t, BatchSamples(a), BatchSamples(b));
  }

  function Between(lo: int, hi: int): Entry -> bool {
    (e: Entry) => lo <= Ts(e) <= hi
  }

  /** All dated entries in time order. */
  function Timed(log: seq<Entry>): seq<Entry> {
    Sort(Filter(log, Dated()), ByTs())
  }

  lemma WindowSamples(log: seq<Entry>, lo: int, hi: int)
    ensures BatchSamples(Filter(log, Between(lo, hi))) == AllSamples(Filter(Timed(log), Between(lo, hi)))
  {
    ByTsIsPreorder();
    FilterCommutes(log, Between(lo, hi), Dated());
    FilterSort(Filter(log, Dated()), ByTs(), Between(lo, hi));
  }

  lemma {:induction false} SplitBetween(xs: seq<Entry>, lo: int, mid: int, hi: int)
    requires Sorted(xs, ByTs()) && lo <= mid + 1 && mid <= hi
    ensures Filter(xs, Between(lo, hi)) == Filter(xs, Between(lo, mid)) + Filter(xs, Between(mid + 1, hi))
  {
    if xs != [] {
      var front, last := xs[..|xs| - 1], xs[|xs| - 1];
      SplitBetween(front, lo, mid, hi);
      if Ts(last) <= mid {
        forall x | x in xs ensures !Between(mid + 1, hi)(x) {
          var i :| 0 <= i < |xs| && xs[i] == x;
          assert i < |xs| - 1 ==> ByTs()(xs[i], last);
        }
        FilterNone(xs, Between(mid + 1, hi));
        FilterNone(front, Between(mid + 1, hi));
      }
    }
  }

  /** A miner has one mode and status per timestamp. */
  ghost predicate Consistent(xs: seq<Sample>) {
    forall x, y :: x in xs && y in xs && x.miner == y.miner && x.ts == y.ts ==> x == y
  }

  /** Adding `x` again would change nothing. */
  ghost predicate Seen(filter: string, t: Timeline, x: Sample) {
    Wanted(filter, x.miner) ==>
      x.miner in t.states && var c := t.states[x.miner].current;
                             c.Some? && c.value.to == x.ts && c.value.mode == x.mode && c.value.status == x.status
  }

  lemma {:induction false} FedAreSeen(filter: string, t: Timeline, xs: seq<Sample>, x: Sample)
    requires Consistent(xs) && x in xs && forall y :: y in xs ==> y.ts == x.ts
    ensures Seen(filter, Feed(filter, t, xs), x)
  {
    var front, last := xs[..|xs| - 1], xs[|xs| - 1];
    assert xs == front + [last];
    if last != x {
      FedAreSeen(filter, t, front, x);
      assert last in xs;
    }
  }

  lemma {:induction false} FeedSeen(filter: string, t: Timeline, xs: seq<Sample>)
    requires forall x :: x in xs ==> Seen(filter, t, x)
    ensures Feed(filter, t, xs) == t
  {
    if xs != [] {
      var last := xs[|xs| - 1];
      assert xs == xs[..|xs| - 1] + [last] && last in xs;
      FeedSeen(filter, t, xs[..|xs| - 1]);
    }
  }

  /** Samples of one instant delivered twice change nothing the second time. */
  lemma FeedTwice(filter: string, t: Timeline, xs: seq<Sample>, ts: int)
    requires Consistent(xs) && forall x :: x in xs ==> x.ts == ts
    ensures Feed(filter, Feed(filter, t, xs), xs) == Feed(filter, t, xs)
  {
    forall x | x in xs ensures Seen(filter, Feed(filter, t, xs), x) {
      FedAreSeen(filter, t, xs, x);
    }
    FeedSeen(filter, Feed(filter, t, xs), xs);
  }

  lemma {:induction false} InstantSamples(xs: seq<Entry>, ts: int)
    requires forall e :: e in xs ==> Ts(e) == ts
    ensures forall x :: x in AllSamples(xs) ==> x.ts == ts
  {
    if xs != [] {
      var last := xs[|xs| - 1];
      assert xs == xs[..|xs| - 1] + [last] && last in xs;
      InstantSamples(xs[..|xs| - 1], ts);
      if Dated()(last) {
        StatusInstant(last, ts, |last.statuses|);
        ModeInstant(last, ts, |last.modes|);
      }
    }
  }

  lemma StatusInstant(e: Entry, ts: int, n: nat)
    requires n <= |e.statuses|
    ensures forall x :: x in StatusSamples(e, ts, n) ==> x.ts == ts
  {
  }

  lemma ModeInstant(e: Entry, ts: int, n: nat)
    requires n <= |e.modes|
    ensures forall x :: x in ModeSamples(e, ts, n) ==> x.ts == ts
  {
  }

  lemma {:induction false} SamplesSubset(xs: seq<Entry>, p: Entry -> bool)
    ensures forall x :: x in AllSamples(Filter(xs, p)) ==> x in AllSamples(xs)
  {
    if xs != [] {
      SamplesSubset(xs[..|xs| - 1], p);
      if p(xs[|xs| - 1]) {
        assert Filter(xs, p)[..|Filter(xs, p)| - 1] == Filter(xs[..|xs| - 1], p);
      } else {
        assert Filter(xs, p) == Filter(xs[..|xs| - 1], p);
      }
    }
  }

  /** The timeline of the entries between two instants, fed in one go. */
  function Direct(filter: string, log: seq<Entry>, lo: int, hi: int): Timeline {
    Feed(filter, Timeline([], map[]), AllSamples(Filter(Timed(log), Between(lo, hi))))
  }

  lemma TimedSorted(log: seq<Entry>)
    ensures Sorted(Timed(log), ByTs())
  {
    ByTsIsPreorder();
    SortSorts(Filter(log, Dated()), ByTs());
  }

  /** The next window re-delivers the samples of the seam and continues the timeline. */
  lemma NextWindow(filter: string, log: seq<Entry>, start: int, seam: int, end: int)
    requires start <= seam <= end && Consistent(AllSamples(Timed(log)))
    ensures Feed(filter, Direct(filter, log, start, seam), BatchSamples(Filter(log, Between(seam, end)))) ==
            Direct(filter, log, start, end)
  {
    var xs, t0 := Timed(log), Timeline([], map[]);
    TimedSorted(log);
    WindowSamples(log, seam, end);
    SplitBetween(xs, start, seam - 1, seam);
    SplitBetween(xs, start, seam, end);
    SplitBetween(xs, seam, seam, end);
    var older, at, newer := Filter(xs, Between(start, seam - 1)), Filter(xs, Between(seam, seam)), Filter(xs,
                                   Between(seam + 1, end));
    AllSamplesConcat(older, at);
    AllSamplesConcat(older + at, newer);
    AllSamplesConcat(at, newer);
    FeedConcat(filter, t0, AllSamples(older), AllSamples(at));
    FeedConcat(filter, t0, AllSamples(older + at), AllSamples(newer));
    FeedConcat(filter, Direct(filter, log, start, seam), AllSamples(at), AllSamples(newer));
    SamplesSubset(xs, Between(seam, seam));
    forall e | e in at ensures Ts(e) == seam { FilterMember(xs, Between(seam, seam), e); }
    InstantSamples(at, seam);
    FeedTwice(filter, Feed(filter, t0, AllSamples(older)), AllSamples(at), seam);
  }

  /** The window loop: inclusive windows that share their seams give the timeline of one pass. */
  method PowerModeTimelineOf(log: seq<Entry>, start: int, end: int, windowMs: int, container: string)
    returns (timeline: seq<(string, string, seq<Segment>)>)
    requires start < end && windowMs > 0 && Consistent(AllSamples(Timed(log)))
    ensures Lists(timeline, Direct(container, log, start, end))
  {
    var aggregator := new Aggregator(container);
    var windowStart := start;
    while windowStart < end
      invariant start <= windowStart
      invariant fresh(aggregator) && aggregator.containerFilter == container
      invariant if windowStart == start then aggregator.Abs() == Timeline([], map[])
                else aggregator.Abs() == Direct(container, log, start, if windowStart < end then windowStart else end)
      decreases end - windowStart
    {
      var windowEnd := if windowStart + windowMs < end then windowStart + windowMs else end;
      if windowStart == start {
        WindowSamples(log, start, windowEnd);
      } else {
        NextWindow(container, log, start, windowStart, windowEnd);
      }
      aggregator.AddResults(Filter(log, Between(windowStart, windowEnd)));
      windowStart := windowStart + windowMs;
    }
    OrderListsStates(container, AllSamples(Filter(Timed(log), Between(start, end))));
    timeline := aggregator.Build();
  }

  /** One row per miner in the order they were first seen: who it is, its container and its segments. */
  ghost predicate Lists(rows: seq<(string, string, seq<Segment>)>, t: Timeline) {
    && |rows| == |t.order|
    && (forall i :: 0 <= i < |rows| ==>
          rows[i].0 == t.order[i] && rows[i].0 in t.states && rows[i].1 == ContainerOf(rows[i].0) &&
          rows[i].2 == SegmentsOf(t.states[rows[i].0]))
    && (forall i, j :: 0 <= i < j < |rows| ==> rows[i].0 != rows[j].0)
    && (forall m :: m in t.states ==> exists i :: 0 <= i < |rows| && rows[i].0 == m)
  }

  // ---------- what the segments of a miner say ----------

  function Of(miner: string): Sample -> bool {
    (s: Sample) => s.miner == miner
  }

  /** Each miner's state is the fold of its own samples. */
  lemma {:induction false} MinerIsFolded(filter: string, samples: seq<Sample>, miner: string)
    requires Wanted(filter, miner)
    ensures var t := Feed(filter, Timeline([], map[]), samples);
            var own := Filter(samples, Of(miner));
            if own == [] then miner !in t.states else miner in t.states && t.states[miner] == Fold(own)
  {
    if samples != [] {
      var front, last := samples[..|samples| - 1], samples[|samples| - 1];
      MinerIsFolded(filter, front, miner);
      var own := Filter(front, Of(miner));
      if last.miner == miner {
        assert (own + [last])[..|own|] == own;
      } else {
        assert Filter(samples, Of(miner)) == own;
      }
    }
  }

  ghost predicate InTimeOrder(xs: seq<Sample>) {
    forall i, j :: 0 <= i < j < |xs| ==> xs[i].ts <= xs[j].ts
  }

  /** One mode and status per timestamp, for one miner. */
  ghost predicate OnePerInstant(xs: seq<Sample>) {
    forall i, j :: 0 <= i < |xs| && 0 <= j < |xs| && xs[i].ts == xs[j].ts ==> SameReading(xs[i], xs[j])
  }

  ghost predicate SameReading(x: Sample, y: Sample) {
    x.mode == y.mode && x.status == y.status
  }

  /** Segments follow one another without gap, and neighbours differ. */
  ghost predicate Tiled(segs: seq<Segment>) {
    && (forall i :: 0 <= i < |segs| ==> segs[i].from <= segs[i].to)
    && (forall i :: 0 < i < |segs| ==> segs[i - 1].to == segs[i].from)
    && (forall i :: 0 < i < |segs| ==> segs[i - 1].mode != segs[i].mode || segs[i - 1].status != segs[i].status)
  }

  /** The segment in force at `ts`: the last one begun by then. */
  function Decode(segs: seq<Segment>, ts: int): Option<Segment> {
    if segs == [] then None
    else if segs[|segs| - 1].from <= ts then Some(segs[|segs| - 1])
    else Decode(segs[..|segs| - 1], ts)
  }

  ghost predicate Decodes(segs: seq<Segment>, x: Sample) {
    var d := Decode(segs, x.ts);
    d.Some? && d.value.mode == x.mode && d.value.status == x.status
  }

  /** The segments span the samples, tile, and give back every sample at its own time. */
  ghost predicate Encodes(xs: seq<Sample>, state: MinerState) {
    var segs := SegmentsOf(state);
    && xs != [] && state.current.Some? && Tiled(segs)
    && segs[0].from == xs[0].ts
    && state.current.value.to == xs[|xs| - 1].ts
    && state.current.value.mode == xs[|xs| - 1].mode && state.current.value.status == xs[|xs| - 1].status
    && forall x :: x in xs ==> Decodes(segs, x)
  }

  lemma SameEncodes(front: seq<Sample>, last: Sample, state: MinerState)
    requires Encodes(front, state) && front[|front| - 1].ts <= last.ts
    requires last.mode == state.current.value.mode && last.status == state.current.value.status
    ensures Encodes(front + [last], MinerState(state.segments, Some(state.current.value.(to := last.ts))))
  {
    var segs, c := SegmentsOf(state), state.current.value;
    var segs' := state.segments + [c.(to := last.ts)];
    assert segs == state.segments + [c];
    assert forall i :: 0 <= i < |segs| - 1 ==> segs'[i] == segs[i];
    assert segs'[..|segs'| - 1] == segs[..|segs| - 1];
    forall x | x in front + [last] ensures Decodes(segs', x) {
      assert x in front ==> Decodes(segs, x);
    }
  }

  lemma ChangeEncodes(front: seq<Sample>, last: Sample, state: MinerState)
    requires Encodes(front, state) && forall x :: x in front ==> x.ts < last.ts
    requires last.mode != state.current.value.mode || last.status != state.current.value.status
    ensures Encodes(front + [last], MinerState(state.segments + [state.current.value.(to := last.ts)],
                                               Some(Segment(last.ts, last.ts, last.mode, last.status))))
  {
    var segs, c := SegmentsOf(state), state.current.value;
    var closed := state.segments + [c.(to := last.ts)];
    var segs' := closed + [Segment(last.ts, last.ts, last.mode, last.status)];
    assert segs == state.segments + [c];
    assert front[|front| - 1] in front;
    assert forall i :: 0 <= i < |segs| - 1 ==> segs'[i] == segs[i];
    assert segs'[..|segs'| - 1] == closed && closed[..|closed| - 1] == segs[..|segs| - 1];
    forall x | x in front + [last] ensures Decodes(segs', x) {
      assert x in front ==> Decodes(segs, x);
    }
  }

  /** A change of reading means that time has passed. */
  lemma ChangeIsLater(front: seq<Sample>, last: Sample)
    requires front != [] && InTimeOrder(front + [last]) && OnePerInstant(front + [last])
    requires !SameReading(last, front[|front| - 1])
    ensures forall x :: x in front ==> x.ts < last.ts
  {
    var xs, n := front + [last], |front| - 1;
    forall x | x in front ensures x.ts < last.ts {
      var i :| 0 <= i < |front| && front[i] == x;
      assert i < n ==> xs[i].ts <= xs[n].ts;
      assert xs[n].ts <= xs[n + 1].ts;
      assert SameReading(xs[n + 1], xs[n]) == SameReading(last, front[n]);
    }
  }

  lemma OrderedFront(front: seq<Sample>, last: Sample)
    requires InTimeOrder(front + [last]) && OnePerInstant(front + [last])
    ensures InTimeOrder(front) && OnePerInstant(front)
    ensures front != [] ==> front[|front| - 1].ts <= last.ts
  {
    var xs := front + [last];
    assert forall i :: 0 <= i < |front| ==> xs[i] == front[i];
    assert xs[|front|] == last;
  }

  /** The fold is a faithful run-length encoding of a miner's samples. */
  lemma {:induction false} FoldEncodes(xs: seq<Sample>)
    requires xs != [] && InTimeOrder(xs) && OnePerInstant(xs)
    ensures Encodes(xs, Fold(xs))
  {
    var front, last := xs[..|xs| - 1], xs[|xs| - 1];
    assert xs == front + [last];
    OrderedFront(front, last);
    if front == [] {
      FirstEncodes(last);
    } else {
      FoldEncodes(front);
      var c := Fold(front).current.value;
      if last.mode == c.mode && last.status == c.status {
        SameEncodes(front, last, Fold(front));
      } else {
        ChangeIsLater(front, last);
        ChangeEncodes(front, last, Fold(front));
      }
    }
  }

  lemma FirstEncodes(x: Sample)
    ensures Encodes([x], MinerState([], Some(Segment(x.ts, x.ts, x.mode, x.status))))
  {
  }

  lemma SamplesAtEntry(e: Entry, ts: int)
    requires Dated()(e) && e.ts.value == ts
    ensures forall x :: x in SamplesOf(e) ==> x.ts == ts
  {
    StatusInstant(e, ts, |e.statuses|);
    ModeInstant(e, ts, |e.modes|);
  }

  /** Entries in time order give samples in time order. */
  lemma {:induction false} EntriesInOrder(xs: seq<Entry>)
    requires Sorted(xs, ByTs())
    ensures InTimeOrder(AllSamples(xs))
    ensures xs != [] ==> forall x :: x in AllSamples(xs) ==> x.ts <= Ts(xs[|xs| - 1])
  {
    if xs != [] {
      var front, last := xs[..|xs| - 1], xs[|xs| - 1];
      EntriesInOrder(front);
      assert front != [] ==> ByTs()(xs[|xs| - 2], xs[|xs| - 1]);
      if Dated()(last) {
        SamplesAtEntry(last, last.ts.value);
      }
      OrderedConcat(AllSamples(front), if Dated()(last) then SamplesOf(last) else [], Ts(last));
    }
  }

  lemma OrderedConcat(a: seq<Sample>, b: seq<Sample>, ts: int)
    requires InTimeOrder(a) && (forall x :: x in a ==> x.ts <= ts) && forall x :: x in b ==> x.ts == ts
    ensures InTimeOrder(a + b) && forall x :: x in a + b ==> x.ts <= ts
  {
  }

  lemma {:induction false} FilterOrdered(xs: seq<Sample>, p: Sample -> bool)
    requires InTimeOrder(xs)
    ensures InTimeOrder(Filter(xs, p))
  {
    if xs != [] {
      var front, last := xs[..|xs| - 1], xs[|xs| - 1];
      FilterOrdered(front, p);
      forall x | x in Filter(front, p) ensures x.ts <= last.ts {
        FilterMember(front, p, x);
        var i :| 0 <= i < |front| && front[i] == x;
        assert xs[i].ts <= xs[|xs| - 1].ts;
      }
    }
  }

  /** Every wanted miner with samples has segments that tile from its first to its last sample, change
      at every seam, and decode to exactly the sample at each sample time. */
  lemma TimelineIsFaithful(filter: string, samples: seq<Sample>, miner: string)
    requires Wanted(filter, miner) && InTimeOrder(samples) && Consistent(samples)
    requires exists x :: x in samples && x.miner == miner
    ensures var t := Feed(filter, Timeline([], map[]), samples);
            miner in t.states && Encodes(Filter(samples, Of(miner)), t.states[miner])
  {
    var own := Filter(samples, Of(miner));
    var x :| x in samples && x.miner == miner;
    FilterMember(samples, Of(miner), x);
    MinerIsFolded(filter, samples, miner);
    FilterOrdered(samples, Of(miner));
    forall i, j | 0 <= i < |own| && 0 <= j < |own| && own[i].ts == own[j].ts
      ensures SameReading(own[i], own[j])
    {
      FilterMember(samples, Of(miner), own[i]);
      FilterMember(samples, Of(miner), own[j]);
    }
    FoldEncodes(own);
  }

  /** The windowed timeline of a consistent log says, of every wanted miner with samples in the range,
      exactly what its samples say. */
  lemma WindowedTimelineIsFaithful(filter: string, log: seq<Entry>, lo: int, hi: int, miner: string)
    requires Wanted(filter, miner) && Consistent(AllSamples(Timed(log)))
    requires exists x :: x in AllSamples(Filter(Timed(log), Between(lo, hi))) && x.miner == miner
    ensures var samples := AllSamples(Filter(Timed(log), Between(lo, hi)));
            miner in Direct(filter, log, lo, hi).states &&
            Encodes(Filter(samples, Of(miner)), Direct(filter, log, lo, hi).states[miner])
  {
    ByTsIsPreorder();
    FilterSort(Filter(log, Dated()), ByTs(), Between(lo, hi));
    SortSorts(Filter(Filter(log, Dated()), Between(lo, hi)), ByTs());
    EntriesInOrder(Filter(Timed(log), Between(lo, hi)));
    SamplesSubset(Timed(log), Between(lo, hi));
    TimelineIsFaithful(filter, AllSamples(Filter(Timed(log), Between(lo, hi))), miner);
  }

  // ---------- what the timeline says of the entries ----------

  /** The entry names the miner, in its statuses or in its modes. */
  ghost predicate Names(e: Entry, miner: string) {
    Has(e.statuses, miner) || Has(e.modes, miner)
  }

  /** What the entry says of a miner it names: its status, or "unknown" if that is empty or absent; its
      mode, or else its status, or else "unknown". */
  ghost predicate Reads(e: Entry, miner: string, mode: string, status: string) {
    && status == (if Get(e.statuses, miner) != "" then Get(e.statuses, miner) else "unknown")
    && mode == (if Get(e.modes, miner) != "" then Get(e.modes, miner) else status)
  }

  lemma {:induction false} GetAbsent(fields: seq<(string, string)>, key: string)
    requires !Has(fields, key)
    ensures Get(fields, key) == ""
  {
    if fields != [] {
      forall i | 0 <= i < |fields[1..]| ensures fields[1..][i].0 != key {
        assert fields[1..][i] == fields[i + 1];
      }
      GetAbsent(fields[1..], key);
    }
  }

  lemma {:induction false} StatusSamplesRead(e: Entry, ts: int, n: nat, x: Sample)
    requires n <= |e.statuses| && x in StatusSamples(e, ts, n)
    ensures x.ts == ts && Has(e.statuses, x.miner) && Reads(e, x.miner, x.mode, x.status)
  {
    if x in StatusSamples(e, ts, n - 1) {
      StatusSamplesRead(e, ts, n - 1, x);
    } else {
      assert e.statuses[n - 1].0 == x.miner;
    }
  }

  lemma {:induction false} ModeSamplesRead(e: Entry, ts: int, n: nat, x: Sample)
    requires n <= |e.modes| && x in ModeSamples(e, ts, n)
    ensures x.ts == ts && Has(e.modes, x.miner) && Reads(e, x.miner, x.mode, x.status)
  {
    if x in ModeSamples(e, ts, n - 1) {
      ModeSamplesRead(e, ts, n - 1, x);
    } else {
      assert e.modes[n - 1].0 == x.miner;
      GetAbsent(e.statuses, x.miner);
    }
  }

  lemma {:induction false} StatusSampled(e: Entry, ts: int, n: nat, i: nat)
    requires i < n <= |e.statuses|
    ensures exists x :: x in StatusSamples(e, ts, n) && x.miner == e.statuses[i].0
  {
    if i < n - 1 {
      StatusSampled(e, ts, n - 1, i);
      var x :| x in StatusSamples(e, ts, n - 1) && x.miner == e.statuses[i].0;
      assert x in StatusSamples(e, ts, n);
    } else {
      var all := StatusSamples(e, ts, n);
      assert all[|all| - 1].miner == e.statuses[i].0;
    }
  }

  lemma {:induction false} ModeSampled(e: Entry, ts: int, n: nat, i: nat)
    requires i < n <= |e.modes| && !Has(e.statuses, e.modes[i].0)
    ensures exists x :: x in ModeSamples(e, ts, n) && x.miner == e.modes[i].0
  {
    if i < n - 1 {
      ModeSampled(e, ts, n - 1, i);
      var x :| x in ModeSamples(e, ts, n - 1) && x.miner == e.modes[i].0;
      assert x in ModeSamples(e, ts, n);
    } else {
      var all := ModeSamples(e, ts, n);
      assert all[|all| - 1].miner == e.modes[i].0;
    }
  }

  /** An entry samples the miners it names, each as the entry reads. */
  lemma EntrySamples(e: Entry, x: Sample)
    requires e.ts.Some? && x in SamplesOf(e)
    ensures x.ts == e.ts.value && Names(e, x.miner) && Reads(e, x.miner, x.mode, x.status)
  {
    if x in StatusSamples(e, e.ts.value, |e.statuses|) {
      StatusSamplesRead(e, e.ts.value, |e.statuses|, x);
    } else {
      ModeSamplesRead(e, e.ts.value, |e.modes|, x);
    }
  }

  lemma NamedIsSampled(e: Entry, miner: string) returns (x: Sample)
    requires e.ts.Some? && Names(e, miner)
    ensures x in SamplesOf(e) && x.miner == miner
  {
    if Has(e.statuses, miner) {
      var i :| 0 <= i < |e.statuses| && e.statuses[i].0 == miner;
      StatusSampled(e, e.ts.value, |e.statuses|, i);
      x :| x in StatusSamples(e, e.ts.value, |e.statuses|) && x.miner == miner;
    } else {
      var i :| 0 <= i < |e.modes| && e.modes[i].0 == miner;
      ModeSampled(e, e.ts.value, |e.modes|, i);
      x :| x in ModeSamples(e, e.ts.value, |e.modes|) && x.miner == miner;
    }
  }

  lemma {:induction false} SamplesOfEntries(xs: seq<Entry>, x: Sample)
    ensures x in AllSamples(xs) <==> exists e :: e in xs && Dated()(e) && x in SamplesOf(e)
  {
    if xs != [] {
      var front, last := xs[..|xs| - 1], xs[|xs| - 1];
      assert xs == front + [last];
      SamplesOfEntries(front, x);
    }
  }

  lemma InTimed(log: seq<Entry>, lo: int, hi: int, e: Entry)
    ensures e in Filter(Timed(log), Between(lo, hi)) <==> e in log && Dated()(e) && lo <= Ts(e) <= hi
  {
    FilterMember(Timed(log), Between(lo, hi), e);
    SortMember(Filter(log, Dated()), e);
    FilterMember(log, Dated(), e);
  }

  /** An entry of the range: dated, and between its ends. */
  ghost predicate InRange(log: seq<Entry>, lo: int, hi: int, e: Entry) {
    e in log && e.ts.Some? && e.ts.value != 0 && lo <= e.ts.value <= hi
  }

  /** The samples of the range are the readings of its entries. */
  lemma RangeSamples(log: seq<Entry>, lo: int, hi: int, x: Sample)
    ensures x in AllSamples(Filter(Timed(log), Between(lo, hi))) <==>
            exists e :: InRange(log, lo, hi, e) && x in SamplesOf(e)
  {
    var xs := Filter(Timed(log), Between(lo, hi));
    SamplesOfEntries(xs, x);
    if x in AllSamples(xs) {
      var e :| e in xs && Dated()(e) && x in SamplesOf(e);
      InTimed(log, lo, hi, e);
      assert InRange(log, lo, hi, e);
    }
    if e :| InRange(log, lo, hi, e) && x in SamplesOf(e) {
      InTimed(log, lo, hi, e);
    }
  }

  /** For every entry of the range and every wanted miner it names, the segment in force at its time has
      the mode and the status the entry gives. */
  lemma TimelineTellsEntries(filter: string, log: seq<Entry>, lo: int, hi: int, e: Entry, miner: string)
    requires Consistent(AllSamples(Timed(log)))
    requires filter == "" || ContainerOf(miner) == filter
    requires InRange(log, lo, hi, e) && Names(e, miner)
    ensures var t := Direct(filter, log, lo, hi);
            miner in t.states && var d := Decode(SegmentsOf(t.states[miner]), e.ts.value);
                                 d.Some? && Reads(e, miner, d.value.mode, d.value.status)
  {
    var x := NamedIsSampled(e, miner);
    EntrySamples(e, x);
    RangeSamples(log, lo, hi, x);
    WindowedTimelineIsFaithful(filter, log, lo, hi, miner);
    FilterMember(AllSamples(Filter(Timed(log), Between(lo, hi))), Of(miner), x);
  }

  /** Of a miner no entry of the range names, or one of another container, there is nothing. */
  lemma NobodyElse(filter: string, log: seq<Entry>, lo: int, hi: int, miner: string)
    requires (filter != "" && ContainerOf(miner) != filter) ||
             forall e :: InRange(log, lo, hi, e) ==> !Names(e, miner)
    ensures miner !in Direct(filter, log, lo, hi).states
  {
    var samples := AllSamples(Filter(Timed(log), Between(lo, hi)));
    forall x | x in samples
      ensures !Wanted(filter, x.miner) || x.miner != miner
    {
      RangeSamples(log, lo, hi, x);
      var e :| InRange(log, lo, hi, e) && x in SamplesOf(e);
      EntrySamples(e, x);
    }
    NeverFed(filter, samples, miner);
  }

  lemma {:induction false} NeverFed(filter: string, samples: seq<Sample>, miner: string)
    requires forall x :: x in samples ==> !Wanted(filter, x.miner) || x.miner != miner
    ensures miner !in Feed(filter, Timeline([], map[]), samples).states
  {
    if samples != [] {
      var last := samples[|samples| - 1];
      assert last in samples;
      NeverFed(filter, samples[..|samples| - 1], miner);
    }
  }

  /** The container of "c-n" is "c", dashes in "c" and all. */
  lemma ContainerBeforeDash(container: string, n: string)
    requires container != "" && '-' !in n
    ensures ContainerOf(container + "-" + n) == container
  {
    LastDashOf(container, n);
  }

  lemma {:induction false} LastDashOf(container: string, n: string)
    requires '-' !in n
    ensures LastDash(container + "-" + n) == |container|
    decreases |n|
  {
    var key := container + "-" + n;
    if n != "" {
      assert key[|key| - 1] == n[|n| - 1] && n[|n| - 1] in n;
      assert key[..|key| - 1] == container + "-" + n[..|n| - 1];
      LastDashOf(container, n[..|n| - 1]);
    }
  }

  /** Some sample of `a` comes before every sample of `b`. */
  ghost predicate SeenBefore(samples: seq<Sample>, a: string, b: string) {
    exists k :: 0 <= k < |samples| && samples[k].miner == a && forall m :: 0 <= m <= k ==> samples[m].miner != b
  }

  /** The order of the rows is that in which the miners were first seen. */
  lemma {:induction false} OrderIsFirstSeen(filter: string, samples: seq<Sample>, i: int, j: int)
    requires 0 <= i < j < |Feed(filter, Timeline([], map[]), samples).order|
    ensures var order := Feed(filter, Timeline([], map[]), samples).order;
            SeenBefore(samples, order[i], order[j])
  {
    var front, last := samples[..|samples| - 1], samples[|samples| - 1];
    var was, order := Feed(filter, Timeline([], map[]), front).order, Feed(filter, Timeline([], map[]), samples).order;
    if j < |was| {
      OrderIsFirstSeen(filter, front, i, j);
      var k :| 0 <= k < |front| && front[k].miner == was[i] && forall m :: 0 <= m <= k ==> front[m].miner != was[j];
      assert samples[k] == front[k] && forall m :: 0 <= m <= k ==> samples[m] == front[m];
    } else {
      OrderListsStates(filter, front);
      var k := SeenAlready(filter, front, was[i]);
      assert samples[k] == front[k];
      NewlySeen(filter, front, last.miner);
      assert forall m :: 0 <= m <= k ==> samples[m] == front[m];
    }
  }

  lemma {:induction false} SeenAlready(filter: string, samples: seq<Sample>, miner: string) returns (k: nat)
    requires miner in Feed(filter, Timeline([], map[]), samples).states
    ensures k < |samples| && samples[k].miner == miner && Wanted(filter, miner)
  {
    if miner in Feed(filter, Timeline([], map[]), samples[..|samples| - 1]).states {
      k := SeenAlready(filter, samples[..|samples| - 1], miner);
    } else {
      k := |samples| - 1;
    }
  }

  lemma {:induction false} NewlySeen(filter: string, samples: seq<Sample>, miner: string)
    requires Wanted(filter, miner) && miner !in Feed(filter, Timeline([], map[]), samples).states
    ensures forall k :: 0 <= k < |samples| ==> samples[k].miner != miner
  {
    if samples != [] { NewlySeen(filter, samples[..|samples| - 1], miner); }
  }

  /** The order lists the miners there are, each once. */
  lemma {:induction false} OrderListsStates(filter: string, samples: seq<Sample>)
    ensures var t := Feed(filter, Timeline([], map[]), samples);
            Distinct(t.order) && forall m :: m in t.order <==> m in t.states
  {
    if samples != [] { OrderListsStates(filter, samples[..|samples| - 1]); }
  }
}
