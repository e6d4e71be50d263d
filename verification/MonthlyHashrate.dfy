/** workers/lib/server/handlers/metrics.handlers.js: getMonthlyHashrate, calendar-month rows answered
    from a cache that also remembers silent months, against the uncached rollup. */
module MonthlyHashrate {
  import opened Wrappers
  import opened Seqs
  import opened Calendar
  import opened LocalTime
  import opened Grouping
  import opened LocalBuckets
  import opened LocalMonths
  import opened HourlySource
  import opened MonthlyHashesCache
  import opened StoredMonths
  import opened MonthlyRollup

  /** The month and everything else that changes its numbers: the tag stands for zone, container,
      phase and flags. */
  datatype Key = Key(month: int, tag: string)

  type Source = string -> seq<Entry<Hash>>

  type RowSlots = Slots<Key, Option<Row>>

  const INVALID_RANGE: string := "ERR_INVALID_DATE_RANGE"

  // ---------- the cache invariant ----------

  /** Every resident value, null included, is the row of its whole month in its own zone. */
  ghost predicate Truthful(grids: string -> Grid, source: Source, slots: RowSlots) {
    forall s :: s in slots ==> IsRow(grids, source, s.key, s.value)
  }

  ghost predicate IsRow(grids: string -> Grid, source: Source, key: Key, value: Option<Row>) {
    value == RowOf(grids(key.tag), source(key.tag), key.month)
  }

  lemma TruthfulAfterGet(grids: string -> Grid, source: Source, slots: RowSlots, key: Key, now: int)
    requires Truthful(grids, source, slots)
    ensures Truthful(grids, source, AfterGet(slots, key, now))
    ensures GetValue(slots, key, now).Some? ==> IsRow(grids, source, key, GetValue(slots, key, now).value)
  {
    FindIsIn(slots, key);
    forall s | s in Without(slots, key) ensures s in slots {
      FilterMember(slots, OtherThan(key), s);
    }
  }

  lemma TruthfulAfterSet(grids: string -> Grid, source: Source, slots: RowSlots, slot: Slot<Key, Option<Row>>, max: nat)
    requires Truthful(grids, source, slots) && IsRow(grids, source, slot.key, slot.value)
    ensures Truthful(grids, source, AfterSet(slots, slot, max))
  {
    forall s | s in Without(slots, slot.key) ensures s in slots {
      FilterMember(slots, OtherThan(slot.key), s);
    }
  }

  // ---------- months of a fetched log ----------

  /** On the hours of `month`, the two ranges agree. */
  ghost predicate SameHours(g: Grid, month: int, start: int, end: int, lo: int, hi: int) {
    forall t :: g.unitOf(t) == month ==> (start <= t <= end <==> lo <= t <= hi)
  }

  lemma SameMonth(g: Grid, log: seq<Entry<Hash>>, now: int, month: int, start: int, end: int, lo: int, hi: int)
    requires SameHours(g, month, start, end, lo, hi)
    ensures RowOf(g, Fetch(log, now, start, end), month) == RowOf(g, Fetch(log, now, lo, hi), month)
  {
    var seen, inMonth := Filter(log, Reported(now)), InBucket(g.unitOf, month);
    FilterBoth(seen, Within(start, end), inMonth);
    FilterBoth(seen, Within(lo, hi), inMonth);
    FilterAgree(seen, Both(Within(start, end), inMonth), Both(Within(lo, hi), inMonth));
  }

  lemma SpanSameHours(g: Grid, month: int, start: int, end: int, lo: int, hi: int)
    requires IsGrid(g, month, month + 1) && SpanCovers(g, start, end, month, lo, hi) && start <= lo && hi <= end
    ensures SameHours(g, month, start, end, lo, hi)
  {
    forall t | g.unitOf(t) == month
      ensures start <= t <= end <==> lo <= t <= hi
    {
      assert Splits(g, month, t) && Splits(g, month + 1, t);
    }
  }

  /** An ended month requested whole is fetched whole. */
  lemma WholeMonth(g: Grid, log: seq<Entry<Hash>>, now: int, month: int, start: int, end: int)
    requires IsGrid(g, month, month + 1) && start <= g.unitStart(month) && g.unitStart(month + 1) - 1 <= end
    requires g.unitStart(month + 1) <= now
    ensures RowOf(g, Fetch(log, now, start, end), month) == RowOf(g, log, month)
  {
    var inMonth := InBucket(g.unitOf, month);
    forall e: Entry<Hash> | inMonth(e)
      ensures Reported(now)(e) && Within(start, end)(e)
    {
      assert Splits(g, month, e.ts.value) && Splits(g, month + 1, e.ts.value);
    }
    FilterFilter(Filter(log, Reported(now)), Within(start, end), inMonth);
    FilterFilter(log, Reported(now), inMonth);
  }

  // ---------- what is read from the cache ----------

  /** A request's parameters, fixed over the read loop. */
  datatype Request = Request(start: int, end: int, tag: string, refresh: bool, now: int)

  /** The hours a request may see. */
  ghost function Hours(source: Source, q: Request): seq<Entry<Hash>> {
    Fetch(source(q.tag), q.now, q.start, q.end)
  }

  /** Ended and requested end to end. */
  predicate Cacheable(month: Month, start: int, end: int, now: int) {
    month.end < now && month.start >= start && month.end <= end
  }

  /** The month is answered by the cache as it stands. */
  predicate Hit(slots: RowSlots, month: Month, q: Request) {
    Cacheable(month, q.start, q.end, q.now) && !q.refresh && GetValue(slots, Key(month.key, q.tag), q.now).Some?
  }

  /** On the months read so far, exactly the hits have a row, and it is the fetched one. */
  ghost predicate Answered(g: Grid, fetched: seq<Entry<Hash>>, hits: set<int>, rows: map<int, Option<Row>>) {
    && rows.Keys == hits
    && forall k :: k in rows ==> rows[k] == RowOf(g, fetched, k)
  }

  /** Two states of the cache answer a month alike. */
  ghost predicate SameRead(before: RowSlots, after: RowSlots, month: int, q: Request) {
    GetValue(before, Key(month, q.tag), q.now) == GetValue(after, Key(month, q.tag), q.now)
  }

  ghost predicate OthersSame(before: RowSlots, after: RowSlots, month: int, q: Request) {
    forall k :: k != month ==> SameRead(before, after, k, q)
  }

  /** Months from `from` on are still answered as they were at the start. */
  ghost predicate LaterSame(before: RowSlots, after: RowSlots, from: int, q: Request) {
    forall k :: k >= from ==> SameRead(before, after, k, q)
  }

  /** `hits` are the months of the range answered by the cache as it was at the start. */
  ghost predicate HitsAre(g: Grid, slots: RowSlots, first: int, n: int, hits: set<int>, q: Request) {
    forall k :: first <= k < first + n ==> (k in hits <==> Hit(slots, MonthOn(g, k), q))
  }

  lemma ReadOne(g: Grid, s0: RowSlots, s1: RowSlots, s2: RowSlots, q: Request, first: int, i: int, hits: set<int>,
                hit: bool)
    requires HitsAre(g, s0, first, i, hits, q) && forall k :: k in hits ==> k < first + i
    requires LaterSame(s0, s1, first + i, q) && OthersSame(s1, s2, first + i, q)
    requires hit <==> Hit(s1, MonthOn(g, first + i), q)
    ensures LaterSame(s0, s2, first + i + 1, q)
    ensures HitsAre(g, s0, first, i + 1, if hit then hits + {first + i} else hits, q)
  {
    assert SameRead(s0, s1, first + i, q);
    forall k | k >= first + i + 1
      ensures SameRead(s0, s2, k, q)
    {
      assert SameRead(s0, s1, k, q) && SameRead(s1, s2, k, q);
    }
  }

  method ReadMonth(cache: LruTtlCache<Key, Option<Row>>, grids: string -> Grid, source: Source, month: Month,
                   q: Request)
    returns (cached: Option<Option<Row>>)
    requires IsGrid(grids(q.tag), month.key, month.key + 1) && month == MonthOn(grids(q.tag), month.key)
    requires Truthful(grids, source, cache.entries)
    modifies cache
    ensures Truthful(grids, source, cache.entries)
    ensures cached.Some? <==> Hit(old(cache.entries), month, q)
    ensures cached.Some? ==> cached.value == RowOf(grids(q.tag), Hours(source, q), month.key)
    ensures OthersSame(old(cache.entries), cache.entries, month.key, q)
  {
    cached := None;
    if Cacheable(month, q.start, q.end, q.now) && !q.refresh {
      TruthfulAfterGet(grids, source, cache.entries, Key(month.key, q.tag), q.now);
      forall k | k != month.key
        ensures SameRead(cache.entries, AfterGet(cache.entries, Key(month.key, q.tag), q.now), k, q)
      {
        GetLeavesOthers(cache.entries, Key(month.key, q.tag), Key(k, q.tag), q.now);
      }
      cached := cache.Get(Key(month.key, q.tag), q.now);
      WholeMonth(grids(q.tag), source(q.tag), q.now, month.key, q.start, q.end);
    }
  }

  /** After `i` months: the answers, the misses and what the cache still says of later months. */
  ghost predicate ReadSoFar(g: Grid, fetched: seq<Entry<Hash>>, s0: RowSlots, s1: RowSlots, q: Request, first: int,
                            i: int, rows: map<int, Option<Row>>, missing: seq<Month>, hits: set<int>) {
    && Answered(g, fetched, hits, rows)
    && Missing(g, first, i, hits, missing)
    && HitsAre(g, s0, first, i, hits, q)
    && LaterSame(s0, s1, first + i, q)
  }

  lemma ReadStep(g: Grid, fetched: seq<Entry<Hash>>, s0: RowSlots, s1: RowSlots, s2: RowSlots, q: Request,
                 first: int, i: int, rows: map<int, Option<Row>>, missing: seq<Month>, hits: set<int>,
                 cached: Option<Option<Row>>)
    requires i >= 0 && ReadSoFar(g, fetched, s0, s1, q, first, i, rows, missing, hits)
    requires cached.Some? <==> Hit(s1, MonthOn(g, first + i), q)
    requires cached.Some? ==> cached.value == RowOf(g, fetched, first + i)
    requires OthersSame(s1, s2, first + i, q)
    ensures if cached.Some? then
              ReadSoFar(g, fetched, s0, s2, q, first, i + 1, rows[first + i := cached.value], missing,
                        hits + {first + i})
            else
              ReadSoFar(g, fetched, s0, s2, q, first, i + 1, rows, missing + [MonthOn(g, first + i)], hits)
  {
    HitsBefore(g, first, i, hits, missing);
    ReadOne(g, s0, s1, s2, q, first, i, hits, cached.Some?);
    if cached.Some? {
      AnsweredOne(g, fetched, hits, rows, first + i, cached.value);
      HitOne(g, first, i, hits, missing);
    } else {
      MissOne(g, first, i, hits, missing);
    }
  }

  lemma HitsBefore(g: Grid, first: int, i: int, hits: set<int>, missing: seq<Month>)
    requires Missing(g, first, i, hits, missing)
    ensures forall k :: k in hits ==> k < first + i
  {
  }

  lemma HitOne(g: Grid, first: int, i: int, hits: set<int>, missing: seq<Month>)
    requires i >= 0 && Missing(g, first, i, hits, missing)
    ensures Missing(g, first, i + 1, hits + {first + i}, missing)
  {
    MissOne(g, first, i, hits, missing);
  }

  lemma AnsweredOne(g: Grid, fetched: seq<Entry<Hash>>, hits: set<int>, rows: map<int, Option<Row>>, k: int,
                    row: Option<Row>)
    requires Answered(g, fetched, hits, rows) && row == RowOf(g, fetched, k)
    ensures Answered(g, fetched, hits + {k}, rows[k := row])
  {
  }

  /** Reads the next month: its row joins the answers or the month joins the misses. */
  method ReadNext(cache: LruTtlCache<Key, Option<Row>>, grids: string -> Grid, source: Source, month: Month, q: Request,
                  rows: map<int, Option<Row>>, missing: seq<Month>,
                  ghost s0: RowSlots, ghost first: int, ghost i: int, ghost hits: set<int>)
    returns (rows': map<int, Option<Row>>, missing': seq<Month>, ghost hits': set<int>)
    requires IsGrid(grids(q.tag), first + i, first + i + 1) && Truthful(grids, source, cache.entries)
    requires i >= 0 && month == MonthOn(grids(q.tag), first + i)
    requires ReadSoFar(grids(q.tag), Hours(source, q), s0, cache.entries, q, first, i, rows, missing, hits)
    modifies cache
    ensures Truthful(grids, source, cache.entries)
    ensures ReadSoFar(grids(q.tag), Hours(source, q), s0, cache.entries, q, first, i + 1, rows', missing', hits')
  {
    rows', missing', hits' := rows, missing, hits;
    ghost var before := cache.entries;
    var cached := ReadMonth(cache, grids, source, month, q);
    ReadStep(grids(q.tag), Hours(source, q), s0, before, cache.entries, q, first, i, rows, missing, hits, cached);
    if cached.Some? {
      rows' := rows[month.key := cached.value];
      hits' := hits + {month.key};
    } else {
      missing' := missing + [month];
    }
  }

  method ReadMonths(cache: LruTtlCache<Key, Option<Row>>, grids: string -> Grid, source: Source, months: seq<Month>,
                    q: Request, ghost first: int)
    returns (rows: map<int, Option<Row>>, missing: seq<Month>, ghost hits: set<int>)
    requires IsGrid(grids(q.tag), first, first + |months|) && MonthsOf(grids(q.tag), first, months)
    requires Truthful(grids, source, cache.entries)
    modifies cache
    ensures Truthful(grids, source, cache.entries)
    ensures ReadSoFar(grids(q.tag), Hours(source, q), old(cache.entries), cache.entries, q, first, |months|,
                      rows, missing, hits)
  {
    rows, missing, hits := map[], [], {};
    for i := 0 to |months|
      invariant Truthful(grids, source, cache.entries)
      invariant ReadSoFar(grids(q.tag), Hours(source, q), old(cache.entries), cache.entries, q, first, i,
                          rows, missing, hits)
    {
      rows, missing, hits := ReadNext(cache, grids, source, months[i], q, rows, missing, old(cache.entries), first, i,
                                      hits);
    }
  }

  // ---------- what is stored, and the answer ----------

  /** Each missing month is found its row, and is one of `n` months in order. */
  ghost predicate RowsKnown(g: Grid, source: Source, q: Request, first: int, n: int, missing: seq<Month>,
                            rows: map<int, Option<Row>>) {
    forall m :: m in missing ==>
                  first <= m.key < first + n && m == MonthOn(g, m.key) &&
                  LookUp(rows, m.key) == RowOf(g, Hours(source, q), m.key)
  }

  /** The months a request stores, and the keys it stores them under. */
  function Keeps(q: Request): Month -> bool {
    (m: Month) => Cacheable(m, q.start, q.end, q.now)
  }

  function KeyFor(q: Request): int -> Key {
    (k: int) => Key(k, q.tag)
  }

  /** Stores the months that are whole; they are resident afterwards if the cache has room for all. */
  method StoreMonths(cache: LruTtlCache<Key, Option<Row>>, grids: string -> Grid, source: Source, missing: seq<Month>,
                     rows: map<int, Option<Row>>, q: Request, ghost first: int, ghost n: int)
    requires IsGrid(grids(q.tag), first, first + n) && Truthful(grids, source, cache.entries)
    requires RowsKnown(grids(q.tag), source, q, first, n, missing, rows)
    requires InOrder(missing)
    modifies cache
    ensures Truthful(grids, source, cache.entries)
    ensures |missing| <= cache.maxEntries ==>
              MonthsResident(cache.entries, missing, Keeps(q), KeyFor(q), q.now + cache.ttlMs)
  {
    ghost var older, tail: RowSlots := cache.entries, [];
    NothingStored(cache.entries, missing, Keeps(q), KeyFor(q), q.now + cache.ttlMs);
    for i := 0 to |missing|
      invariant Truthful(grids, source, cache.entries)
      invariant |missing| <= cache.maxEntries ==>
                  StoredSoFar(cache.entries, older, tail, missing, i, Keeps(q), KeyFor(q), q.now + cache.ttlMs)
    {
      older, tail := StoreNext(cache, grids, source, missing, i, LookUp(rows, missing[i].key), q, first, n, rows,
                               older, tail);
    }
    if |missing| <= cache.maxEntries {
      AllStored(cache.entries, older, tail, missing, Keeps(q), KeyFor(q), q.now + cache.ttlMs);
    }
  }

  method StoreNext(cache: LruTtlCache<Key, Option<Row>>, grids: string -> Grid, source: Source, missing: seq<Month>,
                   i: nat, row: Option<Row>, q: Request, ghost first: int, ghost n: int,
                   ghost rows: map<int, Option<Row>>, ghost older: RowSlots, ghost tail: RowSlots)
    returns (ghost older': RowSlots, ghost tail': RowSlots)
    requires IsGrid(grids(q.tag), first, first + n) && Truthful(grids, source, cache.entries) && i < |missing|
    requires RowsKnown(grids(q.tag), source, q, first, n, missing, rows) && row == LookUp(rows, missing[i].key)
    requires InOrder(missing)
    requires |missing| <= cache.maxEntries ==>
               StoredSoFar(cache.entries, older, tail, missing, i, Keeps(q), KeyFor(q), q.now + cache.ttlMs)
    modifies cache
    ensures Truthful(grids, source, cache.entries)
    ensures |missing| <= cache.maxEntries ==>
              StoredSoFar(cache.entries, older', tail', missing, i + 1, Keeps(q), KeyFor(q), q.now + cache.ttlMs)
  {
    assert missing[i] in missing;
    older', tail' := older, tail;
    if |missing| <= cache.maxEntries {
      older', tail' := StoreKeeps(cache.entries, older, tail, missing, i, Keeps(q), KeyFor(q),
                                  Slot(Key(missing[i].key, q.tag), row, q.now + cache.ttlMs), cache.maxEntries);
    }
    StoreMonth(cache, grids, source, missing[i], row, q);
  }

  method StoreMonth(cache: LruTtlCache<Key, Option<Row>>, grids: string -> Grid, source: Source, month: Month,
                    row: Option<Row>,
                    q: Request)
    requires IsGrid(grids(q.tag), month.key, month.key + 1) && Truthful(grids, source, cache.entries)
    requires month == MonthOn(grids(q.tag), month.key) && row == RowOf(grids(q.tag), Hours(source, q), month.key)
    modifies cache
    ensures Truthful(grids, source, cache.entries)
    ensures cache.entries ==
            if Cacheable(month, q.start, q.end, q.now) then
              AfterSet(old(cache.entries), Slot(Key(month.key, q.tag), row, q.now + cache.ttlMs), cache.maxEntries)
            else old(cache.entries)
  {
    if Cacheable(month, q.start, q.end, q.now) {
      CacheableRow(grids, source, month, row, q);
      StoreRow(cache, grids, source, Key(month.key, q.tag), row, q.now);
    }
  }

  lemma CacheableRow(grids: string -> Grid, source: Source, month: Month, row: Option<Row>, q: Request)
    requires IsGrid(grids(q.tag), month.key, month.key + 1) && month == MonthOn(grids(q.tag), month.key)
    requires Cacheable(month, q.start, q.end, q.now) && row == RowOf(grids(q.tag), Hours(source, q), month.key)
    ensures IsRow(grids, source, Key(month.key, q.tag), row)
  {
    WholeMonth(grids(q.tag), source(q.tag), q.now, month.key, q.start, q.end);
  }

  method StoreRow(cache: LruTtlCache<Key, Option<Row>>, grids: string -> Grid, source: Source, key: Key,
                  row: Option<Row>,
                  now: int)
    requires Truthful(grids, source, cache.entries) && IsRow(grids, source, key, row)
    modifies cache
    ensures Truthful(grids, source, cache.entries)
    ensures cache.entries == AfterSet(old(cache.entries), Slot(key, row, now + cache.ttlMs), cache.maxEntries)
  {
    TruthfulAfterSet(grids, source, cache.entries, Slot(key, row, now + cache.ttlMs), cache.maxEntries);
    cache.Set(key, row, now);
  }

  /** rows.get(key) ?? null. */
  function LookUp(rows: map<int, Option<Row>>, month: int): Option<Row> {
    if month in rows then rows[month] else None
  }

  method ListRows(g: Grid, months: seq<Month>, rows: map<int, Option<Row>>, ghost fetched: seq<Entry<Hash>>,
                  ghost first: int)
    returns (log: seq<Row>)
    requires MonthsOf(g, first, months)
    requires forall m :: m in months ==> LookUp(rows, m.key) == RowOf(g, fetched, m.key)
    ensures log == MonthRows(g, fetched, first, |months|)
  {
    log := [];
    ghost var rowOf := LogRows(g, fetched);
    for i := 0 to |months|
      invariant log == Rows(rowOf, first, i)
    {
      RowsSnoc(rowOf, first, i);
      var row := LookUp(rows, months[i].key);
      FoundRow(g, fetched, months, rows, first, i);
      if row.Some? { log := log + [row.value]; }
    }
  }

  lemma FoundRow(g: Grid, fetched: seq<Entry<Hash>>, months: seq<Month>, rows: map<int, Option<Row>>, first: int,
                 i: nat)
    requires MonthsOf(g, first, months) && i < |months|
    requires forall m :: m in months ==> LookUp(rows, m.key) == RowOf(g, fetched, m.key)
    ensures LookUp(rows, months[i].key) == LogRows(g, fetched)(first + i)
  {
    assert months[i] in months;
  }

  /** Fetching over the misses gives every month of the range its row, stretched-over months too. */
  lemma FetchedRows(g: Grid, log: seq<Entry<Hash>>, now: int, start: int, end: int, first: int, n: int,
                    hits: set<int>, missing: seq<Month>, k: int, lo: int, hi: int)
    requires IsGrid(g, first, first + n) && Missing(g, first, n, hits, missing) && missing != [] &&
             first <= k < first + n
    requires lo == Max(start, missing[0].start) && hi == Min(end, missing[|missing| - 1].end)
    requires k !in hits || RowOf(g, Fetch(log, now, lo, hi), k).Some?
    ensures RowOf(g, Fetch(log, now, lo, hi), k) == RowOf(g, Fetch(log, now, start, end), k)
  {
    if k !in hits {
      var i :| 0 <= i < |missing| && missing[i].key == k;
      SpanCoversMissing(g, start, end, first, n, hits, missing);
      assert SpanCovers(g, start, end, missing[i].key, lo, hi);
    } else {
      var t := RowHasEntry(g, log, now, k, lo, hi);
      InSpan(g, first, n, hits, missing, k, t);
    }
    SpanSameHours(g, k, start, end, lo, hi);
    SameMonth(g, log, now, k, start, end, lo, hi);
  }

  lemma RowHasEntry(g: Grid, log: seq<Entry<Hash>>, now: int, k: int, lo: int, hi: int) returns (t: int)
    requires RowOf(g, Fetch(log, now, lo, hi), k).Some?
    ensures lo <= t <= hi && g.unitOf(t) == k
  {
    var fetched := Fetch(log, now, lo, hi);
    MonthLogDated(g, fetched, k);
    var e := MonthLog(g, fetched, k)[0];
    FilterMember(fetched, InBucket(g.unitOf, k), e);
    FilterMember(Filter(log, Reported(now)), Within(lo, hi), e);
    t := e.ts.value;
  }

  /** A hit with an instant in the span of the misses lies between the first and the last miss. */
  lemma InSpan(g: Grid, first: int, n: int, hits: set<int>, missing: seq<Month>, k: int, t: int)
    requires IsGrid(g, first, first + n) && Missing(g, first, n, hits, missing) && missing != [] && k in hits
    requires g.unitOf(t) == k && missing[0].start <= t <= missing[|missing| - 1].end
    ensures missing[0].end < g.unitStart(k) && g.unitStart(k + 1) <= missing[|missing| - 1].start
  {
    EndsOfMissing(g, first, n, hits, missing, k);
    Between(g, first, first + n, missing[0].key, missing[|missing| - 1].key, k, t);
  }

  lemma EndsOfMissing(g: Grid, first: int, n: int, hits: set<int>, missing: seq<Month>, k: int)
    requires Missing(g, first, n, hits, missing) && missing != [] && k in hits
    ensures var m := missing[0]; m.start == g.unitStart(m.key) && m.end == g.unitStart(m.key + 1) - 1 && m.key != k
    ensures var m := missing[|missing| - 1];
            m.start == g.unitStart(m.key) && m.end == g.unitStart(m.key + 1) - 1 && m.key != k
  {
  }

  lemma Between(g: Grid, lo: int, hi: int, k0: int, k1: int, k: int, t: int)
    requires IsGrid(g, lo, hi) && lo <= k0 && k0 <= k1 < hi && g.unitOf(t) == k && k != k0 && k != k1
    requires g.unitStart(k0) <= t < g.unitStart(k1 + 1)
    ensures g.unitStart(k0 + 1) <= g.unitStart(k) && g.unitStart(k + 1) <= g.unitStart(k1)
  {
    assert Splits(g, k0, t) && Splits(g, k1 + 1, t);
    assert k0 + 1 < k ==> g.unitStart(k0 + 1) < g.unitStart(k);
    assert k + 1 < k1 ==> g.unitStart(k + 1) < g.unitStart(k1);
  }

  /** Months `first` to `last` are longer than one millisecond. */
  ghost predicate LongMonths(g: Grid, first: int, last: int) {
    forall k :: first <= k <= last ==> g.unitStart(k) + 1 < g.unitStart(k + 1)
  }

  /** The request touches month `k` in its last or its first instant only. */
  ghost predicate TouchesOneInstant(g: Grid, k: int, start: int, end: int) {
    start == g.unitStart(k + 1) - 1 || end == g.unitStart(k)
  }

  /** The span of the misses is a single instant exactly when the one missing month is an edge month
      that the request touches in one instant. */
  lemma SingleInstantSpan(g: Grid, start: int, end: int, first: int, n: int, hits: set<int>, missing: seq<Month>)
    requires IsGrid(g, first, first + n) && LongMonths(g, first, first + n - 1)
    requires start < end && first == g.unitOf(start) && n >= 1
    requires g.unitStart(first + n - 1) <= end < g.unitStart(first + n)
    requires Missing(g, first, n, hits, missing) && missing != []
    ensures Max(start, missing[0].start) >= Min(end, missing[|missing| - 1].end) <==>
            |missing| == 1 && TouchesOneInstant(g, missing[0].key, start, end)
  {
    var k0, k1 := missing[0].key, missing[|missing| - 1].key;
    assert Splits(g, first, start) && Splits(g, first + 1, start);
    assert first < k0 ==> g.unitStart(first) < g.unitStart(k0);
    assert first + 1 < k1 + 1 ==> g.unitStart(first + 1) < g.unitStart(k1 + 1);
    assert k0 < first + n - 1 ==> g.unitStart(k0) < g.unitStart(first + n - 1);
    assert k1 + 1 < first + n ==> g.unitStart(k1 + 1) < g.unitStart(first + n);
    assert g.unitStart(k0) + 1 < g.unitStart(k0 + 1) && g.unitStart(k1) + 1 < g.unitStart(k1 + 1);
    assert k0 < k1 ==> k0 + 1 == k1 || g.unitStart(k0 + 1) < g.unitStart(k1);
  }

  /** The guard a caller can evaluate before the call: every month of the range but one is a hit, and
      the request touches that one in a single instant. */
  ghost predicate LoneInstant(g: Grid, slots: RowSlots, q: Request) {
    exists k :: InRange(g, q, k) && TouchesOneInstant(g, k, q.start, q.end) && OnlyMiss(g, slots, q, k)
  }

  ghost predicate InRange(g: Grid, q: Request, k: int) {
    g.unitOf(q.start) <= k <= g.unitOf(q.end)
  }

  ghost predicate OnlyMiss(g: Grid, slots: RowSlots, q: Request, k: int) {
    forall j :: InRange(g, q, j) ==> (j == k <==> !Hit(slots, MonthOn(g, j), q))
  }

  lemma KeysDiffer(g: Grid, first: int, n: int, hits: set<int>, missing: seq<Month>)
    requires Missing(g, first, n, hits, missing)
    ensures |missing| > 1 ==> missing[0].key < missing[1].key
  {
  }

  lemma OneMissing(g: Grid, slots: RowSlots, q: Request, first: int, n: int, hits: set<int>, missing: seq<Month>)
    requires first == g.unitOf(q.start) && n == g.unitOf(q.end) - first + 1
    requires Missing(g, first, n, hits, missing) && HitsAre(g, slots, first, n, hits, q)
    ensures LoneInstant(g, slots, q) <==> |missing| == 1 && TouchesOneInstant(g, missing[0].key, q.start, q.end)
  {
    if |missing| == 1 {
      assert InRange(g, q, missing[0].key) && OnlyMiss(g, slots, q, missing[0].key);
    }
    if LoneInstant(g, slots, q) {
      var k :| InRange(g, q, k) && TouchesOneInstant(g, k, q.start, q.end) && OnlyMiss(g, slots, q, k);
      KeysDiffer(g, first, n, hits, missing);
      assert !Hit(slots, MonthOn(g, k), q);
      assert k !in hits;
      var i :| 0 <= i < |missing| && missing[i].key == k;
      assert forall j :: 0 <= j < |missing| ==> InRange(g, q, missing[j].key) && missing[j].key == k;
    }
  }

  /** The months of the request, from that of its start to that of its end. */
  ghost predicate RangeIs(g: Grid, q: Request, months: seq<Month>) {
    && MonthsOf(g, g.unitOf(q.start), months)
    && |months| == g.unitOf(q.end) - g.unitOf(q.start) + 1 && |months| >= 1
    && g.unitStart(g.unitOf(q.end)) <= q.end < g.unitStart(g.unitOf(q.end) + 1)
    && IsGrid(g, g.unitOf(q.start), g.unitOf(q.end) + 1) && LongMonths(g, g.unitOf(q.start), g.unitOf(q.end))
  }

  /** Rolls up the span of the misses and stores the months that are whole. */
  method FillRows(cache: LruTtlCache<Key, Option<Row>>, grids: string -> Grid, source: Source, missing: seq<Month>,
                  q: Request,
                  filled: map<int, Option<Row>>, ghost first: int, ghost n: int, ghost hits: set<int>)
    returns (r: Result<map<int, Option<Row>>, string>)
    requires IsGrid(grids(q.tag), first, first + n) && Truthful(grids, source, cache.entries)
    requires missing != [] && Missing(grids(q.tag), first, n, hits, missing)
    requires Answered(grids(q.tag), Hours(source, q), hits, filled)
    modifies cache
    ensures Truthful(grids, source, cache.entries)
    ensures r.Err? <==> Max(q.start, missing[0].start) >= Min(q.end, missing[|missing| - 1].end)
    ensures r.Ok? ==> RowsComplete(grids(q.tag), source, q, first, n, r.value)
    ensures r.Ok? && |missing| <= cache.maxEntries ==>
              MonthsResident(cache.entries, missing, Keeps(q), KeyFor(q), q.now + cache.ttlMs)
  {
    var lo, hi := Max(q.start, missing[0].start), Min(q.end, missing[|missing| - 1].end);
    if lo >= hi { return Err(INVALID_RANGE); }
    var rows := RollupInto(grids(q.tag), Fetch(source(q.tag), q.now, lo, hi), filled);
    RowsFetched(grids(q.tag), source, q, first, n, hits, missing, lo, hi, filled, rows);
    MissingKnown(grids(q.tag), source, q, first, n, hits, missing, rows);
    StoreMonths(cache, grids, source, missing, rows, q, first, n);
    r := Ok(rows);
  }

  lemma RowsFetched(g: Grid, source: Source, q: Request, first: int, n: int, hits: set<int>, missing: seq<Month>,
                    lo: int, hi: int, filled: map<int, Option<Row>>, rows: map<int, Option<Row>>)
    requires IsGrid(g, first, first + n) && missing != [] && Missing(g, first, n, hits, missing)
    requires lo == Max(q.start, missing[0].start) && hi == Min(q.end, missing[|missing| - 1].end)
    requires Answered(g, Hours(source, q), hits, filled)
    requires forall k :: k in rows <==> k in filled || RowOf(g, Fetch(source(q.tag), q.now, lo, hi), k).Some?
    requires forall k :: k in rows ==>
                         rows[k] == if RowOf(g, Fetch(source(q.tag), q.now, lo, hi), k).Some?
                                    then RowOf(g, Fetch(source(q.tag), q.now, lo, hi), k) else filled[k]
    ensures RowsComplete(g, source, q, first, n, rows)
  {
    forall k | first <= k < first + n
      ensures LookUp(rows, k) == RowOf(g, Hours(source, q), k)
    {
      if k !in hits || RowOf(g, Fetch(source(q.tag), q.now, lo, hi), k).Some? {
        FetchedRows(g, source(q.tag), q.now, q.start, q.end, first, n, hits, missing, k, lo, hi);
      }
    }
  }

  lemma MissingKnown(g: Grid, source: Source, q: Request, first: int, n: int, hits: set<int>, missing: seq<Month>,
                     rows: map<int, Option<Row>>)
    requires Missing(g, first, n, hits, missing) && RowsComplete(g, source, q, first, n, rows)
    ensures RowsKnown(g, source, q, first, n, missing, rows)
  {
  }

  /** The rollup of the requested hours without any cache, month by month. */
  ghost function UncachedRows(g: Grid, source: Source, q: Request): seq<Row> {
    var n := g.unitOf(q.end) - g.unitOf(q.start) + 1;
    if n < 0 then [] else MonthRows(g, Hours(source, q), g.unitOf(q.start), n)
  }

  /** The answer lists the months of the range that have hours, in order, each with its row. */
  lemma AnswerTabulates(g: Grid, source: Source, q: Request)
    requires g.unitOf(q.start) <= g.unitOf(q.end)
    ensures Tabulates(g.unitOf, LogRows(g, Hours(source, q)), g.unitOf(q.start),
                      g.unitOf(q.end) - g.unitOf(q.start) + 1, UncachedRows(g, source, q))
  {
    var first, n := g.unitOf(q.start), g.unitOf(q.end) - g.unitOf(q.start) + 1;
    assert UncachedRows(g, source, q) == MonthRows(g, Hours(source, q), first, n);
    MonthRowsAre(g, Hours(source, q), first, n);
  }

  /** Every month of the range finds its row among `rows`. */
  ghost predicate RowsComplete(g: Grid, source: Source, q: Request, first: int, n: int, rows: map<int, Option<Row>>) {
    forall k :: first <= k < first + n ==> LookUp(rows, k) == RowOf(g, Hours(source, q), k)
  }

  /** Fills the misses, if any; fails on a span of a single instant. The handler is awaited, so that the
      cache may hold whatever other requests have left there by then, `meanwhile`. */
  method CompleteRows(cache: LruTtlCache<Key, Option<Row>>, grids: string -> Grid, source: Source, missing: seq<Month>,
                      q: Request, meanwhile: RowSlots, filled: map<int, Option<Row>>,
                      ghost months: seq<Month>, ghost hits: set<int>)
    returns (r: Result<map<int, Option<Row>>, string>, ghost asked: bool)
    requires q.start < q.end && RangeIs(grids(q.tag), q, months)
    requires Truthful(grids, source, cache.entries) && Truthful(grids, source, meanwhile)
    requires Missing(grids(q.tag), grids(q.tag).unitOf(q.start), |months|, hits, missing)
    requires Answered(grids(q.tag), Hours(source, q), hits, filled)
    modifies cache
    ensures Truthful(grids, source, cache.entries)
    ensures r.Err? <==> |missing| == 1 && TouchesOneInstant(grids(q.tag), missing[0].key, q.start, q.end)
    ensures r.Ok? ==> RowsComplete(grids(q.tag), source, q, grids(q.tag).unitOf(q.start), |months|, r.value)
    ensures r.Ok? && |missing| <= cache.maxEntries ==>
              MonthsResident(cache.entries, missing, Keeps(q), KeyFor(q), q.now + cache.ttlMs)
    ensures asked <==> missing != []
  {
    asked := missing != [];
    if missing == [] {
      r := Ok(filled);
    } else {
      ghost var first := grids(q.tag).unitOf(q.start);
      SingleInstantSpan(grids(q.tag), q.start, q.end, first, |months|, hits, missing);
      cache.entries := meanwhile;
      r := FillRows(cache, grids, source, missing, q, filled, first, |months|, hits);
    }
  }

  method RowsFor(cache: LruTtlCache<Key, Option<Row>>, grids: string -> Grid, source: Source, months: seq<Month>,
                 q: Request, meanwhile: RowSlots)
    returns (r: Result<seq<Row>, string>, ghost asked: bool)
    requires q.start < q.end && RangeIs(grids(q.tag), q, months)
    requires Truthful(grids, source, cache.entries) && Truthful(grids, source, meanwhile)
    modifies cache
    ensures Truthful(grids, source, cache.entries)
    ensures r.Err? <==> LoneInstant(grids(q.tag), old(cache.entries), q)
    ensures r.Ok? ==> r.value == UncachedRows(grids(q.tag), source, q)
    ensures r.Ok? ==> WholeMonthsResident(grids(q.tag), old(cache.entries), cache.entries, q, cache.maxEntries,
                                          q.now + cache.ttlMs)
    ensures asked <==> SomeMiss(grids(q.tag), old(cache.entries), q)
  {
    var complete;
    complete, asked := ReadAndComplete(cache, grids, source, months, q, meanwhile);
    if complete.Err? { return Err(complete.error), asked; }
    AllLookedUp(grids(q.tag), source, months, q, complete.value);
    var log := ListRows(grids(q.tag), months, complete.value, Hours(source, q), grids(q.tag).unitOf(q.start));
    r := Ok(log);
  }

  lemma AllLookedUp(g: Grid, source: Source, months: seq<Month>, q: Request, rows: map<int, Option<Row>>)
    requires RangeIs(g, q, months) && RowsComplete(g, source, q, g.unitOf(q.start), |months|, rows)
    ensures forall m :: m in months ==> LookUp(rows, m.key) == RowOf(g, Hours(source, q), m.key)
  {
    forall m | m in months
      ensures LookUp(rows, m.key) == RowOf(g, Hours(source, q), m.key)
    {
      var i :| 0 <= i < |months| && months[i] == m;
      assert m.key == g.unitOf(q.start) + i;
    }
  }

  /** Some month of the range is not answered by the cache. */
  ghost predicate SomeMiss(g: Grid, slots: RowSlots, q: Request) {
    exists k :: InRange(g, q, k) && !Hit(slots, MonthOn(g, k), q)
  }

  /** Every whole month of the range that the cache did not answer is resident now, if the cache has room
      for the months of the range. */
  ghost predicate WholeMonthsResident(g: Grid, before: RowSlots, after: RowSlots, q: Request, max: nat, until: int) {
    g.unitOf(q.end) - g.unitOf(q.start) < max ==>
      forall k ::
        InRange(g, q, k) && !Hit(before, MonthOn(g, k), q) && Cacheable(MonthOn(g, k), q.start, q.end, q.now) ==>
          Resident(after, Key(k, q.tag), until)
  }

  lemma MissesAre(g: Grid, slots: RowSlots, q: Request, first: int, n: int, hits: set<int>, missing: seq<Month>)
    requires first == g.unitOf(q.start) && n == g.unitOf(q.end) - first + 1
    requires Missing(g, first, n, hits, missing) && HitsAre(g, slots, first, n, hits, q)
    ensures missing != [] <==> SomeMiss(g, slots, q)
    ensures forall k :: InRange(g, q, k) && !Hit(slots, MonthOn(g, k), q) ==> MonthOn(g, k) in missing
  {
    if missing != [] { assert InRange(g, q, missing[0].key) && !Hit(slots, MonthOn(g, missing[0].key), q); }
    forall k | InRange(g, q, k) && !Hit(slots, MonthOn(g, k), q)
      ensures MonthOn(g, k) in missing
    {
      assert k !in hits;
      var i :| 0 <= i < |missing| && missing[i].key == k;
      assert missing[i] == MonthOn(g, k);
    }
  }

  lemma MissesResident(g: Grid, before: RowSlots, after: RowSlots, q: Request, first: int, n: int, hits: set<int>,
                       missing: seq<Month>, max: nat, until: int)
    requires first == g.unitOf(q.start) && n == g.unitOf(q.end) - first + 1
    requires Missing(g, first, n, hits, missing) && HitsAre(g, before, first, n, hits, q)
    requires |missing| <= max ==> MonthsResident(after, missing, Keeps(q), KeyFor(q), until)
    ensures WholeMonthsResident(g, before, after, q, max, until)
  {
    MissesAre(g, before, q, first, n, hits, missing);
    if missing != [] { MissesSpread(g, first, n, hits, missing, |missing| - 1); }
    if g.unitOf(q.end) - g.unitOf(q.start) < max {
      forall k | InRange(g, q, k) && !Hit(before, MonthOn(g, k), q) &&
                 Cacheable(MonthOn(g, k), q.start, q.end, q.now)
        ensures Resident(after, Key(k, q.tag), until)
      {
        assert MonthOn(g, k) in missing && Keeps(q)(MonthOn(g, k));
        assert KeyFor(q)(k) == Key(k, q.tag);
      }
    }
  }

  method ReadAndComplete(cache: LruTtlCache<Key, Option<Row>>, grids: string -> Grid, source: Source,
                         months: seq<Month>, q: Request, meanwhile: RowSlots)
    returns (r: Result<map<int, Option<Row>>, string>, ghost asked: bool)
    requires q.start < q.end && RangeIs(grids(q.tag), q, months)
    requires Truthful(grids, source, cache.entries) && Truthful(grids, source, meanwhile)
    modifies cache
    ensures Truthful(grids, source, cache.entries)
    ensures r.Err? <==> LoneInstant(grids(q.tag), old(cache.entries), q)
    ensures r.Ok? ==> RowsComplete(grids(q.tag), source, q, grids(q.tag).unitOf(q.start), |months|, r.value)
    ensures r.Ok? ==> WholeMonthsResident(grids(q.tag), old(cache.entries), cache.entries, q, cache.maxEntries,
                                          q.now + cache.ttlMs)
    ensures asked <==> SomeMiss(grids(q.tag), old(cache.entries), q)
  {
    ghost var hits, first;
    first := grids(q.tag).unitOf(q.start);
    var rows, missing;
    rows, missing, hits := ReadMonths(cache, grids, source, months, q, first);
    OneMissing(grids(q.tag), old(cache.entries), q, first, |months|, hits, missing);
    r, asked := CompleteRows(cache, grids, source, missing, q, meanwhile, rows, months, hits);
    MissesAre(grids(q.tag), old(cache.entries), q, first, |months|, hits, missing);
    if r.Ok? {
      MissesResident(grids(q.tag), old(cache.entries), cache.entries, q, first, |months|, hits, missing,
                     cache.maxEntries, q.now + cache.ttlMs);
    }
  }

  // ---------- zones as grids ----------

  /** The months of the zones the tags stand for. */
  function GridsOf(zoneOf: string -> Zone): string -> Grid {
    tag => MonthGrid(zoneOf(tag))
  }

  lemma MonthIsLong(z: Zone, k: int)
    requires Regular(z) && UnitClear(z, OneMonth, k) && UnitClear(z, OneMonth, k + 1)
    ensures LocalMonthStartTs(z, k) + 1 < LocalMonthStartTs(z, k + 1)
  {
    LocalMonthStartTsResolves(z, k);
    LocalMonthStartTsResolves(z, k + 1);
    MonthLength(k);
    DayIsLong(z, MonthStartDay(k), MonthStartDay(k + 1));
  }

  lemma RangeFound(z: Zone, q: Request, months: seq<Month>)
    requires q.start < q.end && MonthsClear(z, q.start, q.end) && MonthsUpTo(MonthGrid(z), q.start, q.end, months)
    ensures RangeIs(MonthGrid(z), q, months)
  {
    ClearRange(z, q.start, q.end);
    RangeInOrder(MonthGrid(z), q.start, q.end);
    RangeMonths(MonthGrid(z), q.start, q.end, months);
    MonthsAreLong(z, LocalMonth(z, q.start), LocalMonth(z, q.end));
  }

  lemma MonthsAreLong(z: Zone, first: int, last: int)
    requires UnitsClear(z, OneMonth, first, last + 1)
    ensures LongMonths(MonthGrid(z), first, last)
  {
    forall k | first <= k <= last
      ensures MonthGrid(z).unitStart(k) + 1 < MonthGrid(z).unitStart(k + 1)
    {
      assert UnitClear(z, OneMonth, k) && UnitClear(z, OneMonth, k + 1);
      MonthIsLong(z, k);
    }
  }

  /** Whatever requests in whatever zones the cache has served, cached nulls and stretched spans
      included, the answer is the uncached rollup of the range. It is refused exactly when the range is
      empty, or when the cache answers every month but one edge month that the request touches in a
      single instant. Only the first midnights of the months touched, and of the next one, need be clear.
      Other requests may have left any truthful slots, `meanwhile`, while the handler was awaited. */
  method GetMonthlyHashrate(cache: LruTtlCache<Key, Option<Row>>, zoneOf: string -> Zone, source: Source, q: Request,
                            meanwhile: RowSlots)
    returns (r: Result<seq<Row>, string>, ghost asked: bool)
    requires q.start < q.end ==> MonthsClear(zoneOf(q.tag), q.start, q.end)
    requires Truthful(GridsOf(zoneOf), source, cache.entries) && Truthful(GridsOf(zoneOf), source, meanwhile)
    modifies cache
    ensures Truthful(GridsOf(zoneOf), source, cache.entries)
    ensures r.Err? <==> q.start >= q.end || LoneInstant(MonthGrid(zoneOf(q.tag)), old(cache.entries), q)
    ensures r.Ok? ==> r.value == UncachedRows(MonthGrid(zoneOf(q.tag)), source, q)
    ensures r.Ok? ==> WholeMonthsResident(MonthGrid(zoneOf(q.tag)), old(cache.entries), cache.entries, q,
                                          cache.maxEntries, q.now + cache.ttlMs)
    ensures asked <==> q.start < q.end && SomeMiss(MonthGrid(zoneOf(q.tag)), old(cache.entries), q)
  {
    if q.start >= q.end { return Err(INVALID_RANGE), false; }
    var months := LocalMonthsInRange(q.start, q.end, zoneOf(q.tag));
    RangeFound(zoneOf(q.tag), q, months);
    r, asked := RowsFor(cache, GridsOf(zoneOf), source, months, q, meanwhile);
  }

  // ---------- refused warm, answered cold ----------

  function AllUtc(): string -> Zone {
    tag => Utc
  }

  /** January 1970 and the first instant of February, asked for in April. */
  function JanuaryAndAnInstant(): Request {
    Request(0, 31 * DAY_MS, "z", false, 100 * DAY_MS)
  }

  /** What the cache holds once January 1970 has been asked for. */
  function JanuaryCached(source: Source): RowSlots {
    [Slot(Key(12 * 1970, "z"), RowOf(MonthGrid(Utc), source("z"), 12 * 1970), 200 * DAY_MS)]
  }

  lemma UtcIsClear(d: int)
    ensures Regular(Utc) && ClearDay(Utc, d)
  {
  }

  lemma UtcMonth(t: int, mi: int)
    requires MonthStartDay(mi) * DAY_MS <= t < MonthStartDay(mi + 1) * DAY_MS
    ensures LocalMonth(Utc, t) == mi
  {
    MonthSplit(LocalDay(Utc, t), mi);
    MonthSplit(LocalDay(Utc, t), mi + 1);
  }

  lemma FirstMonthDays(k: int)
    requires k == 12 * 1970
    ensures MonthStartDay(k) == 0 && MonthStartDay(k + 1) == 31 && MonthStartDay(k + 2) == 59
  {
    EpochMonth();
    MonthAfter(k, 1970, 0);
    MonthAfter(k + 1, 1970, 1);
  }

  lemma MonthAfter(mi: int, year: int, month0: int)
    requires 0 <= month0 < 12 && mi == 12 * year + month0
    ensures MonthStartDay(mi + 1) == MonthStartDay(mi) + DaysInMonth(year, month0)
  {
    MonthLength(mi);
    assert mi / 12 == year && mi % 12 == month0;
  }

  lemma UtcMonthsClear(start: int, end: int)
    ensures MonthsClear(Utc, start, end)
  {
    UtcIsClear(0);
    forall mi | LocalMonth(Utc, start) <= mi <= LocalMonth(Utc, end) + 1
      ensures UnitClear(Utc, OneMonth, mi)
    {
      UtcIsClear(MonthStartDay(mi));
    }
  }

  /** A month and the first instant of the next: with the month cached the request touches its one miss in
      a single instant, with nothing cached there are two misses. */
  lemma LoneWhenCached(g: Grid, slots: RowSlots, q: Request, k: int)
    requires g.unitOf(q.start) == k && g.unitOf(q.end) == k + 1 && !q.refresh
    requires g.unitStart(k) == q.start && g.unitStart(k + 1) == q.end && q.end <= q.now && q.start + 1 < q.end
    requires GetValue(slots, Key(k, q.tag), q.now).Some? && g.unitStart(k + 2) > q.end + 1
    ensures LoneInstant(g, slots, q) && !LoneInstant(g, [], q)
  {
    assert Hit(slots, MonthOn(g, k), q) && !Hit(slots, MonthOn(g, k + 1), q);
    assert InRange(g, q, k + 1) && TouchesOneInstant(g, k + 1, q.start, q.end) && OnlyMiss(g, slots, q, k + 1);
    assert InRange(g, q, k) && !Hit([], MonthOn(g, k), q) && !Hit([], MonthOn(g, k + 1), q);
  }

  /** One request, clear months, a truthful cache: the warm cache has it refused, the empty one answers. */
  lemma RefusedWarmAnsweredCold(source: Source)
    ensures var z, q := AllUtc()("z"), JanuaryAndAnInstant();
            MonthsClear(z, q.start, q.end) &&
            Truthful(GridsOf(AllUtc()), source, JanuaryCached(source)) && Truthful(GridsOf(AllUtc()), source, []) &&
            LoneInstant(MonthGrid(z), JanuaryCached(source), q) && !LoneInstant(MonthGrid(z), [], q)
  {
    UtcMonthsClear(0, 31 * DAY_MS);
    JanuaryGrid(12 * 1970);
    assert GridsOf(AllUtc())("z") == MonthGrid(Utc);
    LoneWhenCached(MonthGrid(Utc), JanuaryCached(source), JanuaryAndAnInstant(), 12 * 1970);
  }

  lemma JanuaryGrid(k: int)
    requires k == 12 * 1970
    ensures var g := MonthGrid(Utc);
            g.unitStart(k) == 0 && g.unitStart(k + 1) == 31 * DAY_MS && g.unitStart(k + 2) == 59 * DAY_MS &&
            g.unitOf(0) == k && g.unitOf(31 * DAY_MS) == k + 1
  {
    FirstMonthDays(k);
    UtcMonth(0, k);
    UtcMonth(31 * DAY_MS, k + 1);
  }
}
