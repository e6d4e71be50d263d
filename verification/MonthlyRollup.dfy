/** workers/lib/metrics.utils.js: the rollup of one period's hourly entries into an invoicing row. */
module MonthlyRollup {
  import opened Wrappers
  import opened Seqs
  import opened Grouping
  import opened LocalBuckets
  import opened HourlySource

  /** Each field is None where the entry carries no finite number. */
  datatype Hash = Hash(hashrateMhs: Option<real>, nominalMhs: Option<real>, poolMhs: Option<real>)

  datatype Row = Row(ts: int, hashrateMhs: Option<real>, nominalMhs: Option<real>, poolMhs: Option<real>,
                     pctOfNominal: Option<real>, poolSeconds: nat, reportedHours: nat)

  function FiniteValues(entries: seq<Entry<Hash>>, field: Hash -> Option<real>): seq<real> {
    if entries == [] then []
    else
      var v := field(entries[|entries| - 1].data);
      FiniteValues(entries[..|entries| - 1], field) + (if v.Some? then [v.value] else [])
  }

  function MeanOf(values: seq<real>): Option<real> {
    if values == [] then None else Some(Mean(values))
  }

  /** Pool and nominal of the hours that carry both, hour by hour. */
  function Paired(): Entry<Hash> -> bool {
    (e: Entry<Hash>) => e.data.poolMhs.Some? && e.data.nominalMhs.Some? && e.data.nominalMhs.value > 0.0
  }

  function PoolPctOfNominal(entries: seq<Entry<Hash>>): Option<real> {
    var pairs := Filter(entries, Paired());
    NominalPositive(entries);
    if pairs == [] then None
    else Some(Sum(FiniteValues(pairs, Pool())) / Sum(FiniteValues(pairs, Nominal())) * 100.0)
  }

  function Pool(): Hash -> Option<real> {
    (h: Hash) => h.poolMhs
  }

  function Nominal(): Hash -> Option<real> {
    (h: Hash) => h.nominalMhs
  }

  lemma {:induction false} NominalPositive(entries: seq<Entry<Hash>>)
    ensures var pairs := Filter(entries, Paired());
            Sum(FiniteValues(pairs, Nominal())) >= 0.0 &&
            (pairs != [] ==> Sum(FiniteValues(pairs, Nominal())) > 0.0)
  {
    if entries != [] {
      var front, last := entries[..|entries| - 1], entries[|entries| - 1];
      NominalPositive(front);
      var kept := Filter(front, Paired());
      if Paired()(last) {
        assert (kept + [last])[..|kept|] == kept;
        var values := FiniteValues(kept, Nominal());
        assert (values + [last.data.nominalMhs.value])[..|values|] == values;
      } else {
        assert Filter(entries, Paired()) == kept;
      }
    }
  }

  function RollupPeriod(entries: seq<Entry<Hash>>): Row
    requires entries != [] && entries[0].ts.Some?
  {
    var pool := FiniteValues(entries, Pool());
    Row(entries[0].ts.value,
        MeanOf(FiniteValues(entries, (h: Hash) => h.hashrateMhs)),
        MeanOf(FiniteValues(entries, Nominal())),
        MeanOf(pool),
        PoolPctOfNominal(entries),
        |pool| * 3600,
        |entries|)
  }

  lemma {:induction false} FirstKept<T>(log: seq<T>, p: T -> bool)
    ensures Filter(log, p) != [] ==> p(Filter(log, p)[0])
  {
    if log != [] { FirstKept(log[..|log| - 1], p); }
  }

  lemma MonthLogDated<T>(g: Grid, log: seq<Entry<T>>, month: int)
    ensures var entries := MonthLog(g, log, month);
            entries != [] ==> entries[0].ts.Some? && g.unitOf(entries[0].ts.value) == month
  {
    FirstKept(log, InBucket<T>(g.unitOf, month));
  }

  /** The row a log gives a month; None when the month has no entry. */
  function RowOf(g: Grid, log: seq<Entry<Hash>>, month: int): Option<Row> {
    MonthLogDated(g, log, month);
    var entries := MonthLog(g, log, month);
    if entries == [] then None else Some(RollupPeriod(entries))
  }

  function LogRows(g: Grid, log: seq<Entry<Hash>>): int -> Option<Row> {
    k => RowOf(g, log, k)
  }

  function Listed(row: Option<Row>): seq<Row> {
    if row.Some? then [row.value] else []
  }

  /** The rows there are of `n` months, month by month. */
  function Rows(rowOf: int -> Option<Row>, first: int, n: nat): seq<Row> {
    if n == 0 then [] else Rows(rowOf, first, n - 1) + Listed(rowOf(first + n - 1))
  }

  lemma RowsSnoc(rowOf: int -> Option<Row>, first: int, n: nat)
    ensures Rows(rowOf, first, n + 1) == Rows(rowOf, first, n) + Listed(rowOf(first + n))
  {
  }

  /** The uncached answer: the rows of n months in order, months without entries left out. */
  function MonthRows(g: Grid, log: seq<Entry<Hash>>, first: int, n: nat): seq<Row> {
    Rows(LogRows(g, log), first, n)
  }

  // ---------- what a row says of its entries ----------

  /** How an hour is read for one of the three series. */
  type Reading = Entry<Hash> -> Option<real>

  function Carried(reading: Reading): Entry<Hash> -> bool {
    (e: Entry<Hash>) => reading(e).Some?
  }

  function Amount(reading: Reading): Entry<Hash> -> real {
    (e: Entry<Hash>) => if reading(e).Some? then reading(e).value else 0.0
  }

  /** The mean over the hours that carry the series, and nothing if none does. */
  ghost predicate MeansHours(entries: seq<Entry<Hash>>, reading: Reading, r: Option<real>) {
    var of := Filter(entries, Carried(reading));
    (r.Some? <==> of != []) && (r.Some? ==> IsMean(r.value, of, Amount(reading)))
  }

  /** 100 times the pool sum of the hours paired, over their nominal sum, and nothing if there are none. */
  ghost predicate Shares(pairs: seq<Entry<Hash>>, pool: Reading, nominal: Reading, r: Option<real>) {
    && (r.Some? <==> pairs != [])
    && (r.Some? ==> SumOf(pairs, Amount(nominal)) > 0.0 &&
                    r.value * SumOf(pairs, Amount(nominal)) == 100.0 * SumOf(pairs, Amount(pool)))
  }

  lemma {:induction false} FiniteValuesAre(entries: seq<Entry<Hash>>, field: Hash -> Option<real>, reading: Reading)
    requires forall e :: e in entries ==> reading(e) == field(e.data)
    ensures |FiniteValues(entries, field)| == |Filter(entries, Carried(reading))|
    ensures Sum(FiniteValues(entries, field)) == SumOf(Filter(entries, Carried(reading)), Amount(reading))
  {
    if entries != [] {
      var front, last := entries[..|entries| - 1], entries[|entries| - 1];
      assert last in entries;
      FiniteValuesAre(front, field, reading);
      var values, kept := FiniteValues(front, field), Filter(front, Carried(reading));
      if reading(last).Some? {
        assert (values + [reading(last).value])[..|values|] == values;
        SumOfSnoc(kept, last, Amount(reading));
      } else {
        assert FiniteValues(entries, field) == values && Filter(entries, Carried(reading)) == kept;
      }
    }
  }

  lemma FieldMeansHours(entries: seq<Entry<Hash>>, field: Hash -> Option<real>, reading: Reading)
    requires forall e :: e in entries ==> reading(e) == field(e.data)
    ensures MeansHours(entries, reading, MeanOf(FiniteValues(entries, field)))
  {
    FiniteValuesAre(entries, field, reading);
    if FiniteValues(entries, field) != [] { MeanTimesCount(FiniteValues(entries, field)); }
  }

  lemma Quotient(a: real, b: real)
    requires b != 0.0
    ensures a / b * 100.0 * b == 100.0 * a
  {
  }

  lemma PairedSums(entries: seq<Entry<Hash>>, pool: Reading, nominal: Reading)
    requires forall e: Entry<Hash> :: pool(e) == e.data.poolMhs && nominal(e) == e.data.nominalMhs
    ensures var pairs := Filter(entries, Paired());
            Sum(FiniteValues(pairs, Pool())) == SumOf(pairs, Amount(pool)) &&
            Sum(FiniteValues(pairs, Nominal())) == SumOf(pairs, Amount(nominal))
  {
    PairsCarry(entries, pool);
    PairsCarry(entries, nominal);
    FiniteValuesAre(Filter(entries, Paired()), Pool(), pool);
    FiniteValuesAre(Filter(entries, Paired()), Nominal(), nominal);
  }

  lemma PctShares(entries: seq<Entry<Hash>>, pool: Reading, nominal: Reading)
    requires var pairs := Filter(entries, Paired());
             Sum(FiniteValues(pairs, Pool())) == SumOf(pairs, Amount(pool)) &&
             Sum(FiniteValues(pairs, Nominal())) == SumOf(pairs, Amount(nominal))
    ensures Shares(Filter(entries, Paired()), pool, nominal, PoolPctOfNominal(entries))
  {
    var pairs := Filter(entries, Paired());
    NominalPositive(entries);
    if pairs != [] { Quotient(SumOf(pairs, Amount(pool)), SumOf(pairs, Amount(nominal))); }
  }

  lemma PairsCarry(entries: seq<Entry<Hash>>, reading: Reading)
    requires forall e :: Paired()(e) ==> reading(e).Some?
    ensures Filter(Filter(entries, Paired()), Carried(reading)) == Filter(entries, Paired())
  {
    FilterBoth(entries, Paired(), Carried(reading));
    FilterAgree(entries, Both(Paired(), Carried(reading)), Paired());
  }

  lemma RowTells(entries: seq<Entry<Hash>>, hashrate: Reading, nominal: Reading, pool: Reading)
    requires entries != [] && entries[0].ts.Some?
    requires forall e: Entry<Hash> :: hashrate(e) == e.data.hashrateMhs
    requires forall e: Entry<Hash> :: pool(e) == e.data.poolMhs && nominal(e) == e.data.nominalMhs
    ensures var row := RollupPeriod(entries);
            row.reportedHours == |entries| && row.poolSeconds == 3600 * |Filter(entries, Carried(pool))| &&
            MeansHours(entries, hashrate, row.hashrateMhs) && MeansHours(entries, nominal, row.nominalMhs) &&
            MeansHours(entries, pool, row.poolMhs) &&
            Shares(Filter(entries, Paired()), pool, nominal, row.pctOfNominal)
  {
    FieldMeansHours(entries, (h: Hash) => h.hashrateMhs, hashrate);
    FieldMeansHours(entries, Nominal(), nominal);
    FieldMeansHours(entries, Pool(), pool);
    FiniteValuesAre(entries, Pool(), pool);
    PairedSums(entries, pool, nominal);
    PctShares(entries, pool, nominal);
  }

  /** What the row of a month says of the hours in it, whoever reads their hashrate, nominal and pool and
      tells the hours of the month and the paired ones. */
  lemma MonthRowTells(g: Grid, log: seq<Entry<Hash>>, month: int, inMonth: Entry<Hash> -> bool,
                      hashrate: Reading, nominal: Reading, pool: Reading, paired: Entry<Hash> -> bool)
    requires forall e: Entry<Hash> :: inMonth(e) <==> e.ts.Some? && g.unitOf(e.ts.value) == month
    requires forall e: Entry<Hash> :: hashrate(e) == e.data.hashrateMhs
    requires forall e: Entry<Hash> :: pool(e) == e.data.poolMhs && nominal(e) == e.data.nominalMhs
    requires forall e :: paired(e) <==> pool(e).Some? && nominal(e).Some? && nominal(e).value > 0.0
    ensures RowOf(g, log, month).Some? <==> Filter(log, inMonth) != []
    ensures RowOf(g, log, month).Some? ==>
              var row, hours := RowOf(g, log, month).value, Filter(log, inMonth);
              Some(row.ts) == hours[0].ts && row.reportedHours == |hours| &&
              row.poolSeconds == 3600 * |Filter(hours, Carried(pool))| &&
              MeansHours(hours, hashrate, row.hashrateMhs) && MeansHours(hours, nominal, row.nominalMhs) &&
              MeansHours(hours, pool, row.poolMhs) && Shares(Filter(hours, paired), pool, nominal, row.pctOfNominal)
  {
    var hours := Filter(log, inMonth);
    FilterAgree(log, inMonth, InBucket(g.unitOf, month));
    MonthLogDated(g, log, month);
    FilterAgree(hours, paired, Paired());
    if hours != [] { RowTells(hours, hashrate, nominal, pool); }
  }

  // ---------- the list of rows ----------

  lemma RowKept(g: Grid, log: seq<Entry<Hash>>, month: int)
    ensures var row := RowOf(g, log, month); row.Some? ==> g.unitOf(row.value.ts) == month
  {
    MonthLogDated(g, log, month);
  }

  /** A row that knows its month. */
  ghost predicate Placed(unitOf: int -> int, row: Option<Row>, month: int) {
    row.Some? ==> unitOf(row.value.ts) == month
  }

  lemma {:induction false} RowAt(unitOf: int -> int, rowOf: int -> Option<Row>, first: int, n: nat, i: nat)
    requires i < |Rows(rowOf, first, n)| && forall k :: Placed(unitOf, rowOf(k), k)
    ensures var row := Rows(rowOf, first, n)[i];
            first <= unitOf(row.ts) < first + n && rowOf(unitOf(row.ts)) == Some(row)
  {
    if i < |Rows(rowOf, first, n - 1)| {
      RowAt(unitOf, rowOf, first, n - 1, i);
    } else {
      assert Placed(unitOf, rowOf(first + n - 1), first + n - 1);
    }
  }

  lemma {:induction false} RowsAscend(unitOf: int -> int, rowOf: int -> Option<Row>, first: int, n: nat, i: nat, j: nat)
    requires i < j < |Rows(rowOf, first, n)| && forall k :: Placed(unitOf, rowOf(k), k)
    ensures unitOf(Rows(rowOf, first, n)[i].ts) < unitOf(Rows(rowOf, first, n)[j].ts)
  {
    if j < |Rows(rowOf, first, n - 1)| {
      RowsAscend(unitOf, rowOf, first, n - 1, i, j);
    } else {
      RowAt(unitOf, rowOf, first, n - 1, i);
      assert Placed(unitOf, rowOf(first + n - 1), first + n - 1);
    }
  }

  lemma {:induction false} RowListed(rowOf: int -> Option<Row>, first: int, n: nat, k: int)
    requires first <= k < first + n && rowOf(k).Some?
    ensures rowOf(k).value in Rows(rowOf, first, n)
  {
    if k < first + n - 1 { RowListed(rowOf, first, n - 1, k); }
  }

  /** `rows` are in the order of their months, one for each of the `n` months that has a row, and nothing
      else. */
  ghost predicate Tabulates(unitOf: int -> int, rowOf: int -> Option<Row>, first: int, n: nat, rows: seq<Row>) {
    && (forall row :: row in rows ==> first <= unitOf(row.ts) < first + n && rowOf(unitOf(row.ts)) == Some(row))
    && (forall k :: first <= k < first + n && rowOf(k).Some? ==> rowOf(k).value in rows)
    && (forall i, j :: 0 <= i < j < |rows| ==> unitOf(rows[i].ts) < unitOf(rows[j].ts))
  }

  lemma RowsTabulate(unitOf: int -> int, rowOf: int -> Option<Row>, first: int, n: nat)
    requires forall k :: Placed(unitOf, rowOf(k), k)
    ensures Tabulates(unitOf, rowOf, first, n, Rows(rowOf, first, n))
  {
    var rows := Rows(rowOf, first, n);
    forall row | row in rows
      ensures first <= unitOf(row.ts) < first + n && rowOf(unitOf(row.ts)) == Some(row)
    {
      var i :| 0 <= i < |rows| && rows[i] == row;
      RowAt(unitOf, rowOf, first, n, i);
    }
    forall k | first <= k < first + n && rowOf(k).Some?
      ensures rowOf(k).value in rows
    {
      RowListed(rowOf, first, n, k);
    }
    forall i, j | 0 <= i < j < |rows|
      ensures unitOf(rows[i].ts) < unitOf(rows[j].ts)
    {
      RowsAscend(unitOf, rowOf, first, n, i, j);
    }
  }

  lemma MonthRowsAre(g: Grid, log: seq<Entry<Hash>>, first: int, n: nat)
    ensures Tabulates(g.unitOf, LogRows(g, log), first, n, MonthRows(g, log, first, n))
  {
    forall k
      ensures Placed(g.unitOf, LogRows(g, log)(k), k)
    {
      RowKept(g, log, k);
    }
    RowsTabulate(g.unitOf, LogRows(g, log), first, n);
  }

  /** `r` is `rows` with the months of `keys` given their row. */
  ghost predicate Overlaid(rowOf: int -> Option<Row>, rows: map<int, Option<Row>>, keys: seq<int>,
                           r: map<int, Option<Row>>) {
    && (forall k :: k in r <==> k in rows || k in keys)
    && (forall k :: k in r ==> r[k] == if k in keys then rowOf(k) else rows[k])
  }

  lemma OverlayOne(rowOf: int -> Option<Row>, rows: map<int, Option<Row>>, keys: seq<int>, i: nat,
                   r: map<int, Option<Row>>)
    requires i < |keys| && Overlaid(rowOf, rows, keys[..i], r)
    ensures Overlaid(rowOf, rows, keys[..i + 1], r[keys[i] := rowOf(keys[i])])
  {
    assert keys[..i + 1] == keys[..i] + [keys[i]];
  }

  /** The months a log has entries for are its keys. */
  lemma KeyHasRow(g: Grid, log: seq<Entry<Hash>>, keys: seq<int>, byMonth: map<int, seq<Entry<Hash>>>, key: int)
    requires Collected(g.unitOf, log, keys, byMonth)
    ensures key in keys <==> RowOf(g, log, key).Some?
    ensures key in keys ==> key in byMonth && byMonth[key] != [] && byMonth[key][0].ts.Some? &&
                            g.unitOf(byMonth[key][0].ts.value) == key &&
                            RowOf(g, log, key) == Some(RollupPeriod(byMonth[key]))
  {
    MonthLogDated(g, log, key);
    if key in keys {
      var e := KeyIsMet(g.unitOf, log, key);
      FilterMember(log, InBucket(g.unitOf, key), e);
    }
  }

  method OverlayRows(g: Grid, ghost log: seq<Entry<Hash>>, keys: seq<int>, byMonth: map<int, seq<Entry<Hash>>>,
                     rows: map<int, Option<Row>>)
    returns (r: map<int, Option<Row>>)
    requires Collected(g.unitOf, log, keys, byMonth)
    ensures Overlaid(LogRows(g, log), rows, keys, r)
  {
    r := rows;
    for i := 0 to |keys|
      invariant Overlaid(LogRows(g, log), rows, keys[..i], r)
    {
      OverlayOne(LogRows(g, log), rows, keys, i, r);
      var row := RowOfMonth(g, log, keys, byMonth, i);
      r := r[g.unitOf(row.ts) := Some(row)];
    }
    assert keys[..|keys|] == keys;
  }

  /** The rollup of the i-th month's entries. */
  method RowOfMonth(g: Grid, ghost log: seq<Entry<Hash>>, keys: seq<int>, byMonth: map<int, seq<Entry<Hash>>>, i: nat)
    returns (row: Row)
    requires Collected(g.unitOf, log, keys, byMonth) && i < |keys|
    ensures g.unitOf(row.ts) == keys[i] && LogRows(g, log)(keys[i]) == Some(row)
  {
    assert keys[i] in keys;
    KeyHasRow(g, log, keys, byMonth, keys[i]);
    row := RollupPeriod(byMonth[keys[i]]);
  }

  /** Sets the row of every month the log touches, under the month of the row's own ts. */
  method RollupInto(g: Grid, log: seq<Entry<Hash>>, rows: map<int, Option<Row>>) returns (r: map<int, Option<Row>>)
    ensures forall k :: k in r <==> k in rows || RowOf(g, log, k).Some?
    ensures forall k :: k in r ==> r[k] == if RowOf(g, log, k).Some? then RowOf(g, log, k) else rows[k]
  {
    var keys, byMonth := CollectBuckets(log, g.unitOf);
    r := OverlayRows(g, log, keys, byMonth, rows);
    forall k ensures k in keys <==> RowOf(g, log, k).Some? {
      KeyHasRow(g, log, keys, byMonth, k);
    }
  }
}
