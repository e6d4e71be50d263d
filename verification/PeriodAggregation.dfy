/** workers/lib/period.utils.js: rolling a log up into weeks, months or years of a zone. */
module PeriodAggregation {
  import opened Wrappers
  import opened Seqs
  import opened StableSort
  import opened Calendar
  import opened LocalTime
  import opened Grouping
  import opened LocalBuckets

  /** `Other` is any period the code does not name: entries group by their own instant. */
  datatype Period = Daily | Weekly | Monthly | Yearly | Other

  /** A field's value. `parsed` is what Number() makes of a text, None for NaN. */
  datatype Value = Num(n: real) | Null | Text(text: string, parsed: Option<real>)

  type Row = Entry<map<string, Value>>

  /** `labels` are the keys that are never added up, `means` those that are averaged. */
  datatype Config = Config(labels: set<string>, means: set<string>)

  const NON_METRIC_KEYS: set<string> := {"ts", "site", "year", "monthName", "month", "period"}

  const MONTH_NAMES: seq<string> :=
    ["January", "February", "March", "April", "May", "June",
     "July", "August", "September", "October", "November", "December"]

  predicate Truthy(v: Value) {
    match v
    case Num(n) => n != 0.0
    case Null => false
    case Text(t, _) => t != ""
  }

  function AsNumber(v: Value): Option<real> {
    match v
    case Num(n) => Some(n)
    case Null => None
    case Text(_, parsed) => parsed
  }

  function OrZero(v: Value): real {
    if AsNumber(v).Some? then AsNumber(v).value else 0.0
  }

  function Lookup<V>(m: map<string, V>, k: string): Option<V> {
    if k in m then Some(m[k]) else None
  }

  // ---------- what one row must hold ----------

  /** The values of a field over the entries that have it. */
  function Values(es: seq<Row>, k: string): seq<Value> {
    if es == [] then []
    else Values(es[..|es| - 1], k) + (if k in es[|es| - 1].data then [es[|es| - 1].data[k]] else [])
  }

  function Total(vals: seq<Value>): real {
    SumOf(vals, OrZero)
  }

  function Numeric(): Value -> bool {
    v => AsNumber(v).Some?
  }

  function CountNumbers(vals: seq<Value>): nat {
    |Filter(vals, Numeric())|
  }

  /** The first truthy value, or the last one when none is. */
  function LabelOf(vals: seq<Value>): Value
    requires vals != []
  {
    var truthy := Filter(vals, Truthy);
    if truthy != [] then truthy[0] else vals[|vals| - 1]
  }

  /** A field of a rolled-up row: the mean of its numbers, a label, or the sum. */
  function Summary(cfg: Config, k: string, vals: seq<Value>): Option<Value> {
    if k in cfg.means then
      var n := CountNumbers(vals);
      Some(if k in cfg.labels || n == 0 then Null else Num(Total(vals) / n as real))
    else if vals == [] then None
    else Some(if k in cfg.labels then LabelOf(vals) else Num(Total(vals)))
  }

  function KeyOf(z: Zone, p: Period): int -> int {
    match p
    case Monthly => t => LocalMonth(z, t)
    case Yearly => t => LocalMonth(z, t) / 12
    case Weekly => t => LocalWeekStart(z, t)
    case _ => t => t
  }

  function StampOf(z: Zone, p: Period, key: int): int {
    match p
    case Monthly => LocalMonthStartTs(z, key)
    case Yearly => LocalMonthStartTs(z, 12 * key)
    case _ => key
  }

  /** The name of the month the stamp reads in the zone, which need not be the month of the key. */
  function StampedName(z: Zone, mi: int): string {
    MONTH_NAMES[LocalMonth(z, LocalMonthStartTs(z, mi)) % 12]
  }

  /** The calendar fields written over a row of a month or a year. */
  function Calendars(z: Zone, p: Period, key: int): map<string, Value> {
    match p
    case Monthly =>
      map["month" := Num((key % 12 + 1) as real), "year" := Num((key / 12) as real),
          "monthName" := Text(StampedName(z, key), None)]
    case Yearly => map["year" := Num(key as real)]
    case _ => map[]
  }

  function FieldOf(z: Zone, cfg: Config, p: Period, key: int, k: string, vals: seq<Value>): Option<Value> {
    if k in Calendars(z, p, key) then Some(Calendars(z, p, key)[k]) else Summary(cfg, k, vals)
  }

  function GroupOf(z: Zone, p: Period, log: seq<Row>, key: int): seq<Row> {
    Filter(log, InBucket(KeyOf(z, p), key))
  }

  ghost predicate RowIs(z: Zone, p: Period, cfg: Config, log: seq<Row>, key: int, row: Row) {
    && row.ts == Some(StampOf(z, p, key))
    && forall k :: Lookup(row.data, k) == FieldOf(z, cfg, p, key, k, Values(GroupOf(z, p, log, key), k))
  }

  ghost predicate RowsAre(z: Zone, p: Period, cfg: Config, log: seq<Row>, keys: seq<int>, rows: seq<Row>) {
    |rows| == |keys| && forall i :: 0 <= i < |rows| ==> RowIs(z, p, cfg, log, keys[i], rows[i])
  }

  function Instant(e: Row): int {
    if e.ts.Some? then e.ts.value else 0
  }

  function NewestFirst(): (Row, Row) -> bool {
    (a, b) => Instant(b) - Instant(a) <= 0
  }

  /** One row per period met in the log, newest first. */
  ghost predicate Aggregated(z: Zone, p: Period, cfg: Config, log: seq<Row>, rows: seq<Row>, r: seq<Row>) {
    RowsAre(z, p, cfg, log, KeysOf(KeyOf(z, p), log), rows) && r == Sort(rows, NewestFirst())
  }

  // ---------- the accumulation ----------

  /** What `aggregated[k]` and `meanCounts[k]` hold after the values `vals` of field `k`. */
  ghost predicate Folded(cfg: Config, k: string, vals: seq<Value>, a: Option<Value>, c: nat) {
    if k in cfg.labels then
      c == 0 && a == if vals == [] then None else Some(LabelOf(vals))
    else if k in cfg.means then
      c == CountNumbers(vals) && a == if c == 0 then None else Some(Num(Total(vals)))
    else
      c == 0 && a == if vals == [] then None else Some(Num(Total(vals)))
  }

  function CountAt(counts: map<string, nat>, k: string): nat {
    if k in counts then counts[k] else 0
  }

  function AmountAt(acc: map<string, Value>, k: string): real {
    if k in acc then OrZero(acc[k]) else 0.0
  }

  lemma NoNumbersNoTotal(vals: seq<Value>)
    requires CountNumbers(vals) == 0
    ensures Total(vals) == 0.0
  {
    forall v | v in vals
      ensures OrZero(v) == 0.0
    {
      FilterMember(vals, Numeric(), v);
    }
    SumOfZero(vals, OrZero);
  }

  lemma OneMore(vals: seq<Value>, v: Value)
    ensures Total(vals + [v]) == Total(vals) + OrZero(v)
    ensures CountNumbers(vals + [v]) == CountNumbers(vals) + if AsNumber(v).Some? then 1 else 0
    ensures vals != [] ==> LabelOf(vals + [v]) == if Truthy(LabelOf(vals)) then LabelOf(vals) else v
    ensures LabelOf([v]) == v
  {
    assert (vals + [v])[..|vals|] == vals;
    FilterOne(v, Truthy);
    if vals != [] {
      FilterConcat(vals, [v], Truthy);
      LabelTruth(vals);
    }
  }

  lemma LabelTruth(vals: seq<Value>)
    requires vals != []
    ensures Truthy(LabelOf(vals)) <==> Filter(vals, Truthy) != []
  {
    var truthy := Filter(vals, Truthy);
    if truthy != [] {
      FilterMember(vals, Truthy, truthy[0]);
    } else {
      FilterMember(vals, Truthy, vals[|vals| - 1]);
    }
  }

  method AddField(cfg: Config, acc: map<string, Value>, counts: map<string, nat>, key: string, val: Value,
                  ghost vals: seq<Value>)
    returns (acc': map<string, Value>, counts': map<string, nat>)
    requires Folded(cfg, key, vals, Lookup(acc, key), CountAt(counts, key))
    ensures Folded(cfg, key, vals + [val], Lookup(acc', key), CountAt(counts', key))
    ensures OthersKept(key, acc, counts, acc', counts')
  {
    acc', counts' := acc, counts;
    OneMore(vals, val);
    if key in cfg.labels {
      if key !in acc || !Truthy(acc[key]) {
        acc' := acc[key := val];
      }
    } else if key in cfg.means {
      if AsNumber(val).Some? {
        acc' := acc[key := Num(AmountAt(acc, key) + AsNumber(val).value)];
        counts' := counts[key := CountAt(counts, key) + 1];
        if CountNumbers(vals) == 0 { NoNumbersNoTotal(vals); }
      }
    } else {
      acc' := acc[key := Num(AmountAt(acc, key) + OrZero(val))];
    }
  }

  ghost predicate AllFolded(cfg: Config, es: seq<Row>, acc: map<string, Value>, counts: map<string, nat>) {
    forall k :: Folded(cfg, k, Values(es, k), Lookup(acc, k), CountAt(counts, k))
  }

  /** The values of field `k` once the fields of `e` outside `rest` are in. */
  function SoFar(es: seq<Row>, e: Row, rest: set<string>, k: string): seq<Value> {
    Values(es, k) + if k in e.data && k !in rest then [e.data[k]] else []
  }

  ghost predicate PartlyFolded(cfg: Config, es: seq<Row>, e: Row, rest: set<string>, acc: map<string, Value>,
                               counts: map<string, nat>) {
    forall k :: Folded(cfg, k, SoFar(es, e, rest, k), Lookup(acc, k), CountAt(counts, k))
  }

  ghost predicate OthersKept(key: string, acc: map<string, Value>, counts: map<string, nat>,
                             acc': map<string, Value>, counts': map<string, nat>) {
    forall k :: k != key ==> Lookup(acc', k) == Lookup(acc, k) && CountAt(counts', k) == CountAt(counts, k)
  }

  lemma FoldedOneField(cfg: Config, es: seq<Row>, e: Row, rest: set<string>, key: string, acc: map<string, Value>,
                       counts: map<string, nat>, acc': map<string, Value>, counts': map<string, nat>)
    requires PartlyFolded(cfg, es, e, rest, acc, counts) && key in rest && key in e.data
    requires OthersKept(key, acc, counts, acc', counts')
    requires Folded(cfg, key, Values(es, key) + [e.data[key]], Lookup(acc', key), CountAt(counts', key))
    ensures PartlyFolded(cfg, es, e, rest - {key}, acc', counts')
  {
    forall k
      ensures Folded(cfg, k, SoFar(es, e, rest - {key}, k), Lookup(acc', k), CountAt(counts', k))
    {
      assert Folded(cfg, k, SoFar(es, e, rest, k), Lookup(acc, k), CountAt(counts, k));
      assert k != key ==> SoFar(es, e, rest - {key}, k) == SoFar(es, e, rest, k);
    }
  }

  lemma FoldedBounds(cfg: Config, es: seq<Row>, e: Row, acc: map<string, Value>, counts: map<string, nat>)
    ensures AllFolded(cfg, es, acc, counts) ==> PartlyFolded(cfg, es, e, e.data.Keys, acc, counts)
    ensures PartlyFolded(cfg, es, e, {}, acc, counts) ==> AllFolded(cfg, es + [e], acc, counts)
  {
    forall k
      ensures SoFar(es, e, e.data.Keys, k) == Values(es, k)
      ensures SoFar(es, e, {}, k) == Values(es + [e], k)
    {
      assert (es + [e])[..|es|] == es;
    }
  }

  method AddEntry(cfg: Config, acc: map<string, Value>, counts: map<string, nat>, e: Row, ghost es: seq<Row>)
    returns (acc': map<string, Value>, counts': map<string, nat>)
    requires AllFolded(cfg, es, acc, counts)
    ensures AllFolded(cfg, es + [e], acc', counts')
  {
    acc', counts' := acc, counts;
    FoldedBounds(cfg, es, e, acc, counts);
    var rest := e.data.Keys;
    while rest != {}
      invariant rest <= e.data.Keys && PartlyFolded(cfg, es, e, rest, acc', counts')
    {
      var key :| key in rest;
      ghost var before, tally := acc', counts';
      assert Folded(cfg, key, SoFar(es, e, rest, key), Lookup(acc', key), CountAt(counts', key));
      assert SoFar(es, e, rest, key) == Values(es, key);
      acc', counts' := AddField(cfg, acc', counts', key, e.data[key], Values(es, key));
      FoldedOneField(cfg, es, e, rest, key, before, tally, acc', counts');
      rest := rest - {key};
    }
    FoldedBounds(cfg, es, e, acc', counts');
  }

  method AggregateEntries(cfg: Config, es: seq<Row>) returns (acc: map<string, Value>)
    ensures forall k :: Lookup(acc, k) == Summary(cfg, k, Values(es, k))
  {
    acc := map[];
    var counts: map<string, nat> := map[];
    forall k
      ensures Folded(cfg, k, Values([], k), Lookup(acc, k), CountAt(counts, k))
    {
    }
    for i := 0 to |es|
      invariant AllFolded(cfg, es[..i], acc, counts)
    {
      acc, counts := AddEntry(cfg, acc, counts, es[i], es[..i]);
      assert es[..i + 1] == es[..i] + [es[i]];
    }
    assert es[..|es|] == es;
    acc := FinishMeans(cfg, es, acc, counts);
  }

  method FinishMeans(cfg: Config, es: seq<Row>, acc: map<string, Value>, counts: map<string, nat>)
    returns (r: map<string, Value>)
    requires AllFolded(cfg, es, acc, counts)
    ensures forall k :: Lookup(r, k) == Summary(cfg, k, Values(es, k))
  {
    r := acc;
    var rest := cfg.means;
    while rest != {}
      invariant rest <= cfg.means
      invariant forall k ::
                  Lookup(r, k) ==
                  if k in cfg.means && k !in rest then Summary(cfg, k, Values(es, k)) else Lookup(acc, k)
    {
      var key :| key in rest;
      var n := CountAt(counts, key);
      assert Folded(cfg, key, Values(es, key), Lookup(acc, key), n);
      r := r[key := if n != 0 then Num(AmountAt(acc, key) / n as real) else Null];
      rest := rest - {key};
    }
    forall k
      ensures Lookup(r, k) == Summary(cfg, k, Values(es, k))
    {
      assert Folded(cfg, k, Values(es, k), Lookup(acc, k), CountAt(counts, k));
    }
  }

  method AggregateByPeriod(log: seq<Row>, period: Period, nonMetricKeys: set<string>, meanKeys: set<string>, z: Zone)
    returns (r: seq<Row>, ghost rows: seq<Row>)
    ensures period.Daily? ==> r == log
    ensures !period.Daily? ==> Aggregated(z, period, Config(NON_METRIC_KEYS + nonMetricKeys, meanKeys), log, rows, r)
  {
    if period.Daily? {
      return log, [];
    }
    var cfg := Config(NON_METRIC_KEYS + nonMetricKeys, meanKeys);
    var keys, grouped := CollectBuckets(log, KeyOf(z, period));
    var out := AggregateGroups(cfg, period, z, log, keys, grouped);
    rows := out;
    r := Sort(out, NewestFirst());
  }

  method AggregateGroups(cfg: Config, period: Period, z: Zone, ghost log: seq<Row>, keys: seq<int>,
                         grouped: map<int, seq<Row>>)
    returns (out: seq<Row>)
    requires Collected(KeyOf(z, period), log, keys, grouped)
    ensures RowsAre(z, period, cfg, log, keys, out)
  {
    out := [];
    for i := 0 to |keys|
      invariant RowsAre(z, period, cfg, log, keys[..i], out)
    {
      var row := AggregateNext(cfg, period, z, log, keys, grouped, i);
      OneMoreRow(z, period, cfg, log, keys, i, out, row);
      out := out + [row];
    }
    assert keys[..|keys|] == keys;
  }

  /** The row of the i-th period. */
  method AggregateNext(cfg: Config, period: Period, z: Zone, ghost log: seq<Row>, keys: seq<int>,
                       grouped: map<int, seq<Row>>, i: nat)
    returns (row: Row)
    requires Collected(KeyOf(z, period), log, keys, grouped) && i < |keys|
    ensures RowIs(z, period, cfg, log, keys[i], row)
  {
    GroupIsCollected(z, period, log, keys, grouped, i);
    row := AggregateGroup(cfg, period, z, keys[i], log, grouped[keys[i]]);
  }

  lemma GroupIsCollected(z: Zone, p: Period, log: seq<Row>, keys: seq<int>, grouped: map<int, seq<Row>>, i: nat)
    requires Collected(KeyOf(z, p), log, keys, grouped) && i < |keys|
    ensures keys[i] in grouped && grouped[keys[i]] == GroupOf(z, p, log, keys[i])
  {
    CollectedGroup(KeyOf(z, p), log, keys, grouped, keys[i]);
  }

  lemma OneMoreRow(z: Zone, p: Period, cfg: Config, log: seq<Row>, keys: seq<int>, i: nat, rows: seq<Row>, row: Row)
    requires i < |keys| && RowsAre(z, p, cfg, log, keys[..i], rows) && RowIs(z, p, cfg, log, keys[i], row)
    ensures RowsAre(z, p, cfg, log, keys[..i + 1], rows + [row])
  {
    forall j | 0 <= j < i + 1
      ensures RowIs(z, p, cfg, log, keys[..i + 1][j], (rows + [row])[j])
    {
      if j < i { assert RowIs(z, p, cfg, log, keys[..i][j], rows[j]); }
    }
  }

  method AggregateGroup(cfg: Config, period: Period, z: Zone, key: int, ghost log: seq<Row>, entries: seq<Row>)
    returns (row: Row)
    requires entries == GroupOf(z, period, log, key)
    ensures RowIs(z, period, cfg, log, key, row)
  {
    var data := AggregateEntries(cfg, entries);
    row := Entry(Some(StampOf(z, period, key)), data + Calendars(z, period, key));
  }

  // ---------- conservation ----------

  /** What an entry or a row contributes to the sum of field `k`. */
  function Metric(k: string): Row -> real {
    (e: Row) => AmountAt(e.data, k)
  }

  function IsDated(): Row -> bool {
    (e: Row) => e.ts.Some?
  }

  function InstantKey(keyOf: int -> int): Row -> int {
    (e: Row) => keyOf(Instant(e))
  }

  predicate IsSummed(cfg: Config, k: string) {
    k !in cfg.labels && k !in cfg.means && k !in NON_METRIC_KEYS
  }

  lemma {:induction false} ValuesTotal(es: seq<Row>, k: string)
    ensures Total(Values(es, k)) == SumOf(es, Metric(k))
  {
    if es != [] {
      var front, last := es[..|es| - 1], es[|es| - 1];
      ValuesTotal(front, k);
      if k in last.data {
        OneMore(Values(front, k), last.data[k]);
      } else {
        assert Values(es, k) == Values(front, k);
      }
    }
  }

  lemma RowMetric(z: Zone, p: Period, cfg: Config, log: seq<Row>, key: int, row: Row, k: string)
    requires RowIs(z, p, cfg, log, key, row) && IsSummed(cfg, k)
    ensures Metric(k)(row) == SumOf(GroupOf(z, p, log, key), Metric(k))
  {
    ValuesTotal(GroupOf(z, p, log, key), k);
    assert Lookup(row.data, k) == FieldOf(z, cfg, p, key, k, Values(GroupOf(z, p, log, key), k));
  }

  // ---------- what a row says of its entries ----------

  /** What Number() makes of a field of an entry, if the entry has the field and it is a number. */
  ghost predicate IsNumber(e: Row, k: string, n: Option<real>) {
    n == if k !in e.data then None
         else if e.data[k].Num? then Some(e.data[k].n)
         else if e.data[k].Text? then e.data[k].parsed
         else None
  }

  function Numbered(number: Row -> Option<real>): Row -> bool {
    (e: Row) => number(e).Some?
  }

  function NumberOf(number: Row -> Option<real>): Row -> real {
    (e: Row) => if number(e).Some? then number(e).value else 0.0
  }

  /** Values that `||` passes over. */
  predicate Blank(v: Value) {
    v == Null || v == Num(0.0) || (v.Text? && v.text == "")
  }

  /** The first value that is not blank, or the last one if all are. */
  ghost predicate FirstFilled(of: seq<Row>, k: string, v: Value) {
    exists i :: 0 <= i < |of| && IsAt(of, k, i, v) && (forall j :: 0 <= j < i ==> BlankAt(of, k, j)) &&
                (Blank(v) ==> i == |of| - 1)
  }

  ghost predicate IsAt(of: seq<Row>, k: string, i: nat, v: Value) {
    i < |of| && k in of[i].data && of[i].data[k] == v
  }

  ghost predicate BlankAt(of: seq<Row>, k: string, i: nat) {
    i < |of| && k in of[i].data && Blank(of[i].data[k])
  }

  lemma {:induction false} ValuesTell(es: seq<Row>, k: string, has: Row -> bool)
    requires forall e: Row :: has(e) <==> k in e.data
    ensures |Values(es, k)| == |Filter(es, has)|
    ensures forall i :: 0 <= i < |Values(es, k)| ==> IsAt(Filter(es, has), k, i, Values(es, k)[i])
  {
    if es != [] { ValuesTell(es[..|es| - 1], k, has); }
  }

  lemma {:induction false} NumbersTell(es: seq<Row>, k: string, number: Row -> Option<real>)
    requires forall e :: IsNumber(e, k, number(e))
    ensures Total(Values(es, k)) == SumOf(Filter(es, Numbered(number)), NumberOf(number))
    ensures CountNumbers(Values(es, k)) == |Filter(es, Numbered(number))|
  {
    if es != [] {
      var front, last := es[..|es| - 1], es[|es| - 1];
      NumbersTell(front, k, number);
      assert IsNumber(last, k, number(last));
      if k in last.data {
        OneMore(Values(front, k), last.data[k]);
        assert Values(es, k) == Values(front, k) + [last.data[k]];
      } else {
        assert Values(es, k) == Values(front, k);
      }
      var kept := Filter(front, Numbered(number));
      if number(last).Some? {
        SumOfSnoc(kept, last, NumberOf(number));
      } else {
        assert Filter(es, Numbered(number)) == kept;
      }
    }
  }

  lemma {:induction false} LabelAt(vals: seq<Value>) returns (i: nat)
    requires vals != []
    ensures i < |vals| && vals[i] == LabelOf(vals)
    ensures forall j :: 0 <= j < i ==> Blank(vals[j])
    ensures Blank(vals[i]) ==> i == |vals| - 1
  {
    var front, last := vals[..|vals| - 1], vals[|vals| - 1];
    assert vals == front + [last];
    OneMore(front, last);
    if front == [] {
      i := 0;
    } else {
      i := LabelAt(front);
      if Blank(front[i]) { i := |front|; }
    }
  }

  lemma LabelTells(es: seq<Row>, k: string, has: Row -> bool)
    requires forall e: Row :: has(e) <==> k in e.data
    requires Values(es, k) != []
    ensures FirstFilled(Filter(es, has), k, LabelOf(Values(es, k)))
  {
    var of, vals := Filter(es, has), Values(es, k);
    ValuesTell(es, k, has);
    var i := LabelAt(vals);
    assert IsAt(of, k, i, vals[i]);
    forall j | 0 <= j < i
      ensures BlankAt(of, k, j)
    {
      assert IsAt(of, k, j, vals[j]);
    }
  }

  /** What a field says of the entries it rolls up: an averaged field the mean of their numbers, null
      without any; a label the first one filled; any other the sum of their numbers, if some entry has the
      field. */
  ghost predicate RollsUp(cfg: Config, es: seq<Row>, k: string, has: Row -> bool, number: Row -> Option<real>,
                          v: Option<Value>) {
    var of, numbers := Filter(es, has), Filter(es, Numbered(number));
    if k in cfg.means then
      v.Some? && if k in cfg.labels || numbers == [] then v.value == Null
                 else v.value.Num? && IsMean(v.value.n, numbers, NumberOf(number))
    else if of == [] then v.None?
    else if k in cfg.labels then v.Some? && FirstFilled(of, k, v.value)
    else v == Some(Num(SumOf(numbers, NumberOf(number))))
  }

  lemma SummaryRollsUp(cfg: Config, es: seq<Row>, k: string, has: Row -> bool, number: Row -> Option<real>)
    requires forall e :: IsNumber(e, k, number(e))
    requires forall e: Row :: has(e) <==> k in e.data
    ensures RollsUp(cfg, es, k, has, number, Summary(cfg, k, Values(es, k)))
  {
    if k in cfg.means {
      MeanRollsUp(cfg, es, k, has, number);
    } else {
      SumOrLabelRollsUp(cfg, es, k, has, number);
    }
  }

  lemma MeanRollsUp(cfg: Config, es: seq<Row>, k: string, has: Row -> bool, number: Row -> Option<real>)
    requires k in cfg.means && forall e :: IsNumber(e, k, number(e))
    ensures RollsUp(cfg, es, k, has, number, Summary(cfg, k, Values(es, k)))
  {
    var vals := Values(es, k);
    NumbersTell(es, k, number);
    if CountNumbers(vals) != 0 { DividesBack(Total(vals), CountNumbers(vals) as real); }
  }

  lemma SumOrLabelRollsUp(cfg: Config, es: seq<Row>, k: string, has: Row -> bool, number: Row -> Option<real>)
    requires k !in cfg.means && forall e :: IsNumber(e, k, number(e))
    requires forall e: Row :: has(e) <==> k in e.data
    ensures RollsUp(cfg, es, k, has, number, Summary(cfg, k, Values(es, k)))
  {
    ValuesTell(es, k, has);
    NumbersTell(es, k, number);
    if Values(es, k) != [] { LabelTells(es, k, has); }
  }

  /** Every field of a rolled-up row but the calendar ones tells of the entries of its period. */
  lemma FieldTells(z: Zone, p: Period, cfg: Config, log: seq<Row>, key: int, row: Row, k: string,
                   has: Row -> bool, number: Row -> Option<real>)
    requires RowIs(z, p, cfg, log, key, row) && k !in NON_METRIC_KEYS
    requires forall e :: IsNumber(e, k, number(e))
    requires forall e: Row :: has(e) <==> k in e.data
    ensures RollsUp(cfg, GroupOf(z, p, log, key), k, has, number, Lookup(row.data, k))
  {
    FieldIsSummary(z, p, cfg, log, key, row, k);
    SummaryRollsUp(cfg, GroupOf(z, p, log, key), k, has, number);
  }

  lemma FieldIsSummary(z: Zone, p: Period, cfg: Config, log: seq<Row>, key: int, row: Row, k: string)
    requires RowIs(z, p, cfg, log, key, row) && k !in NON_METRIC_KEYS
    ensures Lookup(row.data, k) == Summary(cfg, k, Values(GroupOf(z, p, log, key), k))
  {
    assert Lookup(row.data, k) == FieldOf(z, cfg, p, key, k, Values(GroupOf(z, p, log, key), k));
    NoCalendar(z, p, key, k);
  }

  lemma NoCalendar(z: Zone, p: Period, key: int, k: string)
    requires k !in NON_METRIC_KEYS
    ensures k !in Calendars(z, p, key)
  {
  }

  lemma CalendarField(z: Zone, p: Period, cfg: Config, log: seq<Row>, key: int, row: Row, k: string)
    requires RowIs(z, p, cfg, log, key, row) && k in Calendars(z, p, key)
    ensures Lookup(row.data, k) == Some(Calendars(z, p, key)[k])
  {
    assert Lookup(row.data, k) == FieldOf(z, cfg, p, key, k, Values(GroupOf(z, p, log, key), k));
  }

  /** The calendar fields of a month's row name the month its entries lie in. */
  lemma MonthFieldsTell(z: Zone, cfg: Config, log: seq<Row>, key: int, row: Row, e: Row) returns (year: int, month: int)
    requires RowIs(z, Monthly, cfg, log, key, row) && e in GroupOf(z, Monthly, log, key)
    ensures Lookup(row.data, "month") == Some(Num(month as real)) && Lookup(row.data, "year") == Some(Num(year as real))
    ensures 1 <= month <= 12 && e.ts.Some? && 12 * year + month - 1 == LocalMonth(z, e.ts.value)
  {
    InItsMonth(z, log, key, e);
    MonthFields(z, cfg, log, key, row);
    year, month := key / 12, key % 12 + 1;
  }

  lemma InItsMonth(z: Zone, log: seq<Row>, key: int, e: Row)
    requires e in GroupOf(z, Monthly, log, key)
    ensures e.ts.Some? && LocalMonth(z, e.ts.value) == key
  {
    FilterMember(log, InBucket(KeyOf(z, Monthly), key), e);
  }

  lemma MonthFields(z: Zone, cfg: Config, log: seq<Row>, key: int, row: Row)
    requires RowIs(z, Monthly, cfg, log, key, row)
    ensures Lookup(row.data, "month") == Some(Num((key % 12 + 1) as real))
    ensures Lookup(row.data, "year") == Some(Num((key / 12) as real))
  {
    MonthCalendar(z, key);
    CalendarField(z, Monthly, cfg, log, key, row, "month");
    CalendarField(z, Monthly, cfg, log, key, row, "year");
  }

  lemma MonthCalendar(z: Zone, key: int)
    ensures var c := Calendars(z, Monthly, key);
            "month" in c && c["month"] == Num((key % 12 + 1) as real) &&
            "year" in c && c["year"] == Num((key / 12) as real)
  {
  }

  /** The year of a year's row is the one its entries lie in. */
  lemma YearFieldTells(z: Zone, cfg: Config, log: seq<Row>, key: int, row: Row, e: Row) returns (year: int)
    requires RowIs(z, Yearly, cfg, log, key, row) && e in GroupOf(z, Yearly, log, key)
    ensures Lookup(row.data, "year") == Some(Num(year as real))
    ensures e.ts.Some? && 12 * year <= LocalMonth(z, e.ts.value) < 12 * year + 12
  {
    FilterMember(log, InBucket(KeyOf(z, Yearly), key), e);
    CalendarField(z, Yearly, cfg, log, key, row, "year");
    year := key;
  }

  lemma {:induction false} SumOfPaired<S, T>(xs: seq<S>, ys: seq<T>, f: S -> real, g: T -> real)
    requires |xs| == |ys| && forall i :: 0 <= i < |xs| ==> f(xs[i]) == g(ys[i])
    ensures SumOf(xs, f) == SumOf(ys, g)
  {
    if xs != [] { SumOfPaired(xs[..|xs| - 1], ys[..|ys| - 1], f, g); }
  }

  lemma GroupOfKey(keyOf: int -> int, log: seq<Row>, key: int)
    ensures Filter(Filter(log, IsDated()), HasKey(InstantKey(keyOf), key)) == Filter(log, InBucket(keyOf, key))
  {
    var dated := Filter(log, IsDated());
    FilterFilter(log, IsDated(), InBucket(keyOf, key));
    forall e: Row | e in dated
      ensures HasKey(InstantKey(keyOf), key)(e) == InBucket(keyOf, key)(e)
    {
      FilterMember(log, IsDated(), e);
      assert IsDated()(e);
      assert Instant(e) == e.ts.value;
    }
    FilterAgree(dated, HasKey(InstantKey(keyOf), key), InBucket(keyOf, key));
  }

  /** A weight that every row draws in full from its group is conserved over the log. */
  lemma WeightConserved(keyOf: int -> int, log: seq<Row>, rows: seq<Row>, w: Row -> real)
    requires |rows| == |KeysOf(keyOf, log)|
    requires forall i :: 0 <= i < |rows| ==> w(rows[i]) == SumOf(Filter(log, InBucket(keyOf, KeysOf(keyOf, log)[i])), w)
    ensures SumOf(rows, w) == SumOf(Filter(log, IsDated()), w)
  {
    var keys, dated := KeysOf(keyOf, log), Filter(log, IsDated());
    var sums := GroupSum(dated, InstantKey(keyOf), w);
    forall i | 0 <= i < |rows|
      ensures w(rows[i]) == sums(keys[i])
    {
      GroupOfKey(keyOf, log, keys[i]);
    }
    SumOfPaired(rows, keys, w, sums);
    DatedKeys(keyOf, log);
    SumByGroups(dated, InstantKey(keyOf), w, keys);
  }

  lemma DatedKeys(keyOf: int -> int, log: seq<Row>)
    ensures Distinct(KeysOf(keyOf, log))
    ensures forall e :: e in Filter(log, IsDated()) ==> InstantKey(keyOf)(e) in KeysOf(keyOf, log)
  {
    KeysDistinct(keyOf, log);
    forall e: Row | e in Filter(log, IsDated())
      ensures InstantKey(keyOf)(e) in KeysOf(keyOf, log)
    {
      FilterMember(log, IsDated(), e);
      assert IsDated()(e);
      assert Instant(e) == e.ts.value;
      MetIsKey(keyOf, log, e);
    }
  }

  /** Every summed field has the same total over the rows as over the dated entries of the log. */
  lemma MetricConserved(z: Zone, p: Period, cfg: Config, log: seq<Row>, rows: seq<Row>, r: seq<Row>, k: string)
    requires Aggregated(z, p, cfg, log, rows, r) && IsSummed(cfg, k)
    ensures SumOf(r, Metric(k)) == SumOf(Filter(log, IsDated()), Metric(k))
  {
    forall i | 0 <= i < |rows|
      ensures Metric(k)(rows[i]) == SumOf(GroupOf(z, p, log, KeysOf(KeyOf(z, p), log)[i]), Metric(k))
    {
      RowMetric(z, p, cfg, log, KeysOf(KeyOf(z, p), log)[i], rows[i], k);
    }
    WeightConserved(KeyOf(z, p), log, rows, Metric(k));
    SortSorts(rows, NewestFirst());
    SumOfPermutation(r, rows, Metric(k));
  }

  // ---------- the rows are the periods, newest first ----------

  function PeriodGrid(z: Zone, p: Period): Grid {
    match p
    case Monthly => MonthGrid(z)
    case Yearly => Grid(t => LocalMonth(z, t) / 12, y => LocalMonthStartTs(z, 12 * y))
    case Weekly => WeekGrid(z)
    case _ => Grid(t => t, t => t)
  }

  /** What period `u` needs of the zone: a month or a year that its first midnight is clear, a week that
      its days are. */
  ghost predicate PeriodClear(z: Zone, p: Period, u: int) {
    match p
    case Monthly => UnitClear(z, OneMonth, u)
    case Yearly => UnitClear(z, OneMonth, 12 * u)
    case Weekly => UnitClear(z, OneWeek, u)
    case _ => true
  }

  ghost predicate PeriodsClear(z: Zone, p: Period, lo: int, hi: int) {
    Regular(z) && forall u :: lo <= u <= hi ==> PeriodClear(z, p, u)
  }

  /** The log lies in periods `lo` to `hi`, and these are clear. */
  ghost predicate ClearLog(z: Zone, p: Period, log: seq<Row>, lo: int, hi: int) {
    PeriodsClear(z, p, lo, hi) && UnitsWithin(PeriodGrid(z, p), log, lo, hi)
  }

  lemma ClearUnits(z: Zone, p: Period, iv: Interval, lo: int, hi: int)
    requires PeriodsClear(z, p, lo, hi) && ((p.Monthly? && iv.OneMonth?) || (p.Weekly? && iv.OneWeek?))
    ensures UnitsClear(z, iv, lo, hi)
  {
    forall u | lo <= u <= hi
      ensures UnitClear(z, iv, u)
    {
      assert PeriodClear(z, p, u);
    }
  }

  /** Clear weeks, months and years split time by their first instants. */
  lemma PeriodGridIsGrid(z: Zone, p: Period, lo: int, hi: int)
    requires PeriodsClear(z, p, lo, hi)
    ensures IsGrid(PeriodGrid(z, p), lo, hi)
  {
    match p
    case Monthly =>
      ClearUnits(z, p, OneMonth, lo, hi);
      MonthGridIsGrid(z, lo, hi);
    case Weekly =>
      ClearUnits(z, p, OneWeek, lo, hi);
      WeekGridIsGrid(z, lo, hi);
    case Yearly => YearGridIsGrid(z, lo, hi);
    case _ => assert forall unit, t :: Splits(PeriodGrid(z, p), unit, t);
  }

  lemma YearGridIsGrid(z: Zone, lo: int, hi: int)
    requires PeriodsClear(z, Yearly, lo, hi)
    ensures IsGrid(PeriodGrid(z, Yearly), lo, hi)
  {
    forall y, t | lo <= y <= hi
      ensures Splits(PeriodGrid(z, Yearly), y, t)
    {
      assert PeriodClear(z, Yearly, y);
      LocalMonthStartTsCorrect(z, 12 * y, t);
    }
    forall a, b | lo <= a < b <= hi
      ensures PeriodGrid(z, Yearly).unitStart(a) < PeriodGrid(z, Yearly).unitStart(b)
    {
      assert PeriodClear(z, Yearly, a) && PeriodClear(z, Yearly, b);
      MonthStartsIncrease(z, 12 * a, 12 * b);
    }
  }

  predicate WeekReaches(z: Zone, p: Period, e: Row) {
    p.Weekly? && e.ts.Some? ==> StepBackReaches(z, e.ts.value)
  }

  ghost predicate WeeksReach(z: Zone, p: Period, log: seq<Row>) {
    forall e :: e in log ==> WeekReaches(z, p, e)
  }

  /** The stamp of an entry's group is the first instant of the entry's period. */
  lemma StampIsUnitStart(z: Zone, p: Period, e: Row)
    requires e.ts.Some? && PeriodClear(z, p, PeriodGrid(z, p).unitOf(e.ts.value)) && WeekReaches(z, p, e)
    ensures var g := PeriodGrid(z, p); StampOf(z, p, KeyOf(z, p)(e.ts.value)) == g.unitStart(g.unitOf(e.ts.value))
  {
    if p.Weekly? { WeekStartIsUnitStart(z, e.ts.value); }
  }

  /** Months and years are grouped under their own number. */
  lemma KeyWithin(z: Zone, p: Period, log: seq<Row>, lo: int, hi: int, key: int)
    requires UnitsWithin(PeriodGrid(z, p), log, lo, hi) && key in KeysOf(KeyOf(z, p), log)
    ensures p.Monthly? || p.Yearly? ==> lo <= key <= hi
  {
    var e := KeyIsMet(KeyOf(z, p), log, key);
  }

  lemma StampsDiffer(z: Zone, p: Period, lo: int, hi: int, a: int, b: int)
    requires PeriodsClear(z, p, lo, hi) && StampOf(z, p, a) == StampOf(z, p, b)
    requires p.Monthly? || p.Yearly? ==> lo <= a <= hi && lo <= b <= hi
    ensures a == b
  {
    PeriodGridIsGrid(z, p, lo, hi);
    if p.Monthly? || p.Yearly? { SameStartSameUnit(PeriodGrid(z, p), lo, hi, a, b); }
  }

  lemma RowsDiffer(z: Zone, p: Period, cfg: Config, log: seq<Row>, lo: int, hi: int, rows: seq<Row>, i: nat, j: nat)
    requires ClearLog(z, p, log, lo, hi) && RowsAre(z, p, cfg, log, KeysOf(KeyOf(z, p), log), rows)
    requires i < |rows| && j < |rows| && rows[i].ts == rows[j].ts
    ensures i == j
  {
    var keys := KeysOf(KeyOf(z, p), log);
    assert RowIs(z, p, cfg, log, keys[i], rows[i]) && RowIs(z, p, cfg, log, keys[j], rows[j]);
    KeyWithin(z, p, log, lo, hi, keys[i]);
    KeyWithin(z, p, log, lo, hi, keys[j]);
    StampsDiffer(z, p, lo, hi, keys[i], keys[j]);
    KeysDistinct(KeyOf(z, p), log);
  }

  ghost predicate Descending(r: seq<Row>) {
    forall i, j :: 0 <= i < j < |r| ==> Instant(r[i]) > Instant(r[j])
  }

  /** Sorting keeps the rows. */
  lemma SortedRows(rows: seq<Row>)
    ensures forall row :: row in Sort(rows, NewestFirst()) <==> row in rows
  {
    SortSorts(rows, NewestFirst());
    forall row
      ensures row in Sort(rows, NewestFirst()) <==> row in rows
    {
      assert row in Sort(rows, NewestFirst()) <==> row in multiset(Sort(rows, NewestFirst()));
      assert row in rows <==> row in multiset(rows);
    }
  }

  lemma AggregatedDescends(z: Zone, p: Period, cfg: Config, log: seq<Row>, lo: int, hi: int, rows: seq<Row>,
                           r: seq<Row>)
    requires ClearLog(z, p, log, lo, hi) && Aggregated(z, p, cfg, log, rows, r)
    ensures Descending(r)
  {
    forall i, j | 0 <= i < j < |rows|
      ensures rows[i] != rows[j]
    {
      if rows[i] == rows[j] { RowsDiffer(z, p, cfg, log, lo, hi, rows, i, j); }
    }
    SortDistinct(rows, NewestFirst());
    SortSorts(rows, NewestFirst());
    forall i, j | 0 <= i < j < |r|
      ensures Instant(r[i]) > Instant(r[j])
    {
      assert NewestFirst()(r[i], r[j]);
      assert r[i] in rows && r[j] in rows;
      var a :| 0 <= a < |rows| && rows[a] == r[i];
      var b :| 0 <= b < |rows| && rows[b] == r[j];
      if Instant(r[i]) == Instant(r[j]) {
        assert RowIs(z, p, cfg, log, KeysOf(KeyOf(z, p), log)[a], rows[a]);
        assert RowIs(z, p, cfg, log, KeysOf(KeyOf(z, p), log)[b], rows[b]);
        RowsDiffer(z, p, cfg, log, lo, hi, rows, a, b);
      }
    }
  }

  /** Rows come out strictly newest first, one for each period the log has an entry in, each
      stamped with the first instant of that period. Only the periods the log lies in need be clear. */
  lemma RowsAreThePeriods(z: Zone, p: Period, cfg: Config, log: seq<Row>, lo: int, hi: int, rows: seq<Row>, r: seq<Row>)
    requires ClearLog(z, p, log, lo, hi) && WeeksReach(z, p, log) && Aggregated(z, p, cfg, log, rows, r)
    ensures IsGrid(PeriodGrid(z, p), lo, hi) && Descending(r)
    ensures forall e :: e in log && e.ts.Some? ==> exists row :: row in r && StampsPeriodOf(z, p, row, e)
    ensures forall row :: row in r ==> exists e :: e in log && StampsPeriodOf(z, p, row, e)
  {
    PeriodGridIsGrid(z, p, lo, hi);
    AggregatedDescends(z, p, cfg, log, lo, hi, rows, r);
    SortedRows(rows);
    forall e | e in log && e.ts.Some?
      ensures exists row :: row in r && StampsPeriodOf(z, p, row, e)
    {
      RowForEntry(z, p, cfg, log, lo, hi, rows, e);
    }
    forall row | row in r
      ensures exists e :: e in log && StampsPeriodOf(z, p, row, e)
    {
      EntryForRow(z, p, cfg, log, lo, hi, rows, row);
    }
  }

  ghost predicate StampsPeriodOf(z: Zone, p: Period, row: Row, e: Row) {
    var g := PeriodGrid(z, p);
    e.ts.Some? && row.ts == Some(g.unitStart(g.unitOf(e.ts.value)))
  }

  lemma ClearAt(z: Zone, p: Period, log: seq<Row>, lo: int, hi: int, e: Row)
    requires ClearLog(z, p, log, lo, hi) && e in log && e.ts.Some?
    ensures PeriodClear(z, p, PeriodGrid(z, p).unitOf(e.ts.value))
  {
  }

  lemma RowForEntry(z: Zone, p: Period, cfg: Config, log: seq<Row>, lo: int, hi: int, rows: seq<Row>, e: Row)
    requires ClearLog(z, p, log, lo, hi) && WeeksReach(z, p, log)
    requires RowsAre(z, p, cfg, log, KeysOf(KeyOf(z, p), log), rows) && e in log && e.ts.Some?
    ensures exists row :: row in rows && StampsPeriodOf(z, p, row, e)
  {
    var keys := KeysOf(KeyOf(z, p), log);
    MetIsKey(KeyOf(z, p), log, e);
    var i :| 0 <= i < |keys| && keys[i] == KeyOf(z, p)(e.ts.value);
    assert RowIs(z, p, cfg, log, keys[i], rows[i]);
    ClearAt(z, p, log, lo, hi, e);
    StampIsUnitStart(z, p, e);
    assert rows[i] in rows && StampsPeriodOf(z, p, rows[i], e);
  }

  lemma EntryForRow(z: Zone, p: Period, cfg: Config, log: seq<Row>, lo: int, hi: int, rows: seq<Row>, row: Row)
    requires ClearLog(z, p, log, lo, hi) && WeeksReach(z, p, log)
    requires RowsAre(z, p, cfg, log, KeysOf(KeyOf(z, p), log), rows) && row in rows
    ensures exists e :: e in log && StampsPeriodOf(z, p, row, e)
  {
    var keys := KeysOf(KeyOf(z, p), log);
    var i :| 0 <= i < |rows| && rows[i] == row;
    assert RowIs(z, p, cfg, log, keys[i], rows[i]);
    var e := KeyIsMet(KeyOf(z, p), log, keys[i]);
    assert e in log && WeekReaches(z, p, e);
    ClearAt(z, p, log, lo, hi, e);
    StampIsUnitStart(z, p, e);
    assert StampsPeriodOf(z, p, row, e);
  }

  // ---------- months, then years ----------

  function InYear(z: Zone, year: int): Row -> bool {
    InBucket(KeyOf(z, Yearly), year)
  }

  /** Month `mi` begins and ends at clear midnights. */
  ghost predicate MonthClear(z: Zone, mi: int) {
    Regular(z) && UnitClear(z, OneMonth, mi) && UnitClear(z, OneMonth, mi + 1)
  }

  /** The log lies in months that begin and end at clear midnights. */
  ghost predicate ClearMonths(z: Zone, log: seq<Row>) {
    forall e :: e in log && e.ts.Some? ==> MonthClear(z, LocalMonth(z, e.ts.value))
  }

  lemma ClearKey(z: Zone, log: seq<Row>, key: int)
    requires ClearMonths(z, log) && key in KeysOf(KeyOf(z, Monthly), log)
    ensures MonthClear(z, key)
  {
    var e := KeyIsMet(KeyOf(z, Monthly), log, key);
    assert e in log && LocalMonth(z, e.ts.value) == key;
  }

  lemma MonthRowStays(z: Zone, cfg: Config, log: seq<Row>, mi: int, row: Row)
    requires MonthClear(z, mi) && RowIs(z, Monthly, cfg, log, mi, row)
    ensures row.ts.Some? && LocalMonth(z, row.ts.value) == mi
  {
    MonthStartStays(z, mi);
  }

  lemma MonthStartStays(z: Zone, mi: int)
    requires MonthClear(z, mi)
    ensures LocalMonth(z, LocalMonthStartTs(z, mi)) == mi
  {
    TwoMonthsGrid(z, mi);
    UnitBetween(MonthGrid(z), mi, MonthGrid(z).unitStart(mi));
  }

  lemma TwoMonthsGrid(z: Zone, mi: int)
    requires MonthClear(z, mi)
    ensures IsGrid(MonthGrid(z), mi, mi + 1)
  {
    forall u | mi <= u <= mi + 1
      ensures UnitClear(z, OneMonth, u)
    {
      assert u == mi || u == mi + 1;
    }
    MonthGridIsGrid(z, mi, mi + 1);
  }

  lemma RowHasName(z: Zone, cfg: Config, log: seq<Row>, mi: int, row: Row)
    requires RowIs(z, Monthly, cfg, log, mi, row)
    ensures Lookup(row.data, "monthName") == Some(Text(StampedName(z, mi), None))
  {
    assert Lookup(row.data, "monthName") ==
           FieldOf(z, cfg, Monthly, mi, "monthName", Values(GroupOf(z, Monthly, log, mi), "monthName"));
  }

  /** A month that begins and ends at clear midnights is given its own name. */
  lemma RowIsNamedForItsMonth(z: Zone, cfg: Config, log: seq<Row>, mi: int, row: Row)
    requires MonthClear(z, mi) && RowIs(z, Monthly, cfg, log, mi, row)
    ensures Lookup(row.data, "monthName") == Some(Text(MONTH_NAMES[mi % 12], None))
  {
    MonthStartStays(z, mi);
    RowHasName(z, cfg, log, mi, row);
  }

  /** A month whose first midnight was skipped is given the name of the month before: where the clocks
      went from 23:00 on the last of December to one o'clock, the row of January 1970 says December. */
  lemma RowIsNamedForTheMonthBefore(cfg: Config, log: seq<Row>, row: Row, mi: int)
    requires mi == 12 * 1970 && RowIs(SkippingWest(), Monthly, cfg, log, mi, row)
    ensures Lookup(row.data, "monthName") == Some(Text("December", None))
  {
    RowHasName(SkippingWest(), cfg, log, mi, row);
    StampReadsDecember(mi);
    assert MONTH_NAMES[11] == "December";
  }

  lemma StampReadsDecember(mi: int)
    requires mi == 12 * 1970
    ensures LocalMonth(SkippingWest(), LocalMonthStartTs(SkippingWest(), mi)) % 12 == 11
  {
    FirstMonthStart(mi);
    MonthBefore(-1, mi);
    ElevenMonthsOn(mi);
  }

  lemma ElevenMonthsOn(mi: int)
    requires mi == 12 * 1970
    ensures (mi - 1) % 12 == 11
  {
  }

  lemma FirstMonthStart(mi: int)
    requires mi == 12 * 1970
    ensures MonthStartDay(mi) == 0 && LocalDay(SkippingWest(), LocalMonthStartTs(SkippingWest(), mi)) == -1
  {
    EpochMonth();
    SkippedMidnightWest();
  }

  lemma MonthBefore(d: int, mi: int)
    requires MonthStartDay(mi) - 28 <= d < MonthStartDay(mi)
    ensures MonthOf(d) == mi - 1
  {
    MonthLength(mi - 1);
    MonthSplit(d, mi);
    MonthSplit(d, mi - 1);
  }

  /** The weight of a month's row inside a year is that of the month's entries inside the year. */
  lemma MonthRowWeight(z: Zone, cfg: Config, log: seq<Row>, mi: int, row: Row, k: string, year: int)
    requires MonthClear(z, mi) && RowIs(z, Monthly, cfg, log, mi, row) && IsSummed(cfg, k)
    ensures Gate(InYear(z, year), Metric(k))(row) ==
            SumOf(GroupOf(z, Monthly, log, mi), Gate(InYear(z, year), Metric(k)))
  {
    var group, w := GroupOf(z, Monthly, log, mi), Gate(InYear(z, year), Metric(k));
    MonthRowStays(z, cfg, log, mi, row);
    forall e: Row | e in group
      ensures w(e) == if mi / 12 == year then Metric(k)(e) else 0.0
    {
      FilterMember(log, InBucket(KeyOf(z, Monthly), mi), e);
      assert e.ts.Some? && LocalMonth(z, e.ts.value) == mi;
    }
    if mi / 12 == year {
      RowMetric(z, Monthly, cfg, log, mi, row, k);
      SumOfAgree(group, w, Metric(k));
    } else {
      SumOfZero(group, w);
    }
  }

  lemma MonthRowsHoldTheYear(z: Zone, cfg: Config, log: seq<Row>, rows: seq<Row>, m: seq<Row>, k: string, year: int)
    requires ClearMonths(z, log) && Aggregated(z, Monthly, cfg, log, rows, m) && IsSummed(cfg, k)
    ensures SumOf(Filter(m, InYear(z, year)), Metric(k)) == SumOf(Filter(log, InYear(z, year)), Metric(k))
  {
    var w, keys := Gate(InYear(z, year), Metric(k)), KeysOf(KeyOf(z, Monthly), log);
    forall i | 0 <= i < |rows|
      ensures w(rows[i]) == SumOf(GroupOf(z, Monthly, log, keys[i]), w)
    {
      assert keys[i] in keys;
      ClearKey(z, log, keys[i]);
      MonthRowWeight(z, cfg, log, keys[i], rows[i], k, year);
    }
    WeightConserved(KeyOf(z, Monthly), log, rows, w);
    SortSorts(rows, NewestFirst());
    SumOfPermutation(m, rows, w);
    SumOfFiltered(m, InYear(z, year), Metric(k));
    SumOfFiltered(Filter(log, IsDated()), InYear(z, year), Metric(k));
    FilterFilter(log, IsDated(), InYear(z, year));
  }

  ghost predicate SameKey(keyOf: int -> int, a: Row, b: Row) {
    a.ts.Some? && b.ts.Some? && keyOf(a.ts.value) == keyOf(b.ts.value)
  }

  /** Every dated entry of `a` shares its key with some dated entry of `b`. */
  ghost predicate Mirrors(keyOf: int -> int, a: seq<Row>, b: seq<Row>) {
    forall e :: e in a && e.ts.Some? ==> exists f :: f in b && SameKey(keyOf, e, f)
  }

  lemma MirroredKey(keyOf: int -> int, a: seq<Row>, b: seq<Row>, key: int)
    requires Mirrors(keyOf, a, b) && key in KeysOf(keyOf, a)
    ensures key in KeysOf(keyOf, b)
  {
    var e := KeyIsMet(keyOf, a, key);
    var f :| f in b && SameKey(keyOf, e, f);
    MetIsKey(keyOf, b, f);
  }

  lemma MonthOfYear(z: Zone, a: Row, b: Row)
    requires SameKey(KeyOf(z, Monthly), a, b)
    ensures SameKey(KeyOf(z, Yearly), a, b)
  {
  }

  lemma MonthRowShares(z: Zone, cfg: Config, log: seq<Row>, mi: int, row: Row, e: Row)
    requires MonthClear(z, mi) && RowIs(z, Monthly, cfg, log, mi, row)
    requires e.ts.Some? && KeyOf(z, Monthly)(e.ts.value) == mi
    ensures SameKey(KeyOf(z, Yearly), e, row) && SameKey(KeyOf(z, Yearly), row, e)
  {
    MonthRowStays(z, cfg, log, mi, row);
    MonthOfYear(z, e, row);
  }

  lemma LogMirrorsRows(z: Zone, cfg: Config, log: seq<Row>, rows: seq<Row>)
    requires ClearMonths(z, log) && RowsAre(z, Monthly, cfg, log, KeysOf(KeyOf(z, Monthly), log), rows)
    ensures Mirrors(KeyOf(z, Yearly), log, rows)
  {
    var monthOf, keys := KeyOf(z, Monthly), KeysOf(KeyOf(z, Monthly), log);
    forall e | e in log && e.ts.Some?
      ensures exists row :: row in rows && SameKey(KeyOf(z, Yearly), e, row)
    {
      MetIsKey(monthOf, log, e);
      var i :| 0 <= i < |keys| && keys[i] == monthOf(e.ts.value);
      ClearKey(z, log, keys[i]);
      MonthRowShares(z, cfg, log, keys[i], rows[i], e);
      assert rows[i] in rows;
    }
  }

  lemma RowsMirrorLog(z: Zone, cfg: Config, log: seq<Row>, rows: seq<Row>)
    requires ClearMonths(z, log) && RowsAre(z, Monthly, cfg, log, KeysOf(KeyOf(z, Monthly), log), rows)
    ensures Mirrors(KeyOf(z, Yearly), rows, log)
  {
    var monthOf, keys := KeyOf(z, Monthly), KeysOf(KeyOf(z, Monthly), log);
    forall row | row in rows && row.ts.Some?
      ensures exists e :: e in log && SameKey(KeyOf(z, Yearly), row, e)
    {
      var i :| 0 <= i < |rows| && rows[i] == row;
      assert keys[i] in keys;
      var e := KeyIsMet(monthOf, log, keys[i]);
      ClearKey(z, log, keys[i]);
      MonthRowShares(z, cfg, log, keys[i], row, e);
    }
  }

  /** The months of a log lie in the years of the log, and in no others. */
  lemma SameYears(z: Zone, cfg: Config, log: seq<Row>, rows: seq<Row>, m: seq<Row>)
    requires ClearMonths(z, log) && Aggregated(z, Monthly, cfg, log, rows, m)
    ensures forall year :: year in KeysOf(KeyOf(z, Yearly), log) <==> year in KeysOf(KeyOf(z, Yearly), m)
  {
    SortedRows(rows);
    LogMirrorsRows(z, cfg, log, rows);
    RowsMirrorLog(z, cfg, log, rows);
    forall year
      ensures year in KeysOf(KeyOf(z, Yearly), log) <==> year in KeysOf(KeyOf(z, Yearly), m)
    {
      if year in KeysOf(KeyOf(z, Yearly), log) { MirroredKey(KeyOf(z, Yearly), log, m, year); }
      if year in KeysOf(KeyOf(z, Yearly), m) { MirroredKey(KeyOf(z, Yearly), m, log, year); }
    }
  }

  lemma {:induction false} DescendingUnique(a: seq<int>, b: seq<int>)
    requires forall i, j :: 0 <= i < j < |a| ==> a[i] > a[j]
    requires forall i, j :: 0 <= i < j < |b| ==> b[i] > b[j]
    requires forall x :: x in a <==> x in b
    ensures a == b
  {
    if a != [] { assert a[0] in a; }
    if b != [] { assert b[0] in b; }
    if a != [] {
      assert a[0] == b[0];
      TailsAgree(a, b);
      DescendingUnique(a[1..], b[1..]);
    }
  }

  lemma TailsAgree(a: seq<int>, b: seq<int>)
    requires a != [] && b != [] && a[0] == b[0]
    requires forall i, j :: 0 <= i < j < |a| ==> a[i] > a[j]
    requires forall i, j :: 0 <= i < j < |b| ==> b[i] > b[j]
    requires forall x :: x in a <==> x in b
    ensures forall x :: x in a[1..] <==> x in b[1..]
  {
    assert a == [a[0]] + a[1..] && b == [b[0]] + b[1..];
    forall x
      ensures x in a[1..] <==> x in b[1..]
    {
      assert x in a[1..] <==> x in a && x != a[0];
      assert x in b[1..] <==> x in b && x != b[0];
    }
  }

  function Instants(r: seq<Row>): seq<int> {
    seq(|r|, i requires 0 <= i < |r| => Instant(r[i]))
  }

  ghost predicate Stamps(z: Zone, p: Period, log: seq<Row>, key: int, t: int) {
    key in KeysOf(KeyOf(z, p), log) && StampOf(z, p, key) == t
  }

  lemma InstantIsStamp(z: Zone, p: Period, cfg: Config, log: seq<Row>, rows: seq<Row>, t: int)
    requires RowsAre(z, p, cfg, log, KeysOf(KeyOf(z, p), log), rows) && t in Instants(rows)
    ensures exists key :: Stamps(z, p, log, key, t)
  {
    var keys := KeysOf(KeyOf(z, p), log);
    var i :| 0 <= i < |rows| && Instant(rows[i]) == t;
    assert RowIs(z, p, cfg, log, keys[i], rows[i]);
    assert keys[i] in keys && Stamps(z, p, log, keys[i], t);
  }

  lemma StampIsInstant(z: Zone, p: Period, cfg: Config, log: seq<Row>, rows: seq<Row>, key: int, t: int)
    requires RowsAre(z, p, cfg, log, KeysOf(KeyOf(z, p), log), rows) && Stamps(z, p, log, key, t)
    ensures t in Instants(rows)
  {
    var keys := KeysOf(KeyOf(z, p), log);
    var i :| 0 <= i < |keys| && keys[i] == key;
    assert RowIs(z, p, cfg, log, keys[i], rows[i]);
    assert Instants(rows)[i] == t;
  }

  lemma SameInstants(r: seq<Row>, rows: seq<Row>, t: int)
    requires forall row :: row in r ==> row in rows
    ensures t in Instants(r) ==> t in Instants(rows)
  {
    if t in Instants(r) {
      var j :| 0 <= j < |r| && Instant(r[j]) == t;
      assert r[j] in rows;
      var i :| 0 <= i < |rows| && rows[i] == r[j];
      assert Instants(rows)[i] == t;
    }
  }

  /** The instants of the rows are the stamps of the keys. */
  lemma InstantsAreStamps(z: Zone, p: Period, cfg: Config, log: seq<Row>, rows: seq<Row>, r: seq<Row>, t: int)
    requires Aggregated(z, p, cfg, log, rows, r)
    ensures t in Instants(r) <==> exists key :: Stamps(z, p, log, key, t)
  {
    SortedRows(rows);
    SameInstants(r, rows, t);
    SameInstants(rows, r, t);
    if t in Instants(rows) { InstantIsStamp(z, p, cfg, log, rows, t); }
    if exists key :: Stamps(z, p, log, key, t) {
      var key :| Stamps(z, p, log, key, t);
      StampIsInstant(z, p, cfg, log, rows, key, t);
    }
  }

  lemma SameStamps(z: Zone, log: seq<Row>, m: seq<Row>, t: int)
    requires forall year :: year in KeysOf(KeyOf(z, Yearly), log) <==> year in KeysOf(KeyOf(z, Yearly), m)
    ensures (exists key :: Stamps(z, Yearly, log, key, t)) <==> exists key :: Stamps(z, Yearly, m, key, t)
  {
    if key: int :| Stamps(z, Yearly, log, key, t) { assert Stamps(z, Yearly, m, key, t); }
    if key: int :| Stamps(z, Yearly, m, key, t) { assert Stamps(z, Yearly, log, key, t); }
  }

  lemma YearRowMetric(z: Zone, cfg: Config, log: seq<Row>, rows: seq<Row>, r: seq<Row>, row: Row, k: string)
    returns (year: int)
    requires Aggregated(z, Yearly, cfg, log, rows, r) && IsSummed(cfg, k) && row in r
    ensures StampOf(z, Yearly, year) == Instant(row) && year in KeysOf(KeyOf(z, Yearly), log)
    ensures Metric(k)(row) == SumOf(Filter(log, InYear(z, year)), Metric(k))
  {
    SortedRows(rows);
    var i :| 0 <= i < |rows| && rows[i] == row;
    year := KeysOf(KeyOf(z, Yearly), log)[i];
    RowMetric(z, Yearly, cfg, log, year, row, k);
  }

  /** The rows of a log's months lie in the years the log lies in. */
  lemma YearsWithin(z: Zone, log: seq<Row>, m: seq<Row>, lo: int, hi: int)
    requires UnitsWithin(PeriodGrid(z, Yearly), log, lo, hi)
    requires forall year :: year in KeysOf(KeyOf(z, Yearly), log) <==> year in KeysOf(KeyOf(z, Yearly), m)
    ensures UnitsWithin(PeriodGrid(z, Yearly), m, lo, hi)
  {
    forall row | row in m && row.ts.Some?
      ensures lo <= PeriodGrid(z, Yearly).unitOf(row.ts.value) <= hi
    {
      MetIsKey(KeyOf(z, Yearly), m, row);
      KeyWithin(z, Yearly, log, lo, hi, KeyOf(z, Yearly)(row.ts.value));
    }
  }

  /** Both rollups to years stamp the same years, in the same order. */
  lemma SameYearRows(z: Zone, cfg: Config, log: seq<Row>, m: seq<Row>, lo: int, hi: int,
                     yyrows: seq<Row>, yy: seq<Row>, yrows: seq<Row>, y: seq<Row>)
    requires ClearLog(z, Yearly, log, lo, hi)
    requires forall year :: year in KeysOf(KeyOf(z, Yearly), log) <==> year in KeysOf(KeyOf(z, Yearly), m)
    requires Aggregated(z, Yearly, cfg, m, yyrows, yy) && Aggregated(z, Yearly, cfg, log, yrows, y)
    ensures |yy| == |y| && forall i :: 0 <= i < |y| ==> Instant(yy[i]) == Instant(y[i])
  {
    forall t
      ensures t in Instants(yy) <==> t in Instants(y)
    {
      InstantsAreStamps(z, Yearly, cfg, m, yyrows, yy, t);
      InstantsAreStamps(z, Yearly, cfg, log, yrows, y, t);
      SameStamps(z, log, m, t);
    }
    YearsWithin(z, log, m, lo, hi);
    AggregatedDescends(z, Yearly, cfg, m, lo, hi, yyrows, yy);
    AggregatedDescends(z, Yearly, cfg, log, lo, hi, yrows, y);
    DescendingUnique(Instants(yy), Instants(y));
    assert |yy| == |Instants(yy)| && |y| == |Instants(y)|;
    forall i | 0 <= i < |y|
      ensures Instant(yy[i]) == Instant(y[i])
    {
      assert Instants(yy)[i] == Instants(y)[i];
    }
  }

  /** Rolling days up into months and the months into years gives the years, and in them the sums,
      of rolling the days up into years at once. Only the first midnights of the years the log lies in,
      and of its months and the month after each, need be clear. */
  lemma MonthsThenYears(z: Zone, cfg: Config, log: seq<Row>, lo: int, hi: int, mrows: seq<Row>, m: seq<Row>,
                        yyrows: seq<Row>, yy: seq<Row>, yrows: seq<Row>, y: seq<Row>, k: string)
    requires ClearMonths(z, log) && ClearLog(z, Yearly, log, lo, hi) && IsSummed(cfg, k)
    requires Aggregated(z, Monthly, cfg, log, mrows, m) && Aggregated(z, Yearly, cfg, m, yyrows, yy)
    requires Aggregated(z, Yearly, cfg, log, yrows, y)
    ensures |yy| == |y|
    ensures forall i :: 0 <= i < |y| ==> Instant(yy[i]) == Instant(y[i]) && Metric(k)(yy[i]) == Metric(k)(y[i])
  {
    SameYears(z, cfg, log, mrows, m);
    SameYearRows(z, cfg, log, m, lo, hi, yyrows, yy, yrows, y);
    forall i | 0 <= i < |y|
      ensures Metric(k)(yy[i]) == Metric(k)(y[i])
    {
      var a := YearRowMetric(z, cfg, m, yyrows, yy, yy[i], k);
      var b := YearRowMetric(z, cfg, log, yrows, y, y[i], k);
      KeyWithin(z, Yearly, log, lo, hi, a);
      KeyWithin(z, Yearly, log, lo, hi, b);
      StampsDiffer(z, Yearly, lo, hi, a, b);
      MonthRowsHoldTheYear(z, cfg, log, mrows, m, k, a);
    }
  }
}
