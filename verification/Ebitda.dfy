/** workers/lib/server/handlers/finance.handlers.js: the EBITDA log of a window and its totals. */
module Ebitda {
  import opened Wrappers
  import opened Seqs
  import opened StableSort
  import opened LocalTime
  import opened Grouping
  import opened PeriodAggregation
  import opened Payouts

  datatype Costs = Costs(energyUSD: real, operationalUSD: real)

  /** What the log is built from. `costsOn` gives the costs of a day and its consumption in MWh. */
  datatype Sources = Sources(daily: map<int, Day>, powerW: map<int, real>, hashrateMhs: map<int, real>,
                             dailyPrices: map<int, real>, currentBtcPrice: real, costsOn: (int, real) -> Costs)

  datatype EbitdaSummary = EbitdaSummary(totalRevenueBTC: real, totalRevenueUSD: real, totalCostsUSD: real,
                                         totalEbitdaSelling: real, totalEbitdaHodl: real,
                                         avgBtcProductionCost: Option<real>, currentBtcPrice: real,
                                         missingPriceBuckets: nat, pricingComplete: bool)

  // ---------- the days ----------

  function Digits(n: nat): string {
    if n < 10 then [('0' as int + n) as char] else Digits(n / 10) + [('0' as int + n % 10) as char]
  }

  /** A day's object key: the number in decimal. */
  function KeyText(n: int): string {
    if n < 0 then "-" + Digits(-n) else Digits(n)
  }

  predicate TextLe(a: string, b: string) {
    a == "" || (b != "" && (a[0] < b[0] || (a[0] == b[0] && TextLe(a[1..], b[1..]))))
  }

  /** The order of Array.prototype.sort without a comparator. */
  function ByText(): (int, int) -> bool {
    (a, b) => TextLe(KeyText(a), KeyText(b))
  }

  lemma {:induction false} TextLeTotal(a: string, b: string)
    ensures TextLe(a, b) || TextLe(b, a)
  {
    if a != "" && b != "" && a[0] == b[0] { TextLeTotal(a[1..], b[1..]); }
  }

  lemma {:induction false} TextLeTransitive(a: string, b: string, c: string)
    requires TextLe(a, b) && TextLe(b, c)
    ensures TextLe(a, c)
  {
    if a != "" && b != "" && c != "" && a[0] == b[0] == c[0] { TextLeTransitive(a[1..], b[1..], c[1..]); }
  }

  lemma ByTextIsPreorder()
    ensures TotalPreorder(ByText())
  {
    forall a, b
      ensures ByText()(a, b) || ByText()(b, a)
    {
      TextLeTotal(KeyText(a), KeyText(b));
    }
    forall a, b, c | ByText()(a, b) && ByText()(b, c)
      ensures ByText()(a, c)
    {
      TextLeTransitive(KeyText(a), KeyText(b), KeyText(c));
    }
  }

  function AllDays(src: Sources): set<int> {
    src.daily.Keys + src.powerW.Keys + src.hashrateMhs.Keys
  }

  /** The days once each, in the order of their keys' texts. */
  ghost predicate ListsDays(src: Sources, days: seq<int>) {
    Distinct(days) && Sorted(days, ByText()) && forall d :: d in days <==> d in AllDays(src)
  }

  method ListDays(src: Sources) returns (days: seq<int>)
    ensures ListsDays(src, days)
  {
    var rest, listed := AllDays(src), [];
    while rest != {}
      invariant rest <= AllDays(src) && Distinct(listed)
      invariant forall d :: d in listed <==> d in AllDays(src) && d !in rest
    {
      SomeMember(rest);
      var d :| d in rest;
      listed := listed + [d];
      rest := rest - {d};
    }
    ByTextIsPreorder();
    SortSorts(listed, ByText());
    SortDistinct(listed, ByText());
    days := Sort(listed, ByText());
  }

  // ---------- the log ----------

  function NumAt(m: map<int, real>, d: int): real {
    if d in m then m[d] else 0.0
  }

  function Consumption(src: Sources, d: int): real {
    NumAt(src.powerW, d) * 24.0 / 1_000_000.0
  }

  function CostsOf(src: Sources, d: int): Costs {
    src.costsOn(d, Consumption(src, d))
  }

  function TotalCosts(src: Sources, d: int): real {
    CostsOf(src, d).energyUSD + CostsOf(src, d).operationalUSD
  }

  function SafeDiv(a: real, b: real): Value {
    if b != 0.0 then Num(a / b) else Null
  }

  /** The field values of one day of the log. */
  datatype Line = Line(revenueBTC: real, payoutBTC: real, rebateBTC: real, revenueUSD: real, btcPrice: real,
                       powerW: real, hashrateMhs: real, consumptionMWh: real,
                       energyCostsUSD: real, operationalCostsUSD: real, totalCostsUSD: real,
                       ebitdaSelling: real, ebitdaHodl: real, btcProductionCost: Value, unpricedPayouts: nat)

  function LineOf(src: Sources, d: int): Line {
    var tx := if d in src.daily then src.daily[d] else NO_REVENUE;
    var costs := CostsOf(src, d);
    Line(tx.revenueBTC, tx.payoutBTC, tx.rebateBTC, tx.revenueUSD,
         FirstNonZero(tx.btcPrice, FirstNonZero(NumAt(src.dailyPrices, d), src.currentBtcPrice)),
         NumAt(src.powerW, d), NumAt(src.hashrateMhs, d), Consumption(src, d),
         costs.energyUSD, costs.operationalUSD, TotalCosts(src, d),
         tx.revenueUSD - TotalCosts(src, d), tx.revenueBTC * src.currentBtcPrice - TotalCosts(src, d),
         SafeDiv(TotalCosts(src, d), tx.revenueBTC), tx.unpricedPayouts)
  }

  function Fields(l: Line): map<string, Value> {
    map["revenueBTC" := Num(l.revenueBTC), "payoutBTC" := Num(l.payoutBTC), "rebateBTC" := Num(l.rebateBTC),
        "revenueUSD" := Num(l.revenueUSD), "btcPrice" := Num(l.btcPrice), "powerW" := Num(l.powerW),
        "hashrateMhs" := Num(l.hashrateMhs), "consumptionMWh" := Num(l.consumptionMWh),
        "energyCostsUSD" := Num(l.energyCostsUSD), "operationalCostsUSD" := Num(l.operationalCostsUSD),
        "totalCostsUSD" := Num(l.totalCostsUSD), "ebitdaSelling" := Num(l.ebitdaSelling),
        "ebitdaHodl" := Num(l.ebitdaHodl), "btcProductionCost" := l.btcProductionCost,
        "unpricedPayouts" := Num(l.unpricedPayouts as real)]
  }

  function RowOf(src: Sources, d: int): Row {
    Entry(Some(d), Fields(LineOf(src, d)))
  }

  /** One row per listed day. */
  ghost predicate IsLog(src: Sources, days: seq<int>, log: seq<Row>) {
    |log| == |days| && forall i :: 0 <= i < |days| ==> log[i] == RowOf(src, days[i])
  }

  method BuildLog(src: Sources) returns (log: seq<Row>, days: seq<int>)
    ensures ListsDays(src, days) && IsLog(src, days, log)
  {
    days := ListDays(src);
    log := [];
    for i := 0 to |days|
      invariant |log| == i && forall j :: 0 <= j < i ==> log[j] == RowOf(src, days[j])
    {
      log := log + [RowOf(src, days[i])];
    }
  }

  // ---------- what a day's row says ----------

  /** The number a row has under `k`, if it has one. */
  ghost predicate Shows(row: Row, k: string, n: real) {
    k in row.data && row.data[k] == Num(n)
  }

  /** The production cost of a coin: none without revenue, else what times the revenue makes the costs. */
  ghost predicate ShowsCost(row: Row, revenueBTC: real, totalCostsUSD: real) {
    && "btcProductionCost" in row.data
    && var v := row.data["btcProductionCost"];
       if revenueBTC == 0.0 then v == Null else v.Num? && v.n * revenueBTC == totalCostsUSD
  }

  function PowerOn(src: Sources, d: int): real {
    if d in src.powerW then src.powerW[d] else 0.0
  }

  /** The row of a day shows its power and hashrate, the megawatt-hours that power makes in 24 hours, and
      the costs of that consumption. */
  lemma DayRowShowsSupply(src: Sources, days: seq<int>, log: seq<Row>, i: nat, consumptionMWh: real)
    requires IsLog(src, days, log) && i < |days|
    requires consumptionMWh * 1_000_000.0 == 24.0 * PowerOn(src, days[i])
    ensures log[i].ts == Some(days[i]) && Shows(log[i], "powerW", PowerOn(src, days[i]))
    ensures Shows(log[i], "hashrateMhs", if days[i] in src.hashrateMhs then src.hashrateMhs[days[i]] else 0.0)
    ensures Shows(log[i], "consumptionMWh", consumptionMWh)
    ensures var costs := src.costsOn(days[i], consumptionMWh);
            Shows(log[i], "energyCostsUSD", costs.energyUSD) &&
            Shows(log[i], "operationalCostsUSD", costs.operationalUSD) &&
            Shows(log[i], "totalCostsUSD", costs.energyUSD + costs.operationalUSD)
  {
    assert Consumption(src, days[i]) == consumptionMWh;
  }

  /** It shows the revenue of the day, what was paid and what was rebated of it, its worth, and the price. */
  lemma DayRowShowsRevenue(src: Sources, days: seq<int>, log: seq<Row>, i: nat)
    requires IsLog(src, days, log) && i < |days| && days[i] in src.daily
    ensures var day := src.daily[days[i]];
            Shows(log[i], "revenueBTC", day.revenueBTC) && Shows(log[i], "payoutBTC", day.payoutBTC) &&
            Shows(log[i], "rebateBTC", day.rebateBTC) && Shows(log[i], "revenueUSD", day.revenueUSD) &&
            Shows(log[i], "unpricedPayouts", day.unpricedPayouts as real) &&
            (day.btcPrice != 0.0 ==> Shows(log[i], "btcPrice", day.btcPrice))
  {
  }

  /** A day without payouts shows no revenue, and the price of the day or else the current one. */
  lemma DayRowShowsNone(src: Sources, days: seq<int>, log: seq<Row>, i: nat)
    requires IsLog(src, days, log) && i < |days| && days[i] !in src.daily
    ensures Shows(log[i], "revenueBTC", 0.0) && Shows(log[i], "payoutBTC", 0.0) && Shows(log[i], "rebateBTC", 0.0)
    ensures Shows(log[i], "revenueUSD", 0.0) && Shows(log[i], "unpricedPayouts", 0.0)
    ensures Shows(log[i], "btcPrice",
                  if days[i] in src.dailyPrices && src.dailyPrices[days[i]] != 0.0 then src.dailyPrices[days[i]]
                  else src.currentBtcPrice)
  {
  }

  // ---------- balances that survive the rollup ----------

  /** Field `k` is `ca` times field `a` plus `cb` times field `b`. */
  datatype Balance = Balance(k: string, a: string, ca: real, b: string, cb: real)

  predicate Holds(bal: Balance, e: Row) {
    Metric(bal.k)(e) == bal.ca * Metric(bal.a)(e) + bal.cb * Metric(bal.b)(e)
  }

  predicate Summable(cfg: Config, bal: Balance) {
    IsSummed(cfg, bal.k) && IsSummed(cfg, bal.a) && IsSummed(cfg, bal.b)
  }

  lemma Distribute(ca: real, cb: real, a: real, b: real, x: real, y: real)
    ensures ca * (a + x) + cb * (b + y) == (ca * a + cb * b) + (ca * x + cb * y)
  {
    assert ca * (a + x) == ca * a + ca * x;
    assert cb * (b + y) == cb * b + cb * y;
  }

  lemma {:induction false} BalanceSums(bal: Balance, es: seq<Row>)
    requires forall e :: e in es ==> Holds(bal, e)
    ensures SumsBalance(bal, es)
  {
    if es != [] {
      var front, last := es[..|es| - 1], es[|es| - 1];
      BalanceSums(bal, front);
      assert Holds(bal, last);
      Distribute(bal.ca, bal.cb, SumOf(front, Metric(bal.a)), SumOf(front, Metric(bal.b)),
                 Metric(bal.a)(last), Metric(bal.b)(last));
    }
  }

  /** A balance that every entry of the log keeps is kept by every row of every rollup. */
  lemma BalanceCarries(z: Zone, p: Period, cfg: Config, log: seq<Row>, rows: seq<Row>, r: seq<Row>, bal: Balance)
    requires Aggregated(z, p, cfg, log, rows, r) && Summable(cfg, bal)
    requires forall e :: e in log ==> Holds(bal, e)
    ensures forall row :: row in r ==> Holds(bal, row)
  {
    SortSorts(rows, NewestFirst());
    forall row | row in r
      ensures Holds(bal, row)
    {
      assert row in multiset(r) && row in multiset(rows);
      var i :| 0 <= i < |rows| && rows[i] == row;
      RowBalance(z, p, cfg, log, KeysOf(KeyOf(z, p), log)[i], row, bal);
    }
  }

  lemma FilteredBalance(log: seq<Row>, keep: Row -> bool, bal: Balance)
    requires forall e :: e in log ==> Holds(bal, e)
    ensures SumsBalance(bal, Filter(log, keep))
  {
    forall e | e in Filter(log, keep)
      ensures Holds(bal, e)
    {
      FilterMember(log, keep, e);
    }
    BalanceSums(bal, Filter(log, keep));
  }

  lemma RowBalance(z: Zone, p: Period, cfg: Config, log: seq<Row>, key: int, row: Row, bal: Balance)
    requires RowIs(z, p, cfg, log, key, row) && Summable(cfg, bal)
    requires forall e :: e in log ==> Holds(bal, e)
    ensures Holds(bal, row)
  {
    FilteredBalance(log, InBucket(KeyOf(z, p), key), bal);
    RowMetric(z, p, cfg, log, key, row, bal.k);
    RowMetric(z, p, cfg, log, key, row, bal.a);
    RowMetric(z, p, cfg, log, key, row, bal.b);
    BalanceOfSums(bal, GroupOf(z, p, log, key), row);
  }

  lemma BalanceOfSums(bal: Balance, group: seq<Row>, row: Row)
    requires Metric(bal.k)(row) == SumOf(group, Metric(bal.k))
    requires Metric(bal.a)(row) == SumOf(group, Metric(bal.a)) && Metric(bal.b)(row) == SumOf(group, Metric(bal.b))
    requires SumsBalance(bal, group)
    ensures Holds(bal, row)
  {
  }

  /** The totals of the three fields are balanced. */
  predicate SumsBalance(bal: Balance, es: seq<Row>) {
    SumOf(es, Metric(bal.k)) == bal.ca * SumOf(es, Metric(bal.a)) + bal.cb * SumOf(es, Metric(bal.b))
  }

  function RevenueParts(): Balance {
    Balance("revenueBTC", "payoutBTC", 1.0, "rebateBTC", 1.0)
  }

  function Selling(): Balance {
    Balance("ebitdaSelling", "revenueUSD", 1.0, "totalCostsUSD", -1.0)
  }

  function Hodl(currentBtcPrice: real): Balance {
    Balance("ebitdaHodl", "revenueBTC", currentBtcPrice, "totalCostsUSD", -1.0)
  }

  function CostParts(): Balance {
    Balance("totalCostsUSD", "energyCostsUSD", 1.0, "operationalCostsUSD", 1.0)
  }

  ghost predicate DaysBalance(daily: map<int, Day>) {
    forall d :: d in daily ==> daily[d].revenueBTC == daily[d].payoutBTC + daily[d].rebateBTC
  }

  /** In every row, revenue is payouts plus rebates, costs are energy plus operations, and EBITDA is
      revenue less costs, both at the realised prices and at the current one. */
  ghost predicate Balanced(log: seq<Row>, currentBtcPrice: real) {
    forall e :: e in log ==> Holds(RevenueParts(), e) && Holds(CostParts(), e) && Holds(Selling(), e) &&
                             Holds(Hodl(currentBtcPrice), e)
  }

  lemma DayRowBalances(src: Sources, d: int)
    requires DaysBalance(src.daily)
    ensures Holds(RevenueParts(), RowOf(src, d)) && Holds(CostParts(), RowOf(src, d))
    ensures Holds(Selling(), RowOf(src, d))
    ensures Holds(Hodl(src.currentBtcPrice), RowOf(src, d))
  {
  }

  // ---------- the rollup and its totals ----------

  const EBITDA_MEANS: set<string> := {"btcPrice", "powerW", "hashrateMhs"}

  function EbitdaConfig(): Config {
    Config(NON_METRIC_KEYS + {}, EBITDA_MEANS)
  }

  lemma SummedFields()
    ensures IsSummed(EbitdaConfig(), "revenueBTC") && IsSummed(EbitdaConfig(), "revenueUSD")
    ensures IsSummed(EbitdaConfig(), "payoutBTC") && IsSummed(EbitdaConfig(), "rebateBTC")
    ensures IsSummed(EbitdaConfig(), "totalCostsUSD") && IsSummed(EbitdaConfig(), "unpricedPayouts")
    ensures IsSummed(EbitdaConfig(), "ebitdaSelling") && IsSummed(EbitdaConfig(), "ebitdaHodl")
    ensures IsSummed(EbitdaConfig(), "energyCostsUSD") && IsSummed(EbitdaConfig(), "operationalCostsUSD")
  {
  }

  lemma {:induction false} FilterAll<T>(xs: seq<T>, p: T -> bool)
    requires forall x :: x in xs ==> p(x)
    ensures Filter(xs, p) == xs
  {
    if xs != [] {
      var front, last := xs[..|xs| - 1], xs[|xs| - 1];
      assert xs == front + [last];
      FilterAll(front, p);
      assert last in xs;
    }
  }

  /** The log, daily or rolled up. */
  ghost predicate RolledUp(z: Zone, p: Period, log: seq<Row>, rows: seq<Row>, r: seq<Row>) {
    if p.Daily? then r == log else Aggregated(z, p, EbitdaConfig(), log, rows, r)
  }

  ghost predicate AllDated(log: seq<Row>) {
    forall e :: e in log ==> e.ts.Some?
  }

  lemma RollupConserves(z: Zone, p: Period, log: seq<Row>, rows: seq<Row>, r: seq<Row>, k: string)
    requires RolledUp(z, p, log, rows, r) && AllDated(log) && IsSummed(EbitdaConfig(), k)
    ensures SumOf(r, Metric(k)) == SumOf(log, Metric(k))
  {
    if !p.Daily? {
      MetricConserved(z, p, EbitdaConfig(), log, rows, r, k);
      FilterAll(log, IsDated());
    }
  }

  lemma RollupKeepsBalance(z: Zone, p: Period, log: seq<Row>, rows: seq<Row>, r: seq<Row>, bal: Balance)
    requires RolledUp(z, p, log, rows, r) && Summable(EbitdaConfig(), bal)
    requires forall e :: e in log ==> Holds(bal, e)
    ensures forall row :: row in r ==> Holds(bal, row)
    ensures SumsBalance(bal, r)
  {
    if !p.Daily? { BalanceCarries(z, p, EbitdaConfig(), log, rows, r, bal); }
    BalanceSums(bal, r);
  }

  ghost predicate TotalsOf(log: seq<Row>, s: EbitdaSummary) {
    && s.totalRevenueBTC == SumOf(log, Metric("revenueBTC"))
    && s.totalRevenueUSD == SumOf(log, Metric("revenueUSD"))
    && s.totalCostsUSD == SumOf(log, Metric("totalCostsUSD"))
    && s.totalEbitdaSelling == SumOf(log, Metric("ebitdaSelling"))
    && s.totalEbitdaHodl == SumOf(log, Metric("ebitdaHodl"))
    && (s.pricingComplete <==> s.missingPriceBuckets == 0)
  }

  /** The average cost of a bitcoin, when any was earned, spreads the costs over the revenue. */
  ghost predicate IsAverageCost(s: EbitdaSummary) {
    && (s.avgBtcProductionCost.Some? <==> s.totalRevenueBTC != 0.0)
    && (s.avgBtcProductionCost.Some? ==> s.avgBtcProductionCost.value * s.totalRevenueBTC == s.totalCostsUSD)
  }

  method CalculateEbitdaSummary(log: seq<Row>, currentBtcPrice: real, missingPriceBuckets: nat)
    returns (s: EbitdaSummary)
    ensures TotalsOf(log, s)
    ensures IsAverageCost(s)
    ensures s.currentBtcPrice == currentBtcPrice && s.missingPriceBuckets == missingPriceBuckets
  {
    if log == [] {
      return EbitdaSummary(0.0, 0.0, 0.0, 0.0, 0.0, None, currentBtcPrice, missingPriceBuckets,
                           missingPriceBuckets == 0);
    }
    var revenueBTC, revenueUSD, costsUSD, ebitdaSelling, ebitdaHodl := 0.0, 0.0, 0.0, 0.0, 0.0;
    for i := 0 to |log|
      invariant revenueBTC == SumOf(log[..i], Metric("revenueBTC"))
      invariant revenueUSD == SumOf(log[..i], Metric("revenueUSD"))
      invariant costsUSD == SumOf(log[..i], Metric("totalCostsUSD"))
      invariant ebitdaSelling == SumOf(log[..i], Metric("ebitdaSelling"))
      invariant ebitdaHodl == SumOf(log[..i], Metric("ebitdaHodl"))
    {
      assert log[..i + 1][..i] == log[..i];
      revenueBTC := revenueBTC + Metric("revenueBTC")(log[i]);
      revenueUSD := revenueUSD + Metric("revenueUSD")(log[i]);
      costsUSD := costsUSD + Metric("totalCostsUSD")(log[i]);
      ebitdaSelling := ebitdaSelling + Metric("ebitdaSelling")(log[i]);
      ebitdaHodl := ebitdaHodl + Metric("ebitdaHodl")(log[i]);
    }
    assert log[..|log|] == log;
    s := EbitdaSummary(revenueBTC, revenueUSD, costsUSD, ebitdaSelling, ebitdaHodl,
                       if revenueBTC != 0.0 then Some(costsUSD / revenueBTC) else None, currentBtcPrice,
                       missingPriceBuckets, missingPriceBuckets == 0);
  }

  /** A row's production cost, recomputed from its own totals. */
  function WithProductionCost(row: Row): Row {
    row.(data := row.data["btcProductionCost" := SafeDiv(Metric("totalCostsUSD")(row), Metric("revenueBTC")(row))])
  }

  ghost predicate Recomputed(rolled: seq<Row>, log: seq<Row>) {
    |log| == |rolled| && forall i :: 0 <= i < |log| ==> log[i] == WithProductionCost(rolled[i])
  }

  method RecomputeCosts(log: seq<Row>) returns (r: seq<Row>)
    ensures Recomputed(log, r)
  {
    r := [];
    for i := 0 to |log|
      invariant |r| == i && forall j :: 0 <= j < i ==> r[j] == WithProductionCost(log[j])
    {
      r := r + [WithProductionCost(log[i])];
    }
  }

  /** Every row of the answer, rolled up or not, shows the production cost of its own totals. */
  lemma RecomputedShowsCost(rolled: seq<Row>, log: seq<Row>, i: nat)
    requires Recomputed(rolled, log) && i < |log|
    ensures ShowsCost(log[i], Metric("revenueBTC")(log[i]), Metric("totalCostsUSD")(log[i]))
    ensures log[i].ts == rolled[i].ts
    ensures forall k :: k != "btcProductionCost" ==> Lookup(log[i].data, k) == Lookup(rolled[i].data, k)
  {
    var costs, revenue := Metric("totalCostsUSD")(rolled[i]), Metric("revenueBTC")(rolled[i]);
    if revenue != 0.0 { DividesBack(costs, revenue); }
  }

  /** Price, power and hashrate of a rolled-up row are the means over its days; every other number is
      their sum. */
  lemma RolledRowTells(z: Zone, p: Period, log: seq<Row>, key: int, row: Row, k: string, number: Row -> Option<real>)
    requires RowIs(z, p, EbitdaConfig(), log, key, row) && k !in NON_METRIC_KEYS
    requires forall e :: IsNumber(e, k, number(e))
    ensures var numbers := Filter(GroupOf(z, p, log, key), Numbered(number));
            numbers != [] ==>
              k in row.data && row.data[k].Num? &&
              if k in {"btcPrice", "powerW", "hashrateMhs"} then IsMean(row.data[k].n, numbers, NumberOf(number))
              else row.data[k].n == SumOf(numbers, NumberOf(number))
  {
    var has: Row -> bool := (e: Row) => k in e.data;
    var group := GroupOf(z, p, log, key);
    FieldTells(z, p, EbitdaConfig(), log, key, row, k, has, number);
    if Filter(group, Numbered(number)) != [] { NumberedHas(group, k, has, number); }
  }

  lemma NumberedHas(es: seq<Row>, k: string, has: Row -> bool, number: Row -> Option<real>)
    requires forall e: Row :: has(e) <==> k in e.data
    requires forall e :: IsNumber(e, k, number(e))
    ensures Filter(es, Numbered(number)) != [] ==> Filter(es, has) != []
  {
    if Filter(es, Numbered(number)) != [] {
      var e := Filter(es, Numbered(number))[0];
      FilterMember(es, Numbered(number), e);
      assert IsNumber(e, k, number(e));
      FilterMember(es, has, e);
    }
  }

  // ---------- the endpoint ----------

  /** What the parallel reads bring in. `fetch` looks recorded prices up. */
  datatype Inputs = Inputs(txs: seq<Tx>, rebates: seq<Rebate>, fetch: seq<int> -> map<int, real>,
                           dailyPrices: map<int, real>, currentBtcPrice: real,
                           powerW: map<int, real>, hashrateMhs: map<int, real>, costsOn: (int, real) -> Costs)

  function Window(start: int, end: int): Scope {
    Scope(false, Some(start), Some(end), None, None)
  }

  function PayoutsIn(q: Inputs, start: int, end: int): seq<Payout> {
    PayoutsOf(EntriesOf(Window(start, end), q.txs), q.rebates)
  }

  function PricingOf(q: Inputs, start: int, end: int): Pricing {
    Pricing(q.fetch(RequestedBuckets(PayoutsIn(q, start, end))), q.dailyPrices, q.currentBtcPrice)
  }

  function SourcesOf(q: Inputs, daily: map<int, Day>): Sources {
    Sources(daily, q.powerW, q.hashrateMhs, q.dailyPrices, q.currentBtcPrice, q.costsOn)
  }

  /** The stages of one request: priced days, their listing, the daily log and its rollup. */
  datatype Run = Run(daily: map<int, Day>, days: seq<int>, base: seq<Row>, rows: seq<Row>, rolled: seq<Row>)

  ghost predicate RunOf(q: Inputs, start: int, end: int, z: Zone, p: Period, missing: nat, run: Run) {
    && Priced(PricingOf(q, start, end), z, false, PayoutsIn(q, start, end), run.daily, missing)
    && ListsDays(SourcesOf(q, run.daily), run.days) && IsLog(SourcesOf(q, run.daily), run.days, run.base)
    && RolledUp(z, p, run.base, run.rows, run.rolled)
  }

  function DayCosts(src: Sources): int -> real {
    d => TotalCosts(src, d)
  }

  lemma LogSums(src: Sources, days: seq<int>, log: seq<Row>)
    requires IsLog(src, days, log)
    ensures SumOf(log, Metric("revenueBTC")) == SumOf(days, DayRevenue(src.daily))
    ensures SumOf(log, Metric("revenueUSD")) == SumOf(days, DayRevenueUSD(src.daily))
    ensures SumOf(log, Metric("unpricedPayouts")) == SumOf(days, DayUnpriced(src.daily))
    ensures SumOf(log, Metric("totalCostsUSD")) == SumOf(days, DayCosts(src))
  {
    forall i | 0 <= i < |log|
      ensures Metric("revenueBTC")(log[i]) == DayRevenue(src.daily)(days[i])
      ensures Metric("revenueUSD")(log[i]) == DayRevenueUSD(src.daily)(days[i])
      ensures Metric("unpricedPayouts")(log[i]) == DayUnpriced(src.daily)(days[i])
      ensures Metric("totalCostsUSD")(log[i]) == DayCosts(src)(days[i])
    {
    }
    SumOfPaired(log, days, Metric("revenueBTC"), DayRevenue(src.daily));
    SumOfPaired(log, days, Metric("revenueUSD"), DayRevenueUSD(src.daily));
    SumOfPaired(log, days, Metric("unpricedPayouts"), DayUnpriced(src.daily));
    SumOfPaired(log, days, Metric("totalCostsUSD"), DayCosts(src));
  }

  lemma LogKeepsBalances(src: Sources, days: seq<int>, log: seq<Row>)
    requires IsLog(src, days, log) && DaysBalance(src.daily)
    ensures Balanced(log, src.currentBtcPrice)
  {
    forall e | e in log
      ensures Holds(RevenueParts(), e) && Holds(CostParts(), e) && Holds(Selling(), e) &&
              Holds(Hodl(src.currentBtcPrice), e)
    {
      var i :| 0 <= i < |log| && log[i] == e;
      DayRowBalances(src, days[i]);
    }
  }

  lemma PricedDaysBalance(pr: Pricing, z: Zone, ps: seq<Payout>, daily: map<int, Day>, missing: nat)
    requires Priced(pr, z, false, ps, daily, missing)
    ensures DaysBalance(daily)
  {
    forall d | d in daily
      ensures daily[d].revenueBTC == daily[d].payoutBTC + daily[d].rebateBTC
    {
      DayBalances(pr, z, false, ps, daily, missing, d);
    }
  }

  lemma LogDated(src: Sources, days: seq<int>, log: seq<Row>)
    requires IsLog(src, days, log)
    ensures AllDated(log)
  {
  }

  /** The rolled-up log holds the revenue, unpriced counts and costs of the days, whatever the period. */
  lemma RunSums(q: Inputs, start: int, end: int, z: Zone, p: Period, missing: nat, run: Run)
    requires RunOf(q, start, end, z, p, missing, run)
    ensures SumOf(run.rolled, Metric("revenueBTC")) == SumOf(run.days, DayRevenue(run.daily))
    ensures SumOf(run.rolled, Metric("revenueUSD")) == SumOf(run.days, DayRevenueUSD(run.daily))
    ensures SumOf(run.rolled, Metric("unpricedPayouts")) == SumOf(run.days, DayUnpriced(run.daily))
    ensures SumOf(run.rolled, Metric("totalCostsUSD")) == SumOf(run.days, DayCosts(SourcesOf(q, run.daily)))
  {
    SummedFields();
    LogSums(SourcesOf(q, run.daily), run.days, run.base);
    LogDated(SourcesOf(q, run.daily), run.days, run.base);
    RollupConserves(z, p, run.base, run.rows, run.rolled, "revenueBTC");
    RollupConserves(z, p, run.base, run.rows, run.rolled, "revenueUSD");
    RollupConserves(z, p, run.base, run.rows, run.rolled, "unpricedPayouts");
    RollupConserves(z, p, run.base, run.rows, run.rolled, "totalCostsUSD");
  }

  lemma SummableBalances(currentBtcPrice: real)
    ensures Summable(EbitdaConfig(), RevenueParts()) && Summable(EbitdaConfig(), CostParts())
    ensures Summable(EbitdaConfig(), Selling())
    ensures Summable(EbitdaConfig(), Hodl(currentBtcPrice))
  {
    SummedFields();
  }

  lemma RunBalances(q: Inputs, start: int, end: int, z: Zone, p: Period, missing: nat, run: Run)
    requires RunOf(q, start, end, z, p, missing, run)
    ensures Balanced(run.rolled, q.currentBtcPrice)
  {
    PricedDaysBalance(PricingOf(q, start, end), z, PayoutsIn(q, start, end), run.daily, missing);
    LogKeepsBalances(SourcesOf(q, run.daily), run.days, run.base);
    SummableBalances(q.currentBtcPrice);
    RollupKeepsBalance(z, p, run.base, run.rows, run.rolled, RevenueParts());
    RollupKeepsBalance(z, p, run.base, run.rows, run.rolled, CostParts());
    RollupKeepsBalance(z, p, run.base, run.rows, run.rolled, Selling());
    RollupKeepsBalance(z, p, run.base, run.rows, run.rolled, Hodl(q.currentBtcPrice));
  }

  /** The money of a request that its summary must account for. */
  function RevenueIn(q: Inputs, start: int, end: int): real {
    SumOf(Filter(q.txs, Counted(Window(start, end))), TxAmount()) +
    SumOf(Filter(q.rebates, ValidRebate()), RebateAmount())
  }

  function UnpricedIn(log: seq<Row>): real {
    SumOf(log, Metric("unpricedPayouts"))
  }

  /** That money, whoever finds the transactions of the window and the valid rebates: from the instant
      `start` to the instant `end`, both included. */
  lemma RevenueInTells(q: Inputs, start: int, end: int, inWindow: Tx -> bool, valid: Rebate -> bool,
                       rebated: Rebate -> real)
    requires forall t :: inWindow(t) <==> RawMs(t) != 0 && start <= RawMs(t) <= end
    requires forall r :: valid(r) <==> r.ts.Some? && r.amountBTC.Some?
    requires forall r: Rebate :: r.amountBTC.Some? ==> rebated(r) == r.amountBTC.value
    ensures RevenueIn(q, start, end) ==
            SumOf(Filter(q.txs, inWindow), TxAmount()) + SumOf(Filter(q.rebates, valid), rebated)
  {
    FilterAgree(q.txs, inWindow, Counted(Window(start, end)));
    FilterAgree(q.rebates, valid, ValidRebate());
    forall r | r in Filter(q.rebates, valid)
      ensures rebated(r) == RebateAmount()(r)
    {
      FilterMember(q.rebates, valid, r);
    }
    SumOfAgree(Filter(q.rebates, valid), rebated, RebateAmount());
  }

  /** Every daily row shows what the parallel reads brought for its day. */
  lemma DailyRowShows(q: Inputs, start: int, end: int, z: Zone, p: Period, missing: nat, run: Run, i: nat, powerW: real,
                      consumptionMWh: real)
    requires RunOf(q, start, end, z, p, missing, run) && i < |run.days|
    requires powerW == if run.days[i] in q.powerW then q.powerW[run.days[i]] else 0.0
    requires consumptionMWh * 1_000_000.0 == 24.0 * powerW
    ensures i < |run.base| && run.base[i].ts == Some(run.days[i]) && Shows(run.base[i], "powerW", powerW)
    ensures Shows(run.base[i], "hashrateMhs",
                  if run.days[i] in q.hashrateMhs then q.hashrateMhs[run.days[i]] else 0.0)
    ensures Shows(run.base[i], "consumptionMWh", consumptionMWh)
    ensures var costs := q.costsOn(run.days[i], consumptionMWh);
            Shows(run.base[i], "energyCostsUSD", costs.energyUSD) &&
            Shows(run.base[i], "operationalCostsUSD", costs.operationalUSD)
  {
    DayRowShowsSupply(SourcesOf(q, run.daily), run.days, run.base, i, consumptionMWh);
  }

  lemma RevenueBtcConserved(q: Inputs, start: int, end: int, z: Zone, p: Period, missing: nat, run: Run)
    requires RunOf(q, start, end, z, p, missing, run)
    ensures SumOf(run.rolled, Metric("revenueBTC")) == RevenueIn(q, start, end)
  {
    RunSums(q, start, end, z, p, missing, run);
    DaysAccount(q, start, end, z, missing, run.daily, run.days);
    PayoutsConserve(Window(start, end), q.txs, q.rebates);
  }

  lemma RevenueUsdConserved(q: Inputs, start: int, end: int, z: Zone, p: Period, missing: nat, run: Run)
    requires RunOf(q, start, end, z, p, missing, run)
    ensures SumOf(run.rolled, Metric("revenueUSD")) ==
            SumOf(PayoutsIn(q, start, end), UsdOf(PricingOf(q, start, end), z))
    ensures missing == 0 <==> UnpricedIn(run.rolled) == 0.0
  {
    RunSums(q, start, end, z, p, missing, run);
    DaysAccount(q, start, end, z, missing, run.daily, run.days);
  }

  /** Revenue is conserved end to end: the total is what the counted transactions and the valid
      rebates brought in, in BTC and at each payout's own price; and pricing is complete exactly
      when the log counts no unpriced payout. */
  lemma RevenueConserved(q: Inputs, start: int, end: int, z: Zone, p: Period, missing: nat, run: Run)
    requires RunOf(q, start, end, z, p, missing, run)
    ensures SumOf(run.rolled, Metric("revenueBTC")) == RevenueIn(q, start, end)
    ensures SumOf(run.rolled, Metric("revenueUSD")) ==
            SumOf(PayoutsIn(q, start, end), UsdOf(PricingOf(q, start, end), z))
    ensures missing == 0 <==> UnpricedIn(run.rolled) == 0.0
  {
    RevenueBtcConserved(q, start, end, z, p, missing, run);
    RevenueUsdConserved(q, start, end, z, p, missing, run);
  }

  /** The listed days hold all payouts, and count as many unpriced ones as there are. */
  lemma DaysAccount(q: Inputs, start: int, end: int, z: Zone, missing: nat, daily: map<int, Day>, days: seq<int>)
    requires Priced(PricingOf(q, start, end), z, false, PayoutsIn(q, start, end), daily, missing)
    requires ListsDays(SourcesOf(q, daily), days)
    ensures SumOf(days, DayRevenue(daily)) == SumOf(PayoutsIn(q, start, end), AmountOf())
    ensures SumOf(days, DayRevenueUSD(daily)) == SumOf(PayoutsIn(q, start, end), UsdOf(PricingOf(q, start, end), z))
    ensures missing == 0 <==> SumOf(days, DayUnpriced(daily)) == 0.0
  {
    var pr, ps := PricingOf(q, start, end), PayoutsIn(q, start, end);
    DaysHoldAllPayouts(pr, z, false, ps, daily, missing, days);
    PricingCompleteExactly(pr, z, false, ps, daily, missing, days);
  }

  /** Rewriting the production costs changes no other field. */
  lemma RecomputedKeeps(rolled: seq<Row>, log: seq<Row>, currentBtcPrice: real)
    requires Recomputed(rolled, log) && Balanced(rolled, currentBtcPrice)
    ensures Balanced(log, currentBtcPrice)
  {
    forall row | row in log
      ensures Holds(RevenueParts(), row) && Holds(CostParts(), row) && Holds(Selling(), row) &&
              Holds(Hodl(currentBtcPrice), row)
    {
      var i :| 0 <= i < |log| && log[i] == row;
      assert rolled[i] in rolled;
      RecomputedHolds(rolled[i], RevenueParts());
      RecomputedHolds(rolled[i], CostParts());
      RecomputedHolds(rolled[i], Selling());
      RecomputedHolds(rolled[i], Hodl(currentBtcPrice));
    }
  }

  lemma RecomputedHolds(row: Row, bal: Balance)
    requires Holds(bal, row) && "btcProductionCost" !in {bal.k, bal.a, bal.b}
    ensures Holds(bal, WithProductionCost(row))
  {
  }

  lemma RecomputedSums(rolled: seq<Row>, log: seq<Row>)
    requires Recomputed(rolled, log)
    ensures SumOf(log, Metric("revenueBTC")) == SumOf(rolled, Metric("revenueBTC"))
    ensures SumOf(log, Metric("revenueUSD")) == SumOf(rolled, Metric("revenueUSD"))
    ensures SumOf(log, Metric("totalCostsUSD")) == SumOf(rolled, Metric("totalCostsUSD"))
    ensures SumOf(log, Metric("unpricedPayouts")) == SumOf(rolled, Metric("unpricedPayouts"))
  {
  }

  /** Both EBITDA totals are the revenue, at its own prices or at the current one, less the costs. */
  ghost predicate EbitdaBalances(s: EbitdaSummary, currentBtcPrice: real) {
    && s.totalEbitdaSelling == s.totalRevenueUSD - s.totalCostsUSD
    && s.totalEbitdaHodl == s.totalRevenueBTC * currentBtcPrice - s.totalCostsUSD
  }

  lemma TotalsBalance(log: seq<Row>, currentBtcPrice: real, s: EbitdaSummary)
    requires TotalsOf(log, s) && Balanced(log, currentBtcPrice)
    ensures EbitdaBalances(s, currentBtcPrice)
  {
    BalanceSums(Selling(), log);
    BalanceSums(Hodl(currentBtcPrice), log);
  }

  /** The summary accounts for all revenue of the request, all costs, and all missing prices. */
  ghost predicate Accounts(q: Inputs, start: int, end: int, z: Zone, run: Run, log: seq<Row>, s: EbitdaSummary) {
    && s.totalRevenueBTC == RevenueIn(q, start, end)
    && s.totalRevenueUSD == SumOf(PayoutsIn(q, start, end), UsdOf(PricingOf(q, start, end), z))
    && s.totalCostsUSD == SumOf(run.days, DayCosts(SourcesOf(q, run.daily)))
    && (s.pricingComplete <==> UnpricedIn(log) == 0.0)
  }

  lemma RunTotals(q: Inputs, start: int, end: int, z: Zone, p: Period, run: Run, log: seq<Row>, s: EbitdaSummary)
    requires RunOf(q, start, end, z, p, s.missingPriceBuckets, run) && Recomputed(run.rolled, log) && TotalsOf(log, s)
    ensures Accounts(q, start, end, z, run, log, s)
  {
    RunCarries(q, start, end, z, p, s.missingPriceBuckets, run);
    RecomputedSums(run.rolled, log);
  }

  /** The sums of the rolled-up rows are those of the request. */
  ghost predicate Carries(q: Inputs, start: int, end: int, z: Zone, missing: nat, run: Run) {
    && SumOf(run.rolled, Metric("revenueBTC")) == RevenueIn(q, start, end)
    && SumOf(run.rolled, Metric("revenueUSD")) == SumOf(PayoutsIn(q, start, end), UsdOf(PricingOf(q, start, end), z))
    && SumOf(run.rolled, Metric("totalCostsUSD")) == SumOf(run.days, DayCosts(SourcesOf(q, run.daily)))
    && (missing == 0 <==> UnpricedIn(run.rolled) == 0.0)
  }

  lemma RunCarries(q: Inputs, start: int, end: int, z: Zone, p: Period, missing: nat, run: Run)
    requires RunOf(q, start, end, z, p, missing, run)
    ensures Carries(q, start, end, z, missing, run)
  {
    RevenueConserved(q, start, end, z, p, missing, run);
    CostsConserved(q, start, end, z, p, missing, run);
  }

  lemma CostsConserved(q: Inputs, start: int, end: int, z: Zone, p: Period, missing: nat, run: Run)
    requires RunOf(q, start, end, z, p, missing, run)
    ensures SumOf(run.rolled, Metric("totalCostsUSD")) == SumOf(run.days, DayCosts(SourcesOf(q, run.daily)))
  {
    RunSums(q, start, end, z, p, missing, run);
  }

  lemma RunStaysBalanced(q: Inputs, start: int, end: int, z: Zone, p: Period, missing: nat, run: Run, log: seq<Row>)
    requires RunOf(q, start, end, z, p, missing, run) && Recomputed(run.rolled, log)
    ensures Balanced(log, q.currentBtcPrice)
  {
    RunBalances(q, start, end, z, p, missing, run);
    RecomputedKeeps(run.rolled, log, q.currentBtcPrice);
  }

  method PricedDays(q: Inputs, start: int, end: int, z: Zone) returns (daily: map<int, Day>, missing: nat)
    ensures Priced(PricingOf(q, start, end), z, false, PayoutsIn(q, start, end), daily, missing)
  {
    var btcDays, txEntries := ProcessTransactions(q.txs, Window(start, end), z);
    daily, missing := PriceDailyRevenue(txEntries, q.rebates, q.fetch, q.dailyPrices, q.currentBtcPrice, z, false);
  }

  method RollUp(log: seq<Row>, period: Period, z: Zone) returns (r: seq<Row>, ghost rows: seq<Row>)
    ensures RolledUp(z, period, log, rows, r)
  {
    r, rows := AggregateByPeriod(log, period, {}, EBITDA_MEANS, z);
  }

  method GetEbitda(q: Inputs, start: int, end: int, z: Zone, period: Period)
    returns (log: seq<Row>, summary: EbitdaSummary, ghost run: Run)
    ensures RunOf(q, start, end, z, period, summary.missingPriceBuckets, run) && Recomputed(run.rolled, log)
    ensures Accounts(q, start, end, z, run, log, summary)
    ensures EbitdaBalances(summary, q.currentBtcPrice) && Balanced(log, q.currentBtcPrice)
    ensures IsAverageCost(summary) && summary.currentBtcPrice == q.currentBtcPrice
  {
    var daily, missing := PricedDays(q, start, end, z);
    var base, days := BuildLog(SourcesOf(q, daily));
    var rolled, rows := RollUp(base, period, z);
    log := RecomputeCosts(rolled);
    summary := CalculateEbitdaSummary(log, q.currentBtcPrice, missing);
    run := Run(daily, days, base, rows, rolled);
    RunTotals(q, start, end, z, period, run, log, summary);
    RunStaysBalanced(q, start, end, z, period, missing, run, log);
    TotalsBalance(log, q.currentBtcPrice, summary);
  }
}
