/** workers/lib/server/handlers/finance.utils.js: the payouts of a window, and what they were worth. */
module Payouts {
  import opened Wrappers
  import opened Seqs
  import opened StableSort
  import opened LocalTime

  const BTC_SATS: real := 100_000_000.0
  const PRICE_BUCKET_MS: int := 300_000
  const MAX_PRICE_BUCKETS_PER_REQUEST: nat := 5000

  // ---------- transactions ----------

  /** A timestamp as a pool reports it. For a text, what Number() and Date.parse make of it. */
  datatype Stamp = Missing | Number(n: int) | Text(numeric: Option<int>, parsed: Option<int>)

  /** Absent numbers are zero: the code tells the two apart nowhere. */
  datatype Tx = Tx(username: string, miningDate: Stamp, ts: Stamp, createdAt: Stamp, timestamp: Stamp, time: Stamp,
                   satoshisNetEarned: real, feesCollectedSatoshis: real, feesColectedSatoshis: real,
                   changedBalance: real, amount: real, value: real, txFee: real)

  datatype Scope = Scope(trackFees: bool, start: Option<int>, end: Option<int>,
                         usernames: Option<set<string>>, excludeUsernames: Option<set<string>>)

  datatype TxEntry = TxEntry(ts: int, amountBTC: real, feeBTC: real)

  datatype BtcDay = BtcDay(revenueBTC: real, feesBTC: Option<real>)

  function OrElse(a: Stamp, b: Stamp): Stamp {
    if a.Missing? || a == Number(0) then b else a
  }

  function NormalizeNumber(n: int): int {
    if n < 1_000_000_000_000 then n * 1000 else n
  }

  function NormalizeTimestampMs(ts: Stamp): int {
    match ts
    case Missing => 0
    case Number(n) => NormalizeNumber(n)
    case Text(Some(n), _) => NormalizeNumber(n)
    case Text(None, parsed) => if parsed.Some? then parsed.value else 0
  }

  function RawMs(t: Tx): int {
    NormalizeTimestampMs(OrElse(t.miningDate, OrElse(t.ts, OrElse(t.createdAt, OrElse(t.timestamp, t.time)))))
  }

  predicate InScope(s: Scope, username: string) {
    && (s.usernames.Some? ==> username in s.usernames.value)
    && (s.excludeUsernames.Some? ==> username !in s.excludeUsernames.value)
  }

  predicate InWindow(s: Scope, ms: int) {
    ms != 0 && (s.start.Some? ==> s.start.value <= ms) && (s.end.Some? ==> ms <= s.end.value)
  }

  /** Whether a transaction counts: its account is in scope and its own date in the window. */
  function Counted(s: Scope): Tx -> bool {
    (t: Tx) => InScope(s, t.username) && InWindow(s, RawMs(t))
  }

  function Abs(x: real): real {
    if x < 0.0 then -x else x
  }

  function FirstNonZero(a: real, b: real): real {
    if a != 0.0 then a else b
  }

  function TxAmount(): Tx -> real {
    (t: Tx) =>
      if t.satoshisNetEarned != 0.0 then Abs(t.satoshisNetEarned) / BTC_SATS
      else Abs(FirstNonZero(t.changedBalance, FirstNonZero(t.amount, t.value)))
  }

  function TxFee(): Tx -> real {
    (t: Tx) =>
      if t.satoshisNetEarned != 0.0 then FirstNonZero(t.feesCollectedSatoshis, t.feesColectedSatoshis) / BTC_SATS
      else t.txFee
  }

  function EntryOf(t: Tx): TxEntry {
    TxEntry(RawMs(t), TxAmount()(t), TxFee()(t))
  }

  /** The entries of the counted transactions, in order. */
  function EntriesOf(s: Scope, txs: seq<Tx>): seq<TxEntry> {
    if txs == [] then []
    else EntriesOf(s, txs[..|txs| - 1]) + if Counted(s)(txs[|txs| - 1]) then [EntryOf(txs[|txs| - 1])] else []
  }

  function EntryAmount(): TxEntry -> real {
    (e: TxEntry) => e.amountBTC
  }

  function EntryFee(): TxEntry -> real {
    (e: TxEntry) => e.feeBTC
  }

  function EntryDay(z: Zone): TxEntry -> int {
    (e: TxEntry) => LocalDayStart(z, e.ts)
  }

  function BtcDayOf(s: Scope, es: seq<TxEntry>): Option<BtcDay> {
    if es == [] then None
    else Some(BtcDay(SumOf(es, EntryAmount()), if s.trackFees then Some(SumOf(es, EntryFee())) else None))
  }

  function At<V>(m: map<int, V>, k: int): Option<V> {
    if k in m then Some(m[k]) else None
  }

  /** Each day holds the sums over its own entries, and only days with entries are there. */
  ghost predicate Bucketed(s: Scope, z: Zone, es: seq<TxEntry>, daily: map<int, BtcDay>) {
    forall d :: At(daily, d) == BtcDayOf(s, Filter(es, HasKey(EntryDay(z), d)))
  }

  function Bump(s: Scope, day: Option<BtcDay>, e: TxEntry): BtcDay {
    var was := if day.Some? then day.value else BtcDay(0.0, if s.trackFees then Some(0.0) else None);
    BtcDay(was.revenueBTC + e.amountBTC, if was.feesBTC.Some? then Some(was.feesBTC.value + e.feeBTC) else None)
  }

  lemma BumpIsNext(s: Scope, es: seq<TxEntry>, e: TxEntry)
    ensures BtcDayOf(s, es + [e]) == Some(Bump(s, BtcDayOf(s, es), e))
  {
    SumOfSnoc(es, e, EntryAmount());
    SumOfSnoc(es, e, EntryFee());
    assert es == [] ==> SumOf(es, EntryAmount()) == 0.0 && SumOf(es, EntryFee()) == 0.0;
  }

  lemma FilterSnoc<T>(xs: seq<T>, x: T, p: T -> bool)
    ensures Filter(xs + [x], p) == Filter(xs, p) + if p(x) then [x] else []
  {
    assert (xs + [x])[..|xs|] == xs;
  }

  lemma BucketDayOneMore(s: Scope, z: Zone, es: seq<TxEntry>, e: TxEntry, d: int)
    ensures BtcDayOf(s, Filter(es + [e], HasKey(EntryDay(z), d))) ==
            var was := BtcDayOf(s, Filter(es, HasKey(EntryDay(z), d)));
            if d == LocalDayStart(z, e.ts) then Some(Bump(s, was, e)) else was
  {
    FilterSnoc(es, e, HasKey(EntryDay(z), d));
    if d == LocalDayStart(z, e.ts) {
      BumpIsNext(s, Filter(es, HasKey(EntryDay(z), d)), e);
    } else {
      assert Filter(es + [e], HasKey(EntryDay(z), d)) == Filter(es, HasKey(EntryDay(z), d));
    }
  }

  lemma BucketOneMore(s: Scope, z: Zone, es: seq<TxEntry>, e: TxEntry, daily: map<int, BtcDay>)
    requires Bucketed(s, z, es, daily)
    ensures var d := LocalDayStart(z, e.ts); Bucketed(s, z, es + [e], daily[d := Bump(s, At(daily, d), e)])
  {
    var day := LocalDayStart(z, e.ts);
    var daily' := daily[day := Bump(s, At(daily, day), e)];
    forall d
      ensures At(daily', d) == BtcDayOf(s, Filter(es + [e], HasKey(EntryDay(z), d)))
    {
      BucketDayOneMore(s, z, es, e, d);
      assert At(daily, d) == BtcDayOf(s, Filter(es, HasKey(EntryDay(z), d)));
    }
  }

  method ProcessTransactions(txs: seq<Tx>, s: Scope, z: Zone) returns (daily: map<int, BtcDay>, txEntries: seq<TxEntry>)
    ensures txEntries == EntriesOf(s, txs)
    ensures Bucketed(s, z, txEntries, daily)
  {
    daily, txEntries := map[], [];
    for i := 0 to |txs|
      invariant txEntries == EntriesOf(s, txs[..i])
      invariant Bucketed(s, z, txEntries, daily)
    {
      var t := txs[i];
      assert txs[..i + 1][..i] == txs[..i];
      if s.usernames.Some? && t.username !in s.usernames.value { continue; }
      if s.excludeUsernames.Some? && t.username in s.excludeUsernames.value { continue; }
      var rawMs := RawMs(t);
      if !InWindow(s, rawMs) { continue; }
      var ts := LocalDayStart(z, rawMs);
      var e := EntryOf(t);
      BucketOneMore(s, z, txEntries, e, daily);
      daily := daily[ts := Bump(s, At(daily, ts), e)];
      txEntries := txEntries + [e];
    }
    assert txs[..|txs|] == txs;
  }

  /** The entries carry exactly the amounts of the transactions that count. */
  lemma {:induction false} EntriesConserve(s: Scope, txs: seq<Tx>)
    ensures SumOf(EntriesOf(s, txs), EntryAmount()) == SumOf(Filter(txs, Counted(s)), TxAmount())
  {
    if txs != [] {
      var front, last := txs[..|txs| - 1], txs[|txs| - 1];
      EntriesConserve(s, front);
      if Counted(s)(last) {
        assert (EntriesOf(s, front) + [EntryOf(last)])[..|EntriesOf(s, front)|] == EntriesOf(s, front);
        assert (Filter(front, Counted(s)) + [last])[..|Filter(front, Counted(s))|] == Filter(front, Counted(s));
      } else {
        assert EntriesOf(s, txs) == EntriesOf(s, front);
        assert Filter(txs, Counted(s)) == Filter(front, Counted(s));
      }
    }
  }

  // ---------- what an entry says of its transaction ----------

  /** The amount and the fee of a transaction: of one that earned satoshis, these in bitcoin, 100 million
      to the coin; of any other, the first of its three amounts that is not zero, and its own fee. Amounts
      are never negative. */
  ghost predicate IsWorth(t: Tx, amountBTC: real, feeBTC: real) {
    && amountBTC >= 0.0
    && if t.satoshisNetEarned != 0.0 then
         && (amountBTC * 100_000_000.0 == t.satoshisNetEarned || amountBTC * 100_000_000.0 == -t.satoshisNetEarned)
         && feeBTC * 100_000_000.0 ==
            (if t.feesCollectedSatoshis != 0.0 then t.feesCollectedSatoshis else t.feesColectedSatoshis)
       else
         var given := if t.changedBalance != 0.0 then t.changedBalance else if t.amount != 0.0 then t.amount
                      else t.value;
         (amountBTC == given || amountBTC == -given) && feeBTC == t.txFee
  }

  /** Neither missing nor zero. */
  predicate Given(s: Stamp) {
    s != Missing && s != Number(0)
  }

  /** The moment of a transaction: the first of its dates that is given, in milliseconds; a number below
      10^12 counts seconds. */
  ghost predicate IsMoment(dates: seq<Stamp>, ms: int) {
    forall i, n :: 0 <= i < |dates| && Given(dates[i]) && (forall j :: 0 <= j < i ==> !Given(dates[j])) ==>
      && (dates[i] == Number(n) || (dates[i].Text? && dates[i].numeric == Some(n)) ==>
           ms == if n < 1_000_000_000_000 then 1000 * n else n)
      && (dates[i].Text? && dates[i].numeric.None? && dates[i].parsed == Some(n) ==> ms == n)
  }

  lemma MomentIs(t: Tx)
    ensures IsMoment([t.miningDate, t.ts, t.createdAt, t.timestamp, t.time], RawMs(t))
  {
    var dates := [t.miningDate, t.ts, t.createdAt, t.timestamp, t.time];
    forall i, n | 0 <= i < |dates| && Given(dates[i]) && (forall j :: 0 <= j < i ==> !Given(dates[j]))
      ensures dates[i] == Number(n) || (dates[i].Text? && dates[i].numeric == Some(n)) ==>
                RawMs(t) == if n < 1_000_000_000_000 then 1000 * n else n
      ensures dates[i].Text? && dates[i].numeric.None? && dates[i].parsed == Some(n) ==> RawMs(t) == n
    {
      FirstDate(t, i);
      assert OrElse(dates[i], Missing) == dates[i];
    }
  }

  lemma FirstDate(t: Tx, i: nat)
    requires i < 5
    requires var dates := [t.miningDate, t.ts, t.createdAt, t.timestamp, t.time];
             Given(dates[i]) && forall j :: 0 <= j < i ==> !Given(dates[j])
    ensures RawMs(t) == NormalizeTimestampMs([t.miningDate, t.ts, t.createdAt, t.timestamp, t.time][i])
  {
    var dates := [t.miningDate, t.ts, t.createdAt, t.timestamp, t.time];
    assert i > 0 ==> !Given(dates[0]);
    assert i > 1 ==> !Given(dates[1]);
    assert i > 2 ==> !Given(dates[2]);
    assert i > 3 ==> !Given(dates[3]);
  }

  lemma WorthIs(t: Tx)
    ensures IsWorth(t, TxAmount()(t), TxFee()(t))
  {
    if t.satoshisNetEarned != 0.0 {
      OverCoin(Abs(t.satoshisNetEarned));
      OverCoin(FirstNonZero(t.feesCollectedSatoshis, t.feesColectedSatoshis));
    }
  }

  lemma OverCoin(sats: real)
    ensures sats / BTC_SATS * 100_000_000.0 == sats && (sats >= 0.0 ==> sats / BTC_SATS >= 0.0)
  {
  }

  /** The entries are those of the transactions in scope whose moment is in the window, in order, each
      with the moment and the worth of its transaction. */
  lemma {:induction false} EntriesTell(s: Scope, txs: seq<Tx>, counted: Tx -> bool, i: nat)
    requires forall t :: counted(t) <==>
               && (s.usernames.Some? ==> t.username in s.usernames.value)
               && (s.excludeUsernames.Some? ==> t.username !in s.excludeUsernames.value)
               && RawMs(t) != 0 && (s.start.Some? ==> s.start.value <= RawMs(t))
               && (s.end.Some? ==> RawMs(t) <= s.end.value)
    ensures |EntriesOf(s, txs)| == |Filter(txs, counted)|
    ensures i < |Filter(txs, counted)| ==>
              var e, t := EntriesOf(s, txs)[i], Filter(txs, counted)[i];
              IsMoment([t.miningDate, t.ts, t.createdAt, t.timestamp, t.time], e.ts) && e.ts == RawMs(t) &&
              IsWorth(t, e.amountBTC, e.feeBTC)
  {
    if txs != [] {
      var front, last := txs[..|txs| - 1], txs[|txs| - 1];
      EntriesTell(s, front, counted, i);
      assert counted(last) == Counted(s)(last);
      MomentIs(last);
      WorthIs(last);
    }
  }

  function RevenueAt(daily: map<int, BtcDay>): int -> real {
    d => if d in daily then daily[d].revenueBTC else 0.0
  }

  /** The day buckets hold the whole of the counted amounts, however their days are listed. */
  lemma BucketsConserve(s: Scope, z: Zone, txs: seq<Tx>, daily: map<int, BtcDay>, days: seq<int>)
    requires Bucketed(s, z, EntriesOf(s, txs), daily)
    requires Distinct(days) && forall d :: d in daily ==> d in days
    ensures SumOf(days, RevenueAt(daily)) == SumOf(Filter(txs, Counted(s)), TxAmount())
  {
    var es := EntriesOf(s, txs);
    forall e | e in es
      ensures EntryDay(z)(e) in days
    {
      var d := EntryDay(z)(e);
      FilterMember(es, HasKey(EntryDay(z), d), e);
      assert At(daily, d) == BtcDayOf(s, Filter(es, HasKey(EntryDay(z), d)));
    }
    forall d | d in days
      ensures RevenueAt(daily)(d) == GroupSum(es, EntryDay(z), EntryAmount())(d)
    {
      assert At(daily, d) == BtcDayOf(s, Filter(es, HasKey(EntryDay(z), d)));
    }
    SumOfAgree(days, RevenueAt(daily), GroupSum(es, EntryDay(z), EntryAmount()));
    SumByGroups(es, EntryDay(z), EntryAmount(), days);
    EntriesConserve(s, txs);
  }

  // ---------- payouts and their prices ----------

  /** `ts`, `amountBTC` and `priceUSD` are None where the code finds no finite number. */
  datatype Rebate = Rebate(ts: Option<int>, amountBTC: Option<real>, priceUSD: Option<real>)

  datatype Payout = Payout(ts: int, amountBTC: real, feeBTC: real, storedPriceUSD: Option<real>, isRebate: bool)

  function ValidRebate(): Rebate -> bool {
    (r: Rebate) => r.ts.Some? && r.amountBTC.Some?
  }

  function RebateAmount(): Rebate -> real {
    (r: Rebate) => if r.amountBTC.Some? then r.amountBTC.value else 0.0
  }

  function FromEntries(es: seq<TxEntry>): seq<Payout> {
    if es == [] then []
    else
      var e := es[|es| - 1];
      FromEntries(es[..|es| - 1]) + [Payout(e.ts, e.amountBTC, e.feeBTC, None, false)]
  }

  function FromRebates(rs: seq<Rebate>): seq<Payout> {
    if rs == [] then []
    else
      var r := rs[|rs| - 1];
      FromRebates(rs[..|rs| - 1])
      + if ValidRebate()(r) then [Payout(r.ts.value, r.amountBTC.value, 0.0, r.priceUSD, true)] else []
  }

  function PayoutsOf(es: seq<TxEntry>, rs: seq<Rebate>): seq<Payout> {
    FromEntries(es) + FromRebates(rs)
  }

  function AmountOf(): Payout -> real {
    (p: Payout) => p.amountBTC
  }

  function FeeOf(): Payout -> real {
    (p: Payout) => p.feeBTC
  }

  function IsRebate(): Payout -> bool {
    (p: Payout) => p.isRebate
  }

  function IsPayout(): Payout -> bool {
    (p: Payout) => !p.isRebate
  }

  predicate Priceable(p: Payout) {
    p.amountBTC > 0.0 || p.feeBTC > 0.0
  }

  function PriceBucket(ts: int): int {
    ts / PRICE_BUCKET_MS * PRICE_BUCKET_MS
  }

  function StoredPrice(p: Payout): real {
    if p.storedPriceUSD.Some? then p.storedPriceUSD.value else 0.0
  }

  function PriceAt(prices: map<int, real>, k: int): real {
    if k in prices then prices[k] else 0.0
  }

  /** The buckets whose price must be looked up, in the order they are first met. */
  function NeededBuckets(ps: seq<Payout>): seq<int> {
    if ps == [] then []
    else
      var needed, p := NeededBuckets(ps[..|ps| - 1]), ps[|ps| - 1];
      if NeedsBucket(p, PriceBucket(p.ts)) && PriceBucket(p.ts) !in needed then needed + [PriceBucket(p.ts)] else needed
  }

  function Latest(): (int, int) -> bool {
    (a, b) => b - a <= 0
  }

  /** The buckets asked for: all that are needed, or the newest when there are too many. */
  function RequestedBuckets(ps: seq<Payout>): seq<int> {
    var needed := NeededBuckets(ps);
    if |needed| > MAX_PRICE_BUCKETS_PER_REQUEST then Take(Sort(needed, Latest()), MAX_PRICE_BUCKETS_PER_REQUEST)
    else needed
  }

  lemma {:induction false} NeededDistinct(ps: seq<Payout>)
    ensures Distinct(NeededBuckets(ps))
  {
    if ps != [] { NeededDistinct(ps[..|ps| - 1]); }
  }

  lemma {:induction false} NeededExactly(ps: seq<Payout>, b: int)
    ensures b in NeededBuckets(ps) <==> exists p :: p in ps && NeedsBucket(p, b)
  {
    if ps != [] {
      var front, last := ps[..|ps| - 1], ps[|ps| - 1];
      NeededExactly(front, b);
      assert ps == front + [last];
      if b in NeededBuckets(ps) && b !in NeededBuckets(front) { assert NeedsBucket(last, b); }
    }
  }

  predicate NeedsBucket(p: Payout, b: int) {
    StoredPrice(p) == 0.0 && Priceable(p) && PriceBucket(p.ts) == b
  }

  /** A request names only buckets some unpriced payout falls in, at most the cap of them, and
      leaves none out unless the cap is reached by newer ones. */
  lemma RequestIsNewestNeeded(ps: seq<Payout>)
    ensures Distinct(RequestedBuckets(ps)) && |RequestedBuckets(ps)| <= MAX_PRICE_BUCKETS_PER_REQUEST
    ensures forall b :: b in RequestedBuckets(ps) ==> exists p :: p in ps && NeedsBucket(p, b)
    ensures forall p, b :: p in ps && NeedsBucket(p, b) && b !in RequestedBuckets(ps) ==>
              |RequestedBuckets(ps)| == MAX_PRICE_BUCKETS_PER_REQUEST && forall c :: c in RequestedBuckets(ps) ==> b < c
  {
    var needed := NeededBuckets(ps);
    NeededDistinct(ps);
    forall b
      ensures b in needed <==> exists p :: p in ps && NeedsBucket(p, b)
    {
      NeededExactly(ps, b);
    }
    SortDistinct(needed, Latest());
    SortSorts(needed, Latest());
    CutIsNewest(Sort(needed, Latest()), needed, MAX_PRICE_BUCKETS_PER_REQUEST);
  }

  lemma CutIsNewest(sorted: seq<int>, needed: seq<int>, cap: nat)
    requires Sorted(sorted, Latest()) && Distinct(sorted) && multiset(sorted) == multiset(needed)
    ensures |sorted| == |needed| && Distinct(Take(sorted, cap))
    ensures forall b :: b in Take(sorted, cap) ==> b in needed
    ensures forall b, c :: b in needed && b !in Take(sorted, cap) && c in Take(sorted, cap) ==> b < c
  {
    assert |sorted| == |multiset(sorted)| && |needed| == |multiset(needed)|;
    forall b
      ensures b in needed <==> b in sorted
    {
      assert b in needed <==> b in multiset(needed);
      assert b in sorted <==> b in multiset(sorted);
    }
    var kept := Take(sorted, cap);
    forall b, c | b in needed && b !in kept && c in kept
      ensures b < c
    {
      var i :| 0 <= i < |sorted| && sorted[i] == b;
      var j :| 0 <= j < |kept| && kept[j] == c;
      assert j < i ==> Latest()(sorted[j], sorted[i]);
      assert i < |kept| ==> b in kept;
    }
  }

  datatype Pricing = Pricing(bucketPrices: map<int, real>, dailyPrices: map<int, real>, currentBtcPrice: real)

  /** The price recorded for the payout's own moment, zero when there is none. */
  function ExactPrice(pr: Pricing, p: Payout): real {
    FirstNonZero(StoredPrice(p), PriceAt(pr.bucketPrices, PriceBucket(p.ts)))
  }

  function FallbackPrice(pr: Pricing, dayTs: int): real {
    FirstNonZero(PriceAt(pr.dailyPrices, dayTs), pr.currentBtcPrice)
  }

  function PriceOf(pr: Pricing, z: Zone, p: Payout): real {
    FirstNonZero(ExactPrice(pr, p), FallbackPrice(pr, LocalDayStart(z, p.ts)))
  }

  function IsUnpriced(pr: Pricing): Payout -> bool {
    (p: Payout) => ExactPrice(pr, p) == 0.0 && Priceable(p)
  }

  function UsdOf(pr: Pricing, z: Zone): Payout -> real {
    (p: Payout) => p.amountBTC * PriceOf(pr, z, p)
  }

  function FeeUsdOf(pr: Pricing, z: Zone): Payout -> real {
    (p: Payout) => p.feeBTC * PriceOf(pr, z, p)
  }

  function OneIf(q: Payout -> bool): Payout -> real {
    (p: Payout) => if q(p) then 1.0 else 0.0
  }

  /** How a payout is valued: in dollars, its fee in dollars, and whether a price was missing. */
  datatype Views = Views(usd: Payout -> real, feeUsd: Payout -> real, unpriced: Payout -> bool)

  function ViewsOf(pr: Pricing, z: Zone): Views {
    Views(UsdOf(pr, z), FeeUsdOf(pr, z), IsUnpriced(pr))
  }

  datatype Day = Day(revenueBTC: real, payoutBTC: real, rebateBTC: real, revenueUSD: real,
                     feesBTC: real, feesUSD: real, unpricedPayouts: nat, btcPrice: real)

  const NO_REVENUE := Day(0.0, 0.0, 0.0, 0.0, 0.0, 0.0, 0, 0.0)

  function PayoutDay(z: Zone): Payout -> int {
    (p: Payout) => LocalDayStart(z, p.ts)
  }

  /** The sums over the payouts `ps` of a day. */
  function DaySums(v: Views, trackFees: bool, ps: seq<Payout>): Day {
    Day(SumOf(ps, AmountOf()), SumOf(Filter(ps, IsPayout()), AmountOf()), SumOf(Filter(ps, IsRebate()), AmountOf()),
        SumOf(ps, v.usd),
        if trackFees then SumOf(ps, FeeOf()) else 0.0, if trackFees then SumOf(ps, v.feeUsd) else 0.0,
        |Filter(ps, v.unpriced)|, 0.0)
  }

  function DayOf(v: Views, trackFees: bool, ps: seq<Payout>): Option<Day> {
    if ps == [] then None else Some(DaySums(v, trackFees, ps))
  }

  function Add(v: Views, trackFees: bool, day: Day, p: Payout): Day {
    Day(day.revenueBTC + p.amountBTC,
        if p.isRebate then day.payoutBTC else day.payoutBTC + p.amountBTC,
        if p.isRebate then day.rebateBTC + p.amountBTC else day.rebateBTC,
        day.revenueUSD + v.usd(p),
        if trackFees then day.feesBTC + p.feeBTC else day.feesBTC,
        if trackFees then day.feesUSD + v.feeUsd(p) else day.feesUSD,
        if v.unpriced(p) then day.unpricedPayouts + 1 else day.unpricedPayouts,
        day.btcPrice)
  }

  function OrNone(day: Option<Day>): Day {
    if day.Some? then day.value else NO_REVENUE
  }

  lemma AddIsNext(v: Views, trackFees: bool, ps: seq<Payout>, p: Payout)
    ensures DaySums(v, trackFees, ps + [p]) == Add(v, trackFees, DaySums(v, trackFees, ps), p)
  {
    var day, next, added := DaySums(v, trackFees, ps), DaySums(v, trackFees, ps + [p]), Add(v, trackFees,
                                    DaySums(v, trackFees, ps), p);
    assert next.revenueBTC == added.revenueBTC && next.revenueUSD == added.revenueUSD by {
      SumOfSnoc(ps, p, AmountOf());
      SumOfSnoc(ps, p, v.usd);
    }
    assert next.feesBTC == added.feesBTC && next.feesUSD == added.feesUSD by {
      SumOfSnoc(ps, p, FeeOf());
      SumOfSnoc(ps, p, v.feeUsd);
    }
    assert next.payoutBTC == added.payoutBTC && next.rebateBTC == added.rebateBTC by {
      AmountSnoc(ps, p, IsPayout());
      AmountSnoc(ps, p, IsRebate());
    }
    assert next.unpricedPayouts == added.unpricedPayouts by {
      FilterSnoc(ps, p, v.unpriced);
    }
  }

  lemma AmountSnoc(ps: seq<Payout>, p: Payout, q: Payout -> bool)
    ensures SumOf(Filter(ps + [p], q), AmountOf()) ==
            SumOf(Filter(ps, q), AmountOf()) + if q(p) then p.amountBTC else 0.0
  {
    FilterSnoc(ps, p, q);
    if q(p) {
      SumOfSnoc(Filter(ps, q), p, AmountOf());
    } else {
      assert Filter(ps + [p], q) == Filter(ps, q);
    }
  }

  function OfDay(day: Payout -> int, ps: seq<Payout>, d: int): seq<Payout> {
    Filter(ps, HasKey(day, d))
  }

  function BucketsUnpriced(v: Views, ps: seq<Payout>): set<int> {
    set p | p in Filter(ps, v.unpriced) :: PriceBucket(p.ts)
  }

  /** The day sums and the missing buckets after the payouts `ps`. */
  ghost predicate Summed(v: Views, day: Payout -> int, trackFees: bool, ps: seq<Payout>, daily: map<int, Day>,
                         missing: set<int>) {
    && (forall d :: At(daily, d) == DayOf(v, trackFees, OfDay(day, ps, d)))
    && missing == BucketsUnpriced(v, ps)
  }

  lemma DayOneMore(v: Views, day: Payout -> int, trackFees: bool, ps: seq<Payout>, p: Payout, d: int)
    ensures DayOf(v, trackFees, OfDay(day, ps + [p], d)) ==
            var was := DayOf(v, trackFees, OfDay(day, ps, d));
            if d == day(p) then Some(Add(v, trackFees, OrNone(was), p)) else was
  {
    FilterSnoc(ps, p, HasKey(day, d));
    DayOfSnoc(v, trackFees, OfDay(day, ps, d), p);
    assert d != day(p) ==> OfDay(day, ps + [p], d) == OfDay(day, ps, d);
  }

  lemma DayOfSnoc(v: Views, trackFees: bool, ps: seq<Payout>, p: Payout)
    ensures DayOf(v, trackFees, ps + [p]) == Some(Add(v, trackFees, OrNone(DayOf(v, trackFees, ps)), p))
  {
    AddIsNext(v, trackFees, ps, p);
    NoPayoutsNoSums(v, trackFees);
  }

  lemma NoPayoutsNoSums(v: Views, trackFees: bool)
    ensures DaySums(v, trackFees, []) == NO_REVENUE
  {
  }

  lemma UnpricedOneMore(v: Views, ps: seq<Payout>, p: Payout)
    ensures BucketsUnpriced(v, ps + [p]) == BucketsUnpriced(v, ps) + if v.unpriced(p) then {PriceBucket(p.ts)} else {}
  {
    var before := Filter(ps, v.unpriced);
    FilterSnoc(ps, p, v.unpriced);
    if v.unpriced(p) {
      assert forall q :: q in before + [p] <==> q in before || q == p;
    } else {
      assert Filter(ps + [p], v.unpriced) == before;
    }
  }

  lemma SumOneMore(v: Views, day: Payout -> int, trackFees: bool, ps: seq<Payout>, p: Payout, daily: map<int, Day>,
                   missing: set<int>)
    requires Summed(v, day, trackFees, ps, daily, missing)
    ensures var d := day(p);
            Summed(v, day, trackFees, ps + [p], daily[d := Add(v, trackFees, OrNone(At(daily, d)), p)],
                   if v.unpriced(p) then missing + {PriceBucket(p.ts)} else missing)
  {
    var daily' := daily[day(p) := Add(v, trackFees, OrNone(At(daily, day(p))), p)];
    forall d
      ensures At(daily', d) == DayOf(v, trackFees, OfDay(day, ps + [p], d))
    {
      DayOneMore(v, day, trackFees, ps, p, d);
      assert At(daily, d) == DayOf(v, trackFees, OfDay(day, ps, d));
    }
    UnpricedOneMore(v, ps, p);
  }

  method SumPayouts(v: Views, day: Payout -> int, trackFees: bool, payouts: seq<Payout>)
    returns (daily: map<int, Day>, missing: set<int>)
    ensures Summed(v, day, trackFees, payouts, daily, missing)
  {
    daily, missing := map[], {};
    for i := 0 to |payouts|
      invariant Summed(v, day, trackFees, payouts[..i], daily, missing)
    {
      var p := payouts[i];
      SumOneMore(v, day, trackFees, payouts[..i], p, daily, missing);
      assert payouts[..i + 1] == payouts[..i] + [p];
      var dayTs := day(p);
      daily := daily[dayTs := Add(v, trackFees, OrNone(At(daily, dayTs)), p)];
      if v.unpriced(p) {
        missing := missing + {PriceBucket(p.ts)};
      }
    }
    assert payouts[..|payouts|] == payouts;
  }

  function Blended(pr: Pricing, d: int, day: Day): Day {
    day.(btcPrice := if day.revenueBTC > 0.0 then day.revenueUSD / day.revenueBTC else FallbackPrice(pr, d))
  }

  function BlendedDay(pr: Pricing, z: Zone, trackFees: bool, ps: seq<Payout>, d: int): Option<Day> {
    var day := DayOf(ViewsOf(pr, z), trackFees, OfDay(PayoutDay(z), ps, d));
    if day.Some? then Some(Blended(pr, d, day.value)) else None
  }

  /** What pricing the payouts gives: blended days, and the buckets left without an exact price. */
  ghost predicate Priced(pr: Pricing, z: Zone, trackFees: bool, ps: seq<Payout>, daily: map<int, Day>, missing: nat) {
    && (forall d :: At(daily, d) == BlendedDay(pr, z, trackFees, ps, d))
    && missing == |BucketsUnpriced(ViewsOf(pr, z), ps)|
  }

  lemma SomeMember(s: set<int>)
    ensures s == {} || exists x :: x in s
  {
    if forall x :: x !in s { assert s == {}; }
  }

  method BlendPrices(pr: Pricing, daily: map<int, Day>) returns (r: map<int, Day>)
    ensures forall d :: At(r, d) == if d in daily then Some(Blended(pr, d, daily[d])) else None
  {
    r := daily;
    var rest := daily.Keys;
    while rest != {}
      invariant rest <= daily.Keys
      invariant forall d ::
                  At(r, d) == if d in daily && d !in rest then Some(Blended(pr, d, daily[d])) else At(daily, d)
    {
      SomeMember(rest);
      var dayTs :| dayTs in rest;
      r := r[dayTs := Blended(pr, dayTs, daily[dayTs])];
      rest := rest - {dayTs};
    }
  }

  method ToPayouts(txEntries: seq<TxEntry>, rebates: seq<Rebate>) returns (payouts: seq<Payout>)
    ensures payouts == PayoutsOf(txEntries, rebates)
  {
    payouts := FromEntries(txEntries);
    for i := 0 to |rebates|
      invariant payouts == FromEntries(txEntries) + FromRebates(rebates[..i])
    {
      var r := rebates[i];
      assert rebates[..i + 1][..i] == rebates[..i];
      if ValidRebate()(r) {
        payouts := payouts + [Payout(r.ts.value, r.amountBTC.value, 0.0, r.priceUSD, true)];
      }
    }
    assert rebates[..|rebates|] == rebates;
  }

  /** `fetch` is the price lookup: whatever comes back, nothing at all when it fails. */
  method PriceDailyRevenue(txEntries: seq<TxEntry>, rebates: seq<Rebate>, fetch: seq<int> -> map<int, real>,
                           dailyPrices: map<int, real>, currentBtcPrice: real, z: Zone, trackFees: bool)
    returns (daily: map<int, Day>, missingPriceBuckets: nat)
    ensures var ps := PayoutsOf(txEntries, rebates);
            var pr := Pricing(fetch(RequestedBuckets(ps)), dailyPrices, currentBtcPrice);
            Priced(pr, z, trackFees, ps, daily, missingPriceBuckets)
  {
    var payouts := ToPayouts(txEntries, rebates);
    var pr := Pricing(fetch(RequestedBuckets(payouts)), dailyPrices, currentBtcPrice);
    var sums, missing := SumPayouts(ViewsOf(pr, z), PayoutDay(z), trackFees, payouts);
    daily := BlendPrices(pr, sums);
    forall d
      ensures At(daily, d) == BlendedDay(pr, z, trackFees, payouts, d)
    {
      assert At(sums, d) == DayOf(ViewsOf(pr, z), trackFees, OfDay(PayoutDay(z), payouts, d));
    }
    missingPriceBuckets := |missing|;
  }

  // ---------- what the days and counts mean ----------

  /** A day's revenue is its payouts plus its rebates, and its price is the one it realised. */
  lemma DayBalances(pr: Pricing, z: Zone, trackFees: bool, ps: seq<Payout>, daily: map<int, Day>, missing: nat, d: int)
    requires Priced(pr, z, trackFees, ps, daily, missing) && d in daily
    ensures daily[d].revenueBTC == daily[d].payoutBTC + daily[d].rebateBTC
    ensures daily[d].revenueBTC > 0.0 ==> daily[d].btcPrice * daily[d].revenueBTC == daily[d].revenueUSD
    ensures daily[d].revenueBTC <= 0.0 ==>
              daily[d].btcPrice == if d in pr.dailyPrices && pr.dailyPrices[d] != 0.0 then pr.dailyPrices[d]
                                   else pr.currentBtcPrice
  {
    assert At(daily, d) == BlendedDay(pr, z, trackFees, ps, d);
    SumOfSplit(OfDay(PayoutDay(z), ps, d), IsPayout(), IsRebate(), AmountOf());
  }

  /** The price recorded for the moment of a payout, zero counting as none: its own, or else that of the
      five minutes it falls in. */
  ghost predicate IsExactPrice(pr: Pricing, p: Payout, price: real) {
    if p.storedPriceUSD.Some? && p.storedPriceUSD.value != 0.0 then price == p.storedPriceUSD.value
    else
      && (forall k :: k in pr.bucketPrices && k <= p.ts < k + 300_000 && k % 300_000 == 0 ==>
            price == pr.bucketPrices[k])
      && (price != 0.0 ==> exists k :: k in pr.bucketPrices && k <= p.ts < k + 300_000 && k % 300_000 == 0)
  }

  /** What a payout is valued at: its exact price if there is one, or else the price of its day, or else
      the current one. */
  ghost predicate IsPrice(pr: Pricing, z: Zone, p: Payout, exact: real, price: real) {
    if exact != 0.0 then price == exact
    else if LocalDayStart(z, p.ts) in pr.dailyPrices && pr.dailyPrices[LocalDayStart(z, p.ts)] != 0.0 then
      price == pr.dailyPrices[LocalDayStart(z, p.ts)]
    else price == pr.currentBtcPrice
  }

  lemma OneBucket(t: int, k: int)
    requires k <= t < k + 300_000 && k % 300_000 == 0
    ensures PriceBucket(t) == k
  {
    assert k == 300_000 * (k / 300_000);
    assert t / 300_000 == k / 300_000;
  }

  lemma BucketHolds(t: int)
    ensures PriceBucket(t) <= t < PriceBucket(t) + 300_000 && PriceBucket(t) % 300_000 == 0
  {
  }

  lemma ExactPriceIs(pr: Pricing, p: Payout)
    ensures IsExactPrice(pr, p, ExactPrice(pr, p))
  {
    BucketHolds(p.ts);
    forall k | k in pr.bucketPrices && k <= p.ts < k + 300_000 && k % 300_000 == 0
      ensures PriceBucket(p.ts) == k
    {
      OneBucket(p.ts, k);
    }
  }

  lemma PriceOfIs(pr: Pricing, z: Zone, p: Payout)
    ensures IsPrice(pr, z, p, ExactPrice(pr, p), PriceOf(pr, z, p))
  {
  }

  lemma ExactPriceUnique(pr: Pricing, p: Payout, a: real, b: real)
    requires IsExactPrice(pr, p, a) && IsExactPrice(pr, p, b)
    ensures a == b
  {
  }

  /** Tests for the payouts of a day, and what is read of each payout. */
  datatype DayFinder = DayFinder(onDay: Payout -> bool, paid: Payout -> bool, rebated: Payout -> bool,
                                 unpriced: Payout -> bool, amount: Payout -> real, fee: Payout -> real,
                                 usd: Payout -> real, feeUsd: Payout -> real)

  ghost predicate Found(find: DayFinder, z: Zone, d: int, p: Payout) {
    && (find.onDay(p) <==> LocalDayStart(z, p.ts) == d)
    && (find.paid(p) <==> find.onDay(p) && !p.isRebate) && (find.rebated(p) <==> find.onDay(p) && p.isRebate)
    && find.amount(p) == p.amountBTC && find.fee(p) == p.feeBTC
  }

  ghost predicate Finds(find: DayFinder, z: Zone, d: int) {
    forall p :: Found(find, z, d, p)
  }

  /** A day holds what was found. */
  ghost predicate Tells(day: Day, trackFees: bool, ps: seq<Payout>, find: DayFinder) {
    && day.revenueBTC == SumOf(Filter(ps, find.onDay), find.amount)
    && day.payoutBTC == SumOf(Filter(ps, find.paid), find.amount)
    && day.rebateBTC == SumOf(Filter(ps, find.rebated), find.amount)
    && day.revenueUSD == SumOf(Filter(ps, find.onDay), find.usd)
    && day.unpricedPayouts == |Filter(ps, find.unpriced)|
    && day.feesBTC == (if trackFees then SumOf(Filter(ps, find.onDay), find.fee) else 0.0)
    && day.feesUSD == (if trackFees then SumOf(Filter(ps, find.onDay), find.feeUsd) else 0.0)
  }

  /** What a day holds, whoever finds its payouts and prices them: all it brought, what was paid and what
      was rebated, its worth at the price of each payout, and how many payouts of any worth had no price of
      their own. */
  lemma DayTells(pr: Pricing, z: Zone, trackFees: bool, ps: seq<Payout>, daily: map<int, Day>, missing: nat, d: int,
                 find: DayFinder, exact: Payout -> real, price: Payout -> real)
    requires Priced(pr, z, trackFees, ps, daily, missing) && Finds(find, z, d)
    requires forall p :: IsExactPrice(pr, p, exact(p)) && IsPrice(pr, z, p, exact(p), price(p))
    requires forall p :: find.usd(p) == p.amountBTC * price(p) && find.feeUsd(p) == p.feeBTC * price(p)
    requires forall p :: find.unpriced(p) <==> find.onDay(p) && exact(p) == 0.0 && (p.amountBTC > 0.0 || p.feeBTC > 0.0)
    ensures d in daily <==> Filter(ps, find.onDay) != []
    ensures d in daily ==> Tells(daily[d], trackFees, ps, find)
  {
    PricesAgree(pr, z, exact, price);
    FoundAll(pr, z, trackFees, ps, d, find, exact, price);
    DayIsSummed(pr, z, trackFees, ps, daily, missing, d);
  }

  lemma FoundAll(pr: Pricing, z: Zone, trackFees: bool, ps: seq<Payout>, d: int, find: DayFinder,
                 exact: Payout -> real, price: Payout -> real)
    requires Finds(find, z, d) && forall p :: exact(p) == ExactPrice(pr, p) && price(p) == PriceOf(pr, z, p)
    requires forall p :: find.usd(p) == p.amountBTC * price(p) && find.feeUsd(p) == p.feeBTC * price(p)
    requires forall p :: find.unpriced(p) <==> find.onDay(p) && exact(p) == 0.0 && (p.amountBTC > 0.0 || p.feeBTC > 0.0)
    ensures Filter(ps, find.onDay) == OfDay(PayoutDay(z), ps, d)
    ensures Tells(DaySums(ViewsOf(pr, z), trackFees, OfDay(PayoutDay(z), ps, d)), trackFees, ps, find)
  {
    FoundSums(ps, z, d, find);
    FoundParts(ps, z, d, find);
    FoundWorth(pr, z, ps, d, find, price);
    FoundUnpriced(pr, z, ps, d, find, exact);
  }

  /** Blending the price of a day changes none of its sums. */
  lemma DayIsSummed(pr: Pricing, z: Zone, trackFees: bool, ps: seq<Payout>, daily: map<int, Day>, missing: nat, d: int)
    requires Priced(pr, z, trackFees, ps, daily, missing)
    ensures d in daily <==> OfDay(PayoutDay(z), ps, d) != []
    ensures d in daily ==>
              daily[d].(btcPrice := 0.0) == DaySums(ViewsOf(pr, z), trackFees, OfDay(PayoutDay(z), ps, d))
  {
    assert At(daily, d) == BlendedDay(pr, z, trackFees, ps, d);
  }

  lemma FoundSums(ps: seq<Payout>, z: Zone, d: int, find: DayFinder)
    requires Finds(find, z, d)
    ensures Filter(ps, find.onDay) == OfDay(PayoutDay(z), ps, d)
    ensures SumOf(OfDay(PayoutDay(z), ps, d), find.amount) == SumOf(OfDay(PayoutDay(z), ps, d), AmountOf())
    ensures SumOf(OfDay(PayoutDay(z), ps, d), find.fee) == SumOf(OfDay(PayoutDay(z), ps, d), FeeOf())
  {
    forall p ensures find.onDay(p) == HasKey(PayoutDay(z), d)(p) && find.amount(p) == AmountOf()(p) &&
                     find.fee(p) == FeeOf()(p) {
      assert Found(find, z, d, p);
    }
    FilterAgree(ps, find.onDay, HasKey(PayoutDay(z), d));
    SumOfAgree(OfDay(PayoutDay(z), ps, d), find.amount, AmountOf());
    SumOfAgree(OfDay(PayoutDay(z), ps, d), find.fee, FeeOf());
  }

  lemma FoundParts(ps: seq<Payout>, z: Zone, d: int, find: DayFinder)
    requires Finds(find, z, d)
    ensures SumOf(Filter(OfDay(PayoutDay(z), ps, d), IsPayout()), AmountOf()) ==
            SumOf(Filter(ps, find.paid), find.amount)
    ensures SumOf(Filter(OfDay(PayoutDay(z), ps, d), IsRebate()), AmountOf()) ==
            SumOf(Filter(ps, find.rebated), find.amount)
  {
    forall p
      ensures find.paid(p) <==> LocalDayStart(z, p.ts) == d && IsPayout()(p)
      ensures find.rebated(p) <==> LocalDayStart(z, p.ts) == d && IsRebate()(p)
      ensures find.amount(p) == p.amountBTC
    {
      assert Found(find, z, d, p);
    }
    FoundOfDay(ps, z, d, find.paid, IsPayout(), find.amount);
    FoundOfDay(ps, z, d, find.rebated, IsRebate(), find.amount);
  }

  lemma FoundWorth(pr: Pricing, z: Zone, ps: seq<Payout>, d: int, find: DayFinder, price: Payout -> real)
    requires forall p :: price(p) == PriceOf(pr, z, p)
    requires forall p :: find.usd(p) == p.amountBTC * price(p) && find.feeUsd(p) == p.feeBTC * price(p)
    ensures SumOf(OfDay(PayoutDay(z), ps, d), find.usd) == SumOf(OfDay(PayoutDay(z), ps, d), UsdOf(pr, z))
    ensures SumOf(OfDay(PayoutDay(z), ps, d), find.feeUsd) == SumOf(OfDay(PayoutDay(z), ps, d), FeeUsdOf(pr, z))
  {
    SumOfAgree(OfDay(PayoutDay(z), ps, d), find.usd, UsdOf(pr, z));
    SumOfAgree(OfDay(PayoutDay(z), ps, d), find.feeUsd, FeeUsdOf(pr, z));
  }

  lemma FoundUnpriced(pr: Pricing, z: Zone, ps: seq<Payout>, d: int, find: DayFinder, exact: Payout -> real)
    requires Finds(find, z, d) && forall p :: exact(p) == ExactPrice(pr, p)
    requires forall p :: find.unpriced(p) <==> find.onDay(p) && exact(p) == 0.0 && (p.amountBTC > 0.0 || p.feeBTC > 0.0)
    ensures Filter(OfDay(PayoutDay(z), ps, d), IsUnpriced(pr)) == Filter(ps, find.unpriced)
  {
    forall p
      ensures find.unpriced(p) <==> LocalDayStart(z, p.ts) == d && IsUnpriced(pr)(p)
    {
      assert Found(find, z, d, p);
    }
    FoundOfDay(ps, z, d, find.unpriced, IsUnpriced(pr), AmountOf());
  }

  lemma PricesAgree(pr: Pricing, z: Zone, exact: Payout -> real, price: Payout -> real)
    requires forall p :: IsExactPrice(pr, p, exact(p)) && IsPrice(pr, z, p, exact(p), price(p))
    ensures forall p :: exact(p) == ExactPrice(pr, p) && price(p) == PriceOf(pr, z, p)
  {
    forall p
      ensures exact(p) == ExactPrice(pr, p) && price(p) == PriceOf(pr, z, p)
    {
      ExactPriceIs(pr, p);
      ExactPriceUnique(pr, p, exact(p), ExactPrice(pr, p));
      PriceOfIs(pr, z, p);
    }
  }

  lemma FoundOfDay(ps: seq<Payout>, z: Zone, d: int, found: Payout -> bool, q: Payout -> bool, amount: Payout -> real)
    requires forall p :: found(p) <==> LocalDayStart(z, p.ts) == d && q(p)
    requires forall p: Payout :: amount(p) == p.amountBTC
    ensures Filter(OfDay(PayoutDay(z), ps, d), q) == Filter(ps, found)
    ensures SumOf(Filter(OfDay(PayoutDay(z), ps, d), q), AmountOf()) == SumOf(Filter(ps, found), amount)
  {
    FilterBoth(ps, HasKey(PayoutDay(z), d), q);
    FilterAgree(ps, Both(HasKey(PayoutDay(z), d), q), found);
    SumOfAgree(Filter(ps, found), AmountOf(), amount);
  }

  function DayRevenue(daily: map<int, Day>): int -> real {
    d => if d in daily then daily[d].revenueBTC else 0.0
  }

  function DayRevenueUSD(daily: map<int, Day>): int -> real {
    d => if d in daily then daily[d].revenueUSD else 0.0
  }

  function DayUnpriced(daily: map<int, Day>): int -> real {
    d => if d in daily then daily[d].unpricedPayouts as real else 0.0
  }

  lemma PayoutDaysListed(pr: Pricing, z: Zone, trackFees: bool, ps: seq<Payout>, daily: map<int, Day>, missing: nat,
                         days: seq<int>)
    requires Priced(pr, z, trackFees, ps, daily, missing) && forall d :: d in daily ==> d in days
    ensures forall p :: p in ps ==> PayoutDay(z)(p) in days
  {
    forall p | p in ps
      ensures PayoutDay(z)(p) in days
    {
      var d := PayoutDay(z)(p);
      FilterMember(ps, HasKey(PayoutDay(z), d), p);
      assert At(daily, d) == BlendedDay(pr, z, trackFees, ps, d);
    }
  }

  lemma {:induction false} CountIsSum(ps: seq<Payout>, q: Payout -> bool)
    ensures |Filter(ps, q)| as real == SumOf(ps, OneIf(q))
  {
    if ps != [] { CountIsSum(ps[..|ps| - 1], q); }
  }

  /** Over any listing of the days, revenue in BTC and in USD and the unpriced count add up to
      those of all payouts. */
  lemma DaysHoldAllPayouts(pr: Pricing, z: Zone, trackFees: bool, ps: seq<Payout>, daily: map<int, Day>, missing: nat,
                           days: seq<int>)
    requires Priced(pr, z, trackFees, ps, daily, missing)
    requires Distinct(days) && forall d :: d in daily ==> d in days
    ensures SumOf(days, DayRevenue(daily)) == SumOf(ps, AmountOf())
    ensures SumOf(days, DayRevenueUSD(daily)) == SumOf(ps, UsdOf(pr, z))
    ensures SumOf(days, DayUnpriced(daily)) == |Filter(ps, IsUnpriced(pr))| as real
  {
    PayoutDaysListed(pr, z, trackFees, ps, daily, missing, days);
    forall d | d in days
      ensures DayRevenue(daily)(d) == GroupSum(ps, PayoutDay(z), AmountOf())(d)
      ensures DayRevenueUSD(daily)(d) == GroupSum(ps, PayoutDay(z), UsdOf(pr, z))(d)
      ensures DayUnpriced(daily)(d) == GroupSum(ps, PayoutDay(z), OneIf(IsUnpriced(pr)))(d)
    {
      assert At(daily, d) == BlendedDay(pr, z, trackFees, ps, d);
      CountIsSum(OfDay(PayoutDay(z), ps, d), IsUnpriced(pr));
    }
    SumOfAgree(days, DayRevenue(daily), GroupSum(ps, PayoutDay(z), AmountOf()));
    SumOfAgree(days, DayRevenueUSD(daily), GroupSum(ps, PayoutDay(z), UsdOf(pr, z)));
    SumOfAgree(days, DayUnpriced(daily), GroupSum(ps, PayoutDay(z), OneIf(IsUnpriced(pr))));
    SumByGroups(ps, PayoutDay(z), AmountOf(), days);
    SumByGroups(ps, PayoutDay(z), UsdOf(pr, z), days);
    SumByGroups(ps, PayoutDay(z), OneIf(IsUnpriced(pr)), days);
    CountIsSum(ps, IsUnpriced(pr));
  }

  lemma {:induction false} BucketsAtMost(v: Views, ps: seq<Payout>)
    ensures |BucketsUnpriced(v, ps)| <= |Filter(ps, v.unpriced)|
  {
    if ps != [] {
      var front, last := ps[..|ps| - 1], ps[|ps| - 1];
      BucketsAtMost(v, front);
      UnpricedOneMore(v, front, last);
      assert ps == front + [last];
    }
  }

  /** The pricing is reported complete exactly when no day counts an unpriced payout. */
  lemma PricingCompleteExactly(pr: Pricing, z: Zone, trackFees: bool, ps: seq<Payout>, daily: map<int, Day>,
                               missing: nat, days: seq<int>)
    requires Priced(pr, z, trackFees, ps, daily, missing)
    requires Distinct(days) && forall d :: d in daily ==> d in days
    ensures missing == 0 <==> SumOf(days, DayUnpriced(daily)) == 0.0
    ensures missing as real <= SumOf(days, DayUnpriced(daily))
  {
    DaysHoldAllPayouts(pr, z, trackFees, ps, daily, missing, days);
    BucketsAtMost(ViewsOf(pr, z), ps);
    var unpriced := Filter(ps, IsUnpriced(pr));
    assert unpriced != [] ==>
           unpriced[0] in unpriced && PriceBucket(unpriced[0].ts) in BucketsUnpriced(ViewsOf(pr, z), ps);
  }

  lemma {:induction false} EntriesAmount(es: seq<TxEntry>)
    ensures SumOf(FromEntries(es), AmountOf()) == SumOf(es, EntryAmount())
  {
    if es != [] {
      var front, last := es[..|es| - 1], es[|es| - 1];
      EntriesAmount(front);
      SumOfSnoc(FromEntries(front), Payout(last.ts, last.amountBTC, last.feeBTC, None, false), AmountOf());
    }
  }

  lemma {:induction false} RebatesAmount(rs: seq<Rebate>)
    ensures SumOf(FromRebates(rs), AmountOf()) == SumOf(Filter(rs, ValidRebate()), RebateAmount())
  {
    if rs != [] {
      var front, last := rs[..|rs| - 1], rs[|rs| - 1];
      RebatesAmount(front);
      if ValidRebate()(last) {
        SumOfSnoc(FromRebates(front), Payout(last.ts.value, last.amountBTC.value, 0.0, last.priceUSD, true),
                  AmountOf());
        SumOfSnoc(Filter(front, ValidRebate()), last, RebateAmount());
      } else {
        assert FromRebates(rs) == FromRebates(front);
        assert Filter(rs, ValidRebate()) == Filter(front, ValidRebate());
      }
    }
  }

  lemma {:induction false} EntriesArePaid(es: seq<TxEntry>)
    ensures |FromEntries(es)| == |es|
    ensures forall i :: 0 <= i < |es| ==>
              var p := FromEntries(es)[i];
              p.ts == es[i].ts && p.amountBTC == es[i].amountBTC && p.feeBTC == es[i].feeBTC &&
              p.storedPriceUSD.None? && !p.isRebate
  {
    if es != [] { EntriesArePaid(es[..|es| - 1]); }
  }

  lemma {:induction false} RebatesAreRebated(rs: seq<Rebate>, valid: Rebate -> bool)
    requires forall r :: valid(r) <==> r.ts.Some? && r.amountBTC.Some?
    ensures |FromRebates(rs)| == |Filter(rs, valid)|
    ensures forall i :: 0 <= i < |Filter(rs, valid)| ==>
              var p, r := FromRebates(rs)[i], Filter(rs, valid)[i];
              Some(p.ts) == r.ts && Some(p.amountBTC) == r.amountBTC && p.feeBTC == 0.0 &&
              p.storedPriceUSD == r.priceUSD && p.isRebate
  {
    if rs != [] {
      RebatesAreRebated(rs[..|rs| - 1], valid);
      assert valid(rs[|rs| - 1]) == ValidRebate()(rs[|rs| - 1]);
    }
  }

  /** The payouts are the entries, none of them a rebate or priced beforehand, and then the valid rebates,
      each with the price recorded for it. */
  lemma PayoutsTell(es: seq<TxEntry>, rs: seq<Rebate>, valid: Rebate -> bool, i: nat)
    requires forall r :: valid(r) <==> r.ts.Some? && r.amountBTC.Some?
    requires i < |PayoutsOf(es, rs)|
    ensures |PayoutsOf(es, rs)| == |es| + |Filter(rs, valid)|
    ensures var p := PayoutsOf(es, rs)[i];
            if i < |es| then
              p.ts == es[i].ts && p.amountBTC == es[i].amountBTC && p.feeBTC == es[i].feeBTC &&
              p.storedPriceUSD.None? && !p.isRebate
            else
              var r := Filter(rs, valid)[i - |es|];
              Some(p.ts) == r.ts && Some(p.amountBTC) == r.amountBTC && p.feeBTC == 0.0 &&
              p.storedPriceUSD == r.priceUSD && p.isRebate
  {
    EntriesArePaid(es);
    RebatesAreRebated(rs, valid);
  }

  /** The payouts are worth the counted transactions and the valid rebates together. */
  lemma PayoutsConserve(s: Scope, txs: seq<Tx>, rs: seq<Rebate>)
    ensures SumOf(PayoutsOf(EntriesOf(s, txs), rs), AmountOf())
            == SumOf(Filter(txs, Counted(s)), TxAmount()) + SumOf(Filter(rs, ValidRebate()), RebateAmount())
  {
    SumOfConcat(FromEntries(EntriesOf(s, txs)), FromRebates(rs), AmountOf());
    EntriesAmount(EntriesOf(s, txs));
    RebatesAmount(rs);
    EntriesConserve(s, txs);
  }
}
