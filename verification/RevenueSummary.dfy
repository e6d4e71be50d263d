/** workers/lib/server/handlers/finance.handlers.js: the days getRevenueSummary keeps, and the revenue it
    leaves out with the others. */
module RevenueSummary {
  import opened Wrappers
  import opened Seqs
  import opened StableSort
  import opened LocalTime
  import opened Payouts

  function DayIn(start: int, end: int): int -> bool {
    d => start <= d <= end
  }

  /** The log's loop: days that begin outside the window are skipped. */
  method ListWindow(days: seq<int>, start: int, end: int) returns (kept: seq<int>)
    ensures kept == Filter(days, DayIn(start, end))
  {
    kept := [];
    for i := 0 to |days|
      invariant kept == Filter(days[..i], DayIn(start, end))
    {
      var ts := days[i];
      assert days[..i + 1][..i] == days[..i];
      if ts < start || ts > end { continue; }
      kept := kept + [ts];
    }
    assert days[..|days|] == days;
  }

  /** The payouts whose local day begins in the window, whenever in the day they arrived. */
  function BeginsIn(z: Zone, start: int, end: int): Payout -> bool {
    (p: Payout) => start <= LocalDayStart(z, p.ts) <= end
  }

  function BeginsOut(z: Zone, start: int, end: int): Payout -> bool {
    (p: Payout) => !(start <= LocalDayStart(z, p.ts) <= end)
  }

  lemma {:induction false} FilterDistinct(xs: seq<int>, p: int -> bool)
    requires Distinct(xs)
    ensures Distinct(Filter(xs, p))
  {
    if xs != [] {
      var front, last := xs[..|xs| - 1], xs[|xs| - 1];
      FilterDistinct(front, p);
      FilterMember(front, p, last);
    }
  }

  lemma WindowPayouts(pr: Pricing, z: Zone, trackFees: bool, ps: seq<Payout>, daily: map<int, Day>, missing: nat,
                      days: seq<int>, start: int, end: int)
    requires Priced(pr, z, trackFees, ps, daily, missing) && forall d :: d in daily ==> d in days
    ensures forall p :: p in Filter(ps, BeginsIn(z, start, end)) ==> PayoutDay(z)(p) in Filter(days, DayIn(start, end))
  {
    PayoutDaysListed(pr, z, trackFees, ps, daily, missing, days);
    forall p | p in Filter(ps, BeginsIn(z, start, end))
      ensures PayoutDay(z)(p) in Filter(days, DayIn(start, end))
    {
      FilterMember(ps, BeginsIn(z, start, end), p);
      FilterMember(days, DayIn(start, end), PayoutDay(z)(p));
    }
  }

  lemma WindowDay(pr: Pricing, z: Zone, trackFees: bool, ps: seq<Payout>, daily: map<int, Day>, missing: nat,
                  start: int, end: int, d: int)
    requires Priced(pr, z, trackFees, ps, daily, missing) && start <= d <= end
    ensures DayRevenue(daily)(d) == GroupSum(Filter(ps, BeginsIn(z, start, end)), PayoutDay(z), AmountOf())(d)
  {
    assert At(daily, d) == BlendedDay(pr, z, trackFees, ps, d);
    FilterFilter(ps, BeginsIn(z, start, end), HasKey(PayoutDay(z), d));
  }

  /** The revenue of the kept days is that of the payouts whose local day begins in the window. */
  lemma WindowRevenue(pr: Pricing, z: Zone, trackFees: bool, ps: seq<Payout>, daily: map<int, Day>, missing: nat,
                      days: seq<int>, start: int, end: int)
    requires Priced(pr, z, trackFees, ps, daily, missing)
    requires Distinct(days) && forall d :: d in daily ==> d in days
    ensures SumOf(Filter(days, DayIn(start, end)), DayRevenue(daily)) ==
            SumOf(Filter(ps, BeginsIn(z, start, end)), AmountOf())
  {
    var kept, inside := Filter(days, DayIn(start, end)), Filter(ps, BeginsIn(z, start, end));
    forall d | d in kept
      ensures DayRevenue(daily)(d) == GroupSum(inside, PayoutDay(z), AmountOf())(d)
    {
      FilterMember(days, DayIn(start, end), d);
      WindowDay(pr, z, trackFees, ps, daily, missing, start, end, d);
    }
    SumOfAgree(kept, DayRevenue(daily), GroupSum(inside, PayoutDay(z), AmountOf()));
    FilterDistinct(days, DayIn(start, end));
    WindowPayouts(pr, z, trackFees, ps, daily, missing, days, start, end);
    SumByGroups(inside, PayoutDay(z), AmountOf(), kept);
  }

  /** The kept days hold the revenue of all payouts, as the EBITDA log does, exactly when the payouts on
      days that begin outside the window are worth nothing together. */
  lemma WindowLosesExactly(pr: Pricing, z: Zone, trackFees: bool, ps: seq<Payout>, daily: map<int, Day>, missing: nat,
                           days: seq<int>, start: int, end: int)
    requires Priced(pr, z, trackFees, ps, daily, missing)
    requires Distinct(days) && forall d :: d in daily ==> d in days
    ensures SumOf(Filter(days, DayIn(start, end)), DayRevenue(daily)) == SumOf(days, DayRevenue(daily)) <==>
            SumOf(Filter(ps, BeginsOut(z, start, end)), AmountOf()) == 0.0
  {
    WindowRevenue(pr, z, trackFees, ps, daily, missing, days, start, end);
    DaysHoldAllPayouts(pr, z, trackFees, ps, daily, missing, days);
    SumOfSplit(ps, BeginsIn(z, start, end), BeginsOut(z, start, end), AmountOf());
  }

  /** Nothing is lost when the window begins with a local day and the payouts lie inside it. */
  lemma WholeFirstDayLosesNothing(z: Zone, ps: seq<Payout>, start: int, end: int)
    requires Regular(z) && LocalDayStart(z, start) == start && CleanAt(z, start)
    requires forall p :: p in ps ==> start <= p.ts <= end && CleanDay(z, LocalDay(z, p.ts))
    ensures Filter(ps, BeginsOut(z, start, end)) == []
  {
    forall p | p in ps
      ensures !BeginsOut(z, start, end)(p)
    {
      LocalDayStartCorrect(z, p.ts);
      LocalDayStartIdempotentMonotone(z, start, p.ts);
    }
    FilterNone(ps, BeginsOut(z, start, end));
  }

  /** A payout of the day that contains `start` and began before it. */
  ghost predicate OnBrokenDay(z: Zone, start: int, p: Payout) {
    LocalDay(z, p.ts) == LocalDay(z, start) && LocalDayStart(z, start) < start
  }

  /** Inside the window, the day of a payout begins outside it exactly if the window broke that day. */
  lemma OutIsBrokenDay(z: Zone, start: int, end: int, p: Payout)
    requires Regular(z) && CleanDay(z, LocalDay(z, start)) && CleanDay(z, LocalDay(z, p.ts))
    requires start <= p.ts <= end
    ensures BeginsOut(z, start, end)(p) <==> OnBrokenDay(z, start, p)
  {
    LocalDayStartResolves(z, p.ts);
    LocalDayStartResolves(z, start);
    DaySplit(z, LocalDay(z, start), start);
    DaySplit(z, LocalDay(z, start), p.ts);
    DaySplit(z, LocalDay(z, p.ts), p.ts);
    DaySplit(z, LocalDay(z, p.ts), start);
  }

  lemma {:induction false} ZeroSumExactly<T>(xs: seq<T>, f: T -> real)
    requires forall x :: x in xs ==> f(x) >= 0.0
    ensures SumOf(xs, f) >= 0.0 && (SumOf(xs, f) == 0.0 <==> forall x :: x in xs ==> f(x) == 0.0)
  {
    if xs != [] {
      var front, last := xs[..|xs| - 1], xs[|xs| - 1];
      assert xs == front + [last];
      assert f(last) >= 0.0;
      ZeroSumExactly(front, f);
      if SumOf(xs, f) == 0.0 {
        forall x | x in xs
          ensures f(x) == 0.0
        {
          assert x in front || x == last;
        }
      }
    }
  }

  /** Payouts inside the window, none of a negative amount: the kept days hold the revenue of all days
      exactly when no payout of any worth arrived on a day the window broke. */
  lemma BrokenDayLosesExactly(pr: Pricing, z: Zone, trackFees: bool, ps: seq<Payout>, daily: map<int, Day>,
                              missing: nat, days: seq<int>, start: int, end: int)
    requires Priced(pr, z, trackFees, ps, daily, missing)
    requires Distinct(days) && forall d :: d in daily ==> d in days
    requires Regular(z) && CleanDay(z, LocalDay(z, start))
    requires forall p :: p in ps ==> start <= p.ts <= end && p.amountBTC >= 0.0 && CleanDay(z, LocalDay(z, p.ts))
    ensures SumOf(Filter(days, DayIn(start, end)), DayRevenue(daily)) == SumOf(days, DayRevenue(daily)) <==>
            forall p :: p in ps && OnBrokenDay(z, start, p) ==> p.amountBTC == 0.0
  {
    WindowLosesExactly(pr, z, trackFees, ps, daily, missing, days, start, end);
    var lost := Filter(ps, BeginsOut(z, start, end));
    forall p: Payout
      ensures p in lost <==> p in ps && OnBrokenDay(z, start, p)
    {
      FilterMember(ps, BeginsOut(z, start, end), p);
      if p in ps { OutIsBrokenDay(z, start, end, p); }
    }
    LostNothingExactly(lost);
  }

  lemma LostNothingExactly(lost: seq<Payout>)
    requires forall p :: p in lost ==> p.amountBTC >= 0.0
    ensures SumOf(lost, AmountOf()) == 0.0 <==> forall p :: p in lost ==> p.amountBTC == 0.0
  {
    ZeroSumExactly(lost, AmountOf());
    assert forall p: Payout :: AmountOf()(p) == p.amountBTC;
  }

  /** A window that begins at noon: the bitcoin paid at noon is on a day that began before it. */
  lemma NoonWindowLosesADay()
    ensures var noon := Payout(43_200_000, 1.0, 0.0, None, false);
            SumOf(Filter([noon], BeginsIn(Utc, 43_200_000, 86_400_000)), AmountOf()) == 0.0 &&
            SumOf(Filter([noon], BeginsOut(Utc, 43_200_000, 86_400_000)), AmountOf()) == 1.0
  {
    var noon := Payout(43_200_000, 1.0, 0.0, None, false);
    FilterOne(noon, BeginsIn(Utc, 43_200_000, 86_400_000));
    FilterOne(noon, BeginsOut(Utc, 43_200_000, 86_400_000));
    assert [noon][..0] == [];
  }
}
