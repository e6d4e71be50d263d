/** workers/lib/metrics.utils.js: rack-meter power split over the groups a meter feeds. */
module DcsPower {
  import opened Wrappers
  import opened Seqs

  datatype Meter = Meter(role: string, equipment: string, power: Option<real>)

  /** A branch of the energy layout; `feeds` is None where the text does not read Groups a-b. */
  datatype Branch = Branch(meter: string, feeds: Option<(nat, nat)>)

  /** Power per group; `order` lists the groups as they were first assigned. */
  datatype Ledger = Ledger(order: seq<nat>, of: map<nat, real>)

  ghost predicate Valid(l: Ledger) {
    && (forall g :: g in l.of <==> g in l.order)
    && (forall i, j :: 0 <= i < j < |l.order| ==> l.order[i] != l.order[j])
  }

  function Power(l: Ledger, group: nat): real {
    if group in l.of then l.of[group] else 0.0
  }

  function PowerIn(of: map<nat, real>): nat -> real {
    (g: nat) => if g in of then of[g] else 0.0
  }

  function Total(l: Ledger): real {
    SumOf(l.order, PowerIn(l.of))
  }

  /** groupPower[g] = (groupPower[g] || 0) + p. */
  function Credit(l: Ledger, group: nat, p: real): Ledger {
    Ledger(if group in l.of then l.order else l.order + [group], l.of[group := Power(l, group) + p])
  }

  function Groups(start: nat, end: nat): seq<nat> {
    if end < start then [] else seq(end - start + 1, i requires 0 <= i => start + i)
  }

  /** getMeterGroupMapping: the first branch of the meter that names its groups. */
  function Covered(meterId: string, branches: seq<Branch>): seq<nat> {
    if branches == [] then []
    else if branches[0].meter == meterId && branches[0].feeds.Some? then
      Groups(branches[0].feeds.value.0, branches[0].feeds.value.1)
    else Covered(meterId, branches[1..])
  }

  function HashrateOf(hashrates: map<nat, real>): nat -> real {
    (g: nat) => if g in hashrates then hashrates[g] else 0.0
  }

  function SumHashrate(groups: seq<nat>, hashrates: map<nat, real>): real {
    SumOf(groups, HashrateOf(hashrates))
  }

  function Portion(power: real, hashrate: real, total: real): real
    requires total > 0.0
  {
    var proportion := hashrate / total;
    power * proportion
  }

  /** What one meter gives one of its groups: by hashrate, or equally when nobody hashes. */
  function Share(power: real, groups: seq<nat>, hashrates: map<nat, real>, group: nat): real
    requires groups != []
  {
    var total := SumHashrate(groups, hashrates);
    if total > 0.0 then Portion(power, HashrateOf(hashrates)(group), total) else power / |groups| as real
  }

  function MeterPower(m: Meter): real {
    if m.power.Some? then m.power.value else 0.0
  }

  /** A rack meter that is split: it covers groups and measures something. */
  predicate Splits(m: Meter, branches: seq<Branch>) {
    m.role == "rack" && Covered(m.equipment, branches) != [] && MeterPower(m) != 0.0
  }

  // ---------- the code ----------

  method SplitByHashrate(l: Ledger, power: real, groups: seq<nat>, hashrates: map<nat, real>, totalHashrate: real)
    returns (r: Ledger)
    requires Valid(l) && groups != [] && totalHashrate == SumHashrate(groups, hashrates) && totalHashrate > 0.0
    ensures Valid(r) && r == Credited(l, power, groups, hashrates, |groups|)
  {
    r := l;
    for i := 0 to |groups|
      invariant Valid(r) && r == Credited(l, power, groups, hashrates, i)
    {
      var portion := Portion(power, HashrateOf(hashrates)(groups[i]), totalHashrate);
      CreditedNext(l, power, groups, hashrates, i);
      r := Credit(r, groups[i], portion);
    }
  }

  method SplitEqually(l: Ledger, power: real, groups: seq<nat>, hashrates: map<nat, real>) returns (r: Ledger)
    requires Valid(l) && groups != [] && SumHashrate(groups, hashrates) <= 0.0
    ensures Valid(r) && r == Credited(l, power, groups, hashrates, |groups|)
  {
    r := l;
    var perGroup := power / |groups| as real;
    for i := 0 to |groups|
      invariant Valid(r) && r == Credited(l, power, groups, hashrates, i)
    {
      CreditedNext(l, power, groups, hashrates, i);
      r := Credit(r, groups[i], perGroup);
    }
  }

  /** Credits each covered group with its share. */
  method SplitMeter(l: Ledger, power: real, groups: seq<nat>, hashrates: map<nat, real>) returns (r: Ledger)
    requires Valid(l) && groups != []
    ensures Valid(r) && r == Credited(l, power, groups, hashrates, |groups|)
  {
    var totalHashrate := 0.0;
    for i := 0 to |groups|
      invariant totalHashrate == SumHashrate(groups[..i], hashrates)
    {
      assert groups[..i + 1][..i] == groups[..i];
      totalHashrate := totalHashrate + HashrateOf(hashrates)(groups[i]);
    }
    assert groups[..|groups|] == groups;
    if totalHashrate > 0.0 {
      r := SplitByHashrate(l, power, groups, hashrates, totalHashrate);
    } else {
      r := SplitEqually(l, power, groups, hashrates);
    }
  }

  /** The ledger after the first n groups of a meter. */
  function Credited(l: Ledger, power: real, groups: seq<nat>, hashrates: map<nat, real>, n: nat): Ledger
    requires n <= |groups| && groups != []
  {
    if n == 0 then l
    else
      var share := Share(power, groups, hashrates, groups[n - 1]);
      Credit(Credited(l, power, groups, hashrates, n - 1), groups[n - 1], share)
  }

  lemma CreditedNext(l: Ledger, power: real, groups: seq<nat>, hashrates: map<nat, real>, i: nat)
    requires i < |groups| && Valid(Credited(l, power, groups, hashrates, i))
    ensures Credited(l, power, groups, hashrates, i + 1) ==
            Credit(Credited(l, power, groups, hashrates, i), groups[i], Share(power, groups, hashrates, groups[i]))
    ensures Valid(Credited(l, power, groups, hashrates, i + 1))
  {
  }

  method BuildGroupPowerFromDCS(meters: seq<Meter>, hashrates: map<nat, real>, branches: seq<Branch>)
    returns (groupPower: Ledger)
    ensures Valid(groupPower) && groupPower == Built(meters, hashrates, branches)
  {
    groupPower := Ledger([], map[]);
    for i := 0 to |meters|
      invariant Valid(groupPower) && groupPower == Built(meters[..i], hashrates, branches)
    {
      assert meters[..i + 1][..i] == meters[..i];
      var m := meters[i];
      if m.role == "rack" {
        var coveredGroups := Covered(m.equipment, branches);
        if !(|coveredGroups| == 0 || MeterPower(m) == 0.0) {
          groupPower := SplitMeter(groupPower, MeterPower(m), coveredGroups, hashrates);
        }
      }
    }
    assert meters[..|meters|] == meters;
  }

  function Built(meters: seq<Meter>, hashrates: map<nat, real>, branches: seq<Branch>): Ledger {
    if meters == [] then Ledger([], map[])
    else
      var l, m := Built(meters[..|meters| - 1], hashrates, branches), meters[|meters| - 1];
      var groups := Covered(m.equipment, branches);
      if Splits(m, branches) then Credited(l, MeterPower(m), groups, hashrates, |groups|) else l
  }

  // ---------- conservation ----------

  lemma CreditAdds(l: Ledger, group: nat, p: real)
    requires Valid(l)
    ensures Total(Credit(l, group, p)) == Total(l) + p
  {
    var now := Credit(l, group, p);
    SumOfBump(l.order, PowerIn(l.of), PowerIn(now.of), group, p);
    if group !in l.of { SumOfSnoc(l.order, group, PowerIn(now.of)); }
  }

  /** What a meter gives each of its groups. */
  function ShareOf(power: real, groups: seq<nat>, hashrates: map<nat, real>): nat -> real
    requires groups != []
  {
    (g: nat) => Share(power, groups, hashrates, g)
  }

  /** The part of the power given to the first n groups. */
  function Given(power: real, groups: seq<nat>, hashrates: map<nat, real>, n: nat): real
    requires n <= |groups| && groups != []
  {
    SumOf(groups[..n], ShareOf(power, groups, hashrates))
  }

  lemma GivenNext(power: real, groups: seq<nat>, hashrates: map<nat, real>, n: nat)
    requires 0 < n <= |groups|
    ensures Given(power, groups, hashrates, n) ==
            Given(power, groups, hashrates, n - 1) + Share(power, groups, hashrates, groups[n - 1])
  {
    assert groups[..n] == groups[..n - 1] + [groups[n - 1]];
    SumOfSnoc(groups[..n - 1], groups[n - 1], ShareOf(power, groups, hashrates));
  }

  lemma {:induction false} CreditedAdds(l: Ledger, power: real, groups: seq<nat>, hashrates: map<nat, real>, n: nat)
    requires Valid(l) && n <= |groups| && groups != []
    ensures Valid(Credited(l, power, groups, hashrates, n))
    ensures Total(Credited(l, power, groups, hashrates, n)) == Total(l) + Given(power, groups, hashrates, n)
  {
    if n > 0 {
      CreditedAdds(l, power, groups, hashrates, n - 1);
      CreditedNext(l, power, groups, hashrates, n - 1);
      CreditAdds(Credited(l, power, groups, hashrates, n - 1), groups[n - 1],
                 Share(power, groups, hashrates, groups[n - 1]));
      GivenNext(power, groups, hashrates, n);
    }
  }

  lemma ShareSum(power: real, total: real, a: real, b: real)
    requires total > 0.0
    ensures power * (a / total) + power * (b / total) == power * ((a + b) / total)
  {
  }

  lemma {:induction false} ByHashrate(power: real, groups: seq<nat>, hashrates: map<nat, real>, n: nat)
    requires n <= |groups| && groups != [] && SumHashrate(groups, hashrates) > 0.0
    ensures Given(power, groups, hashrates, n) ==
            power * (SumHashrate(groups[..n], hashrates) / SumHashrate(groups, hashrates))
  {
    if n > 0 {
      ByHashrate(power, groups, hashrates, n - 1);
      GivenNext(power, groups, hashrates, n);
      assert groups[..n][..n - 1] == groups[..n - 1];
      ShareSum(power, SumHashrate(groups, hashrates), SumHashrate(groups[..n - 1], hashrates),
               HashrateOf(hashrates)(groups[n - 1]));
    }
  }

  lemma {:induction false} Equally(power: real, groups: seq<nat>, hashrates: map<nat, real>, n: nat)
    requires n <= |groups| && groups != [] && SumHashrate(groups, hashrates) <= 0.0
    ensures Given(power, groups, hashrates, n) == n as real * (power / |groups| as real)
  {
    if n > 0 {
      Equally(power, groups, hashrates, n - 1);
      GivenNext(power, groups, hashrates, n);
      OneShareMore(n, power / |groups| as real);
    }
  }

  lemma OneShareMore(n: nat, share: real)
    requires n > 0
    ensures n as real * share == (n - 1) as real * share + share
  {
  }

  /** In both branches a meter hands out exactly its power. */
  lemma MeterConserved(power: real, groups: seq<nat>, hashrates: map<nat, real>)
    requires groups != []
    ensures Given(power, groups, hashrates, |groups|) == power
  {
    if SumHashrate(groups, hashrates) > 0.0 {
      ByHashrate(power, groups, hashrates, |groups|);
      assert groups[..|groups|] == groups;
    } else {
      Equally(power, groups, hashrates, |groups|);
    }
  }

  /** The power of a rack meter that covers at least one group. */
  function CoveredPowerOf(branches: seq<Branch>): Meter -> real {
    (m: Meter) => if m.role == "rack" && Covered(m.equipment, branches) != [] then MeterPower(m) else 0.0
  }

  function CoveredPower(meters: seq<Meter>, branches: seq<Branch>): real {
    SumOf(meters, CoveredPowerOf(branches))
  }

  /** The groups together get the power of all rack meters that cover at least one group, however the
      meters overlap. */
  lemma {:induction false} PowerConserved(meters: seq<Meter>, hashrates: map<nat, real>, branches: seq<Branch>)
    ensures Valid(Built(meters, hashrates, branches))
    ensures Total(Built(meters, hashrates, branches)) == CoveredPower(meters, branches)
  {
    if meters != [] {
      var front, m := meters[..|meters| - 1], meters[|meters| - 1];
      PowerConserved(front, hashrates, branches);
      if Splits(m, branches) {
        var groups := Covered(m.equipment, branches);
        CreditedAdds(Built(front, hashrates, branches), MeterPower(m), groups, hashrates, |groups|);
        MeterConserved(MeterPower(m), groups, hashrates);
      }
    }
  }

  // ---------- what each group gets ----------

  /** The groups a meter covers are those from a to b of its first branch that names any, and there are
      none if no branch does. */
  lemma {:induction false} CoveredTells(meterId: string, branches: seq<Branch>, group: nat)
    ensures group in Covered(meterId, branches) <==>
            exists i :: 0 <= i < |branches| && FirstFeeds(branches, meterId, i, group)
  {
    if branches != [] {
      CoveredTells(meterId, branches[1..], group);
      if Names(branches[0], meterId) {
        var a, b := branches[0].feeds.value.0, branches[0].feeds.value.1;
        assert a <= group <= b ==> Groups(a, b)[group - a] == group;
        assert FirstFeeds(branches, meterId, 0, group) <==> a <= group <= b;
      } else {
        RestCovers(meterId, branches, group);
      }
    }
  }

  ghost predicate Names(b: Branch, meterId: string) {
    b.meter == meterId && b.feeds.Some?
  }

  lemma RestCovers(meterId: string, branches: seq<Branch>, group: nat)
    requires branches != [] && !Names(branches[0], meterId)
    ensures (exists i :: 0 <= i < |branches| && FirstFeeds(branches, meterId, i, group)) <==>
            exists i :: 0 <= i < |branches[1..]| && FirstFeeds(branches[1..], meterId, i, group)
  {
    var rest := branches[1..];
    if i :| 0 <= i < |branches| && FirstFeeds(branches, meterId, i, group) {
      assert i > 0 && rest[i - 1] == branches[i];
      assert forall j :: 0 <= j < i - 1 ==> rest[j] == branches[j + 1];
      assert FirstFeeds(rest, meterId, i - 1, group);
    }
    if i :| 0 <= i < |rest| && FirstFeeds(rest, meterId, i, group) {
      assert branches[i + 1] == rest[i];
      assert forall j :: 0 < j < i + 1 ==> branches[j] == rest[j - 1];
      assert FirstFeeds(branches, meterId, i + 1, group);
    }
  }

  ghost predicate FirstFeeds(branches: seq<Branch>, meterId: string, i: nat, group: nat) {
    && i < |branches| && Names(branches[i], meterId) && (forall j :: 0 <= j < i ==> !Names(branches[j], meterId))
    && branches[i].feeds.value.0 <= group <= branches[i].feeds.value.1
  }

  /** Shares go by hashrate when anything hashes, and are equal when nothing does. */
  lemma ShareTells(power: real, groups: seq<nat>, hashrates: map<nat, real>, group: nat, rate: nat -> real)
    requires groups != [] && forall g :: rate(g) == if g in hashrates then hashrates[g] else 0.0
    ensures var total := SumOf(groups, rate);
            if total > 0.0 then Share(power, groups, hashrates, group) * total == power * rate(group)
            else Share(power, groups, hashrates, group) * |groups| as real == power
  {
    SumOfAgree(groups, rate, HashrateOf(hashrates));
    var total := SumOf(groups, rate);
    if total > 0.0 {
      PortionTells(power, rate(group), total);
    } else {
      DividesBack(power, |groups| as real);
    }
  }

  lemma PortionTells(power: real, hashrate: real, total: real)
    requires total > 0.0
    ensures Portion(power, hashrate, total) * total == power * hashrate
  {
    DividesBack(hashrate, total);
    assert power * (hashrate / total) * total == power * (hashrate / total * total);
  }

  lemma {:induction false} CoveredDistinct(meterId: string, branches: seq<Branch>)
    ensures forall i, j :: 0 <= i < j < |Covered(meterId, branches)| ==>
            Covered(meterId, branches)[i] != Covered(meterId, branches)[j]
  {
    if branches != [] { CoveredDistinct(meterId, branches[1..]); }
  }

  lemma {:induction false} CreditedGroup(l: Ledger, power: real, groups: seq<nat>, hashrates: map<nat, real>, n: nat,
                                         group: nat)
    requires n <= |groups| && groups != [] && forall i, j :: 0 <= i < j < |groups| ==> groups[i] != groups[j]
    ensures Power(Credited(l, power, groups, hashrates, n), group) ==
            Power(l, group) + if group in groups[..n] then Share(power, groups, hashrates, group) else 0.0
  {
    if n > 0 {
      CreditedGroup(l, power, groups, hashrates, n - 1, group);
      assert groups[..n] == groups[..n - 1] + [groups[n - 1]];
      assert groups[n - 1] !in groups[..n - 1];
    }
  }

  /** The share a group gets from each meter that feeds it. */
  function ShareFrom(hashrates: map<nat, real>, branches: seq<Branch>, group: nat): Meter -> real {
    (m: Meter) =>
      var groups := Covered(m.equipment, branches);
      if Splits(m, branches) && group in groups then Share(MeterPower(m), groups, hashrates, group) else 0.0
  }

  function GroupShare(meters: seq<Meter>, hashrates: map<nat, real>, branches: seq<Branch>, group: nat): real {
    SumOf(meters, ShareFrom(hashrates, branches, group))
  }

  lemma {:induction false} GroupGetsItsShares(meters: seq<Meter>, hashrates: map<nat, real>, branches: seq<Branch>,
                                              group: nat)
    ensures Power(Built(meters, hashrates, branches), group) == GroupShare(meters, hashrates, branches, group)
  {
    if meters != [] {
      var front, m := meters[..|meters| - 1], meters[|meters| - 1];
      GroupGetsItsShares(front, hashrates, branches, group);
      if Splits(m, branches) {
        var groups := Covered(m.equipment, branches);
        CoveredDistinct(m.equipment, branches);
        CreditedGroup(Built(front, hashrates, branches), MeterPower(m), groups, hashrates, |groups|, group);
        assert groups[..|groups|] == groups;
      }
    }
  }
}
