/** workers/lib/server/handlers/pools.handlers.js: pool hashrate per report window, samples assigned by
    binary search and averaged per account. */
module PoolHashrate {
  import opened Wrappers
  import opened Seqs
  import opened StableSort

  datatype Bucket = Bucket(ts: int, startTs: int, endTs: int)

  /** A history sample with a usable ts; `account` is poolType:username. */
  datatype Sample = Sample(ts: int, account: string, hashrate: Option<real>)

  /** Total and number of the samples of one account in one window. */
  datatype Tally = Tally(total: real, count: real)

  /** The Map of one window: its accounts in insertion order. */
  datatype Tallies = Tallies(order: seq<string>, of: map<string, Tally>)

  // ---------- the windows ----------

  predicate Contains(b: Bucket, ts: int) {
    b.startTs <= ts <= b.endTs
  }

  ghost predicate Windows(buckets: seq<Bucket>) {
    && (forall i :: 0 <= i < |buckets| ==> buckets[i].startTs <= buckets[i].endTs)
    && (forall i, j, ts :: 0 <= i < j < |buckets| && Contains(buckets[i], ts) ==> !Contains(buckets[j], ts))
  }

  function ByStart(): (Bucket, Bucket) -> bool {
    (a: Bucket, b: Bucket) => a.startTs <= b.startTs
  }

  lemma ByStartIsPreorder()
    ensures TotalPreorder(ByStart())
  {
  }

  ghost predicate OneAfterAnother(sorted: seq<Bucket>) {
    && (forall i :: 0 <= i < |sorted| ==> sorted[i].startTs <= sorted[i].endTs)
    && (forall i, j :: 0 <= i < j < |sorted| ==> sorted[i].endTs < sorted[j].startTs)
  }

  /** The last window that starts by `ts`, if it still contains it. */
  method FindBucketIdx(sorted: seq<Bucket>, ts: int) returns (r: int)
    requires OneAfterAnother(sorted)
    ensures r == -1 || (0 <= r < |sorted| && Contains(sorted[r], ts))
    ensures r == -1 ==> forall i :: 0 <= i < |sorted| ==> !Contains(sorted[i], ts)
  {
    var lo, hi, idx := 0, |sorted| - 1, -1;
    while lo <= hi
      invariant 0 <= lo <= hi + 1 <= |sorted|
      invariant idx == lo - 1
      invariant forall i :: 0 <= i < lo ==> sorted[i].startTs <= ts
      invariant forall i :: hi < i < |sorted| ==> sorted[i].startTs > ts
    {
      var mid := (lo + hi) / 2;
      if sorted[mid].startTs <= ts {
        assert forall i :: 0 <= i < mid ==> sorted[i].endTs < sorted[mid].startTs;
        idx := mid;
        lo := mid + 1;
      } else {
        assert forall i :: mid < i < |sorted| ==> sorted[mid].endTs < sorted[i].startTs;
        hi := mid - 1;
      }
    }
    r := if idx >= 0 && ts <= sorted[idx].endTs then idx else -1;
  }

  // ---------- the plain specification ----------

  predicate Counts(b: Bucket, accounts: Option<set<string>>, s: Sample) {
    Contains(b, s.ts) && (accounts.Some? ==> s.account in accounts.value) && s.hashrate.Some?
  }

  function Contribution(b: Bucket, accounts: Option<set<string>>, account: string): Sample -> real {
    (s: Sample) => if Counts(b, accounts, s) && s.account == account then s.hashrate.value else 0.0
  }

  function Occurrence(b: Bucket, accounts: Option<set<string>>, account: string): Sample -> real {
    (s: Sample) => if Counts(b, accounts, s) && s.account == account then 1.0 else 0.0
  }

  function TallyOf(samples: seq<Sample>, b: Bucket, accounts: Option<set<string>>, account: string): Tally {
    Tally(SumOf(samples, Contribution(b, accounts, account)), SumOf(samples, Occurrence(b, accounts, account)))
  }

  /** The accounts with a sample in the window, in first-seen order. */
  function AccountsIn(samples: seq<Sample>, b: Bucket, accounts: Option<set<string>>): seq<string> {
    if samples == [] then []
    else
      var seen, s := AccountsIn(samples[..|samples| - 1], b, accounts), samples[|samples| - 1];
      if Counts(b, accounts, s) && s.account !in seen then seen + [s.account] else seen
  }

  function MeanOf(samples: seq<Sample>, b: Bucket, accounts: Option<set<string>>): string -> real {
    (account: string) => var t := TallyOf(samples, b, accounts, account);
                         if t.count == 0.0 then 0.0 else t.total / t.count
  }

  /** The sum over accounts of the mean of that account's samples in the window, in MH/s; None
      without samples. */
  function WindowHashrate(samples: seq<Sample>, b: Bucket, accounts: Option<set<string>>): Option<real> {
    var names := AccountsIn(samples, b, accounts);
    if names == [] then None else Some(SumOf(names, MeanOf(samples, b, accounts)) / 1000000.0)
  }

  // ---------- the code ----------

  ghost predicate Tallied(t: Tallies, samples: seq<Sample>, b: Bucket, accounts: Option<set<string>>) {
    && t.order == AccountsIn(samples, b, accounts)
    && (forall a :: a in t.of <==> a in t.order)
    && (forall a :: TallyOf(samples, b, accounts, a) == At(t, a))
  }

  function Bump(t: Tallies, account: string, hashrate: real): Tallies {
    var acc := if account in t.of then t.of[account] else Tally(0.0, 0.0);
    Tallies(if account in t.of then t.order else t.order + [account],
            t.of[account := Tally(acc.total + hashrate, acc.count + 1.0)])
  }

  function At(t: Tallies, a: string): Tally {
    if a in t.of then t.of[a] else Tally(0.0, 0.0)
  }

  lemma TallyOne(t: Tallies, samples: seq<Sample>, b: Bucket, accounts: Option<set<string>>, s: Sample)
    requires Tallied(t, samples, b, accounts)
    ensures Tallied(if Counts(b, accounts, s) then Bump(t, s.account, s.hashrate.value) else t,
                    samples + [s], b, accounts)
  {
    assert (samples + [s])[..|samples|] == samples;
    var t' := if Counts(b, accounts, s) then Bump(t, s.account, s.hashrate.value) else t;
    forall a
      ensures TallyOf(samples + [s], b, accounts, a) == At(t', a)
    {
      assert TallyOf(samples, b, accounts, a) == At(t, a);
    }
  }

  ghost predicate AllTallied(perBucket: seq<Tallies>, samples: seq<Sample>, sorted: seq<Bucket>,
                             accounts: Option<set<string>>) {
    |perBucket| == |sorted| && forall k :: 0 <= k < |sorted| ==> Tallied(perBucket[k], samples, sorted[k], accounts)
  }

  lemma TallyNowhere(perBucket: seq<Tallies>, samples: seq<Sample>, sorted: seq<Bucket>,
                     accounts: Option<set<string>>, s: Sample)
    requires AllTallied(perBucket, samples, sorted, accounts)
    requires forall k :: 0 <= k < |sorted| ==> !Counts(sorted[k], accounts, s)
    ensures AllTallied(perBucket, samples + [s], sorted, accounts)
  {
    forall k | 0 <= k < |sorted|
      ensures Tallied(perBucket[k], samples + [s], sorted[k], accounts)
    {
      TallyOne(perBucket[k], samples, sorted[k], accounts, s);
    }
  }

  lemma TallyAt(perBucket: seq<Tallies>, samples: seq<Sample>, sorted: seq<Bucket>, accounts: Option<set<string>>,
                s: Sample, idx: nat)
    requires AllTallied(perBucket, samples, sorted, accounts) && idx < |sorted| && Counts(sorted[idx], accounts, s)
    requires forall k :: 0 <= k < |sorted| && k != idx ==> !Counts(sorted[k], accounts, s)
    ensures AllTallied(perBucket[idx := Bump(perBucket[idx], s.account, s.hashrate.value)], samples + [s], sorted,
                       accounts)
  {
    var bumped := perBucket[idx := Bump(perBucket[idx], s.account, s.hashrate.value)];
    forall k | 0 <= k < |sorted|
      ensures Tallied(bumped[k], samples + [s], sorted[k], accounts)
    {
      TallyOne(perBucket[k], samples, sorted[k], accounts, s);
    }
  }

  method AssignSamples(samples: seq<Sample>, sorted: seq<Bucket>, accounts: Option<set<string>>)
    returns (perBucket: seq<Tallies>)
    requires OneAfterAnother(sorted)
    ensures AllTallied(perBucket, samples, sorted, accounts)
  {
    perBucket := seq(|sorted|, i => Tallies([], map[]));
    for i := 0 to |samples|
      invariant AllTallied(perBucket, samples[..i], sorted, accounts)
    {
      assert samples[..i + 1] == samples[..i] + [samples[i]];
      perBucket := AssignSample(samples[i], sorted, accounts, perBucket, samples[..i]);
    }
    assert samples[..|samples|] == samples;
  }

  /** Adds one sample to the window that contains it, if there is one. */
  method AssignSample(s: Sample, sorted: seq<Bucket>, accounts: Option<set<string>>, perBucket: seq<Tallies>,
                      ghost samples: seq<Sample>)
    returns (r: seq<Tallies>)
    requires OneAfterAnother(sorted) && AllTallied(perBucket, samples, sorted, accounts)
    ensures AllTallied(r, samples + [s], sorted, accounts)
  {
    if accounts.None? || s.account in accounts.value {
      var idx := FindBucketIdx(sorted, s.ts);
      if idx != -1 && s.hashrate.Some? {
        OnlyOneContains(sorted, s.ts, idx);
        TallyAt(perBucket, samples, sorted, accounts, s, idx);
        return perBucket[idx := Bump(perBucket[idx], s.account, s.hashrate.value)];
      }
    }
    TallyNowhere(perBucket, samples, sorted, accounts, s);
    r := perBucket;
  }

  lemma OnlyOneContains(sorted: seq<Bucket>, ts: int, idx: int)
    requires OneAfterAnother(sorted) && 0 <= idx < |sorted| && Contains(sorted[idx], ts)
    ensures forall k :: 0 <= k < |sorted| && k != idx ==> !Contains(sorted[k], ts)
  {
  }

  lemma MeanIs(t: Tallies, samples: seq<Sample>, b: Bucket, accounts: Option<set<string>>, account: string)
    requires Tallied(t, samples, b, accounts) && account in t.order
    ensures account in t.of && t.of[account].count > 0.0
    ensures t.of[account].total / t.of[account].count == MeanOf(samples, b, accounts)(account)
  {
    SeenHasCount(samples, b, accounts, account);
  }

  /** The mean of a tally with samples. */
  function Quotient(t: Tally): real
    requires t.count > 0.0
  {
    t.total / t.count
  }

  /** Sums the means of one window's accounts in insertion order. */
  method SumMeans(t: Tallies, ghost mean: string -> real) returns (totalHs: real)
    requires HasMeans(t, mean)
    ensures totalHs == SumOf(t.order, mean)
  {
    totalHs := 0.0;
    for i := 0 to |t.order|
      invariant totalHs == SumOf(t.order[..i], mean)
    {
      assert t.order[i] in t.order;
      totalHs := totalHs + Quotient(t.of[t.order[i]]);
      assert t.order[..i + 1][..i] == t.order[..i];
    }
    assert t.order[..|t.order|] == t.order;
  }

  ghost predicate HasMeans(t: Tallies, mean: string -> real) {
    forall a :: a in t.order ==> a in t.of && t.of[a].count > 0.0 && Quotient(t.of[a]) == mean(a)
  }

  lemma TalliedMeans(t: Tallies, samples: seq<Sample>, b: Bucket, accounts: Option<set<string>>)
    requires Tallied(t, samples, b, accounts)
    ensures HasMeans(t, MeanOf(samples, b, accounts)) && t.order == AccountsIn(samples, b, accounts)
  {
    forall a | a in t.order
      ensures a in t.of && t.of[a].count > 0.0 && Quotient(t.of[a]) == MeanOf(samples, b, accounts)(a)
    {
      MeanIs(t, samples, b, accounts, a);
    }
  }

  method SumWindow(t: Tallies, ghost names: seq<string>, ghost mean: string -> real) returns (r: Option<real>)
    requires HasMeans(t, mean) && t.order == names
    ensures r == if names == [] then None else Some(SumOf(names, mean) / 1000000.0)
  {
    if |t.order| == 0 { return None; }
    var totalHs := SumMeans(t, mean);
    r := Some(totalHs / 1000000.0);
  }

  lemma {:induction false} SeenHasCount(samples: seq<Sample>, b: Bucket, accounts: Option<set<string>>, account: string)
    ensures TallyOf(samples, b, accounts, account).count >= 0.0
    ensures account in AccountsIn(samples, b, accounts) <==> TallyOf(samples, b, accounts, account).count > 0.0
  {
    if samples != [] {
      SeenHasCount(samples[..|samples| - 1], b, accounts, account);
    }
  }

  ghost predicate DistinctTs(buckets: seq<Bucket>) {
    forall i, j :: 0 <= i < j < |buckets| ==> buckets[i].ts != buckets[j].ts
  }

  /** The hashrate of each window of these samples. */
  function HashrateIn(samples: seq<Sample>, accounts: Option<set<string>>): Bucket -> Option<real> {
    (b: Bucket) => WindowHashrate(samples, b, accounts)
  }

  /** The answer has an entry for every window given, and it is that window's own. */
  ghost predicate Answers(byBucket: map<int, Option<real>>, buckets: seq<Bucket>, hashrate: Bucket -> Option<real>) {
    && (forall ts :: ts in byBucket <==> exists b :: b in buckets && b.ts == ts)
    && (forall b :: b in buckets ==> b.ts in byBucket && byBucket[b.ts] == hashrate(b))
  }

  lemma AnswerOne(byBucket: map<int, Option<real>>, buckets: seq<Bucket>, hashrate: Bucket -> Option<real>, b: Bucket)
    requires Answers(byBucket, buckets, hashrate) && DistinctTs(buckets + [b])
    ensures Answers(byBucket[b.ts := hashrate(b)], buckets + [b], hashrate)
  {
    forall c | c in buckets
      ensures c.ts != b.ts
    {
      var i :| 0 <= i < |buckets| && buckets[i] == c;
      assert (buckets + [b])[i].ts != (buckets + [b])[|buckets|].ts;
    }
    assert b in buckets + [b];
  }

  method AnswerWindow(t: Tallies, ghost samples: seq<Sample>, ghost b: Bucket, ghost accounts: Option<set<string>>)
    returns (r: Option<real>)
    requires Tallied(t, samples, b, accounts)
    ensures r == HashrateIn(samples, accounts)(b)
  {
    TalliedMeans(t, samples, b, accounts);
    r := SumWindow(t, AccountsIn(samples, b, accounts), MeanOf(samples, b, accounts));
  }

  method AnswerWindows(sorted: seq<Bucket>, perBucket: seq<Tallies>, ghost samples: seq<Sample>,
                       ghost accounts: Option<set<string>>)
    returns (byBucket: map<int, Option<real>>)
    requires AllTallied(perBucket, samples, sorted, accounts) && DistinctTs(sorted)
    ensures Answers(byBucket, sorted, HashrateIn(samples, accounts))
  {
    byBucket := map[];
    for i := 0 to |sorted|
      invariant Answers(byBucket, sorted[..i], HashrateIn(samples, accounts))
    {
      var total := AnswerWindow(perBucket[i], samples, sorted[i], accounts);
      assert sorted[..i + 1] == sorted[..i] + [sorted[i]];
      AnswerOne(byBucket, sorted[..i], HashrateIn(samples, accounts), sorted[i]);
      byBucket := byBucket[sorted[i].ts := total];
    }
    assert sorted[..|sorted|] == sorted;
  }

  /** For disjoint windows in any order, each window gets exactly what its own samples say. */
  method ResolvePoolHashrateForBuckets(samples: seq<Sample>, buckets: seq<Bucket>, accounts: Option<set<string>>)
    returns (byBucket: map<int, Option<real>>)
    requires Windows(buckets) && DistinctTs(buckets)
    ensures Answers(byBucket, buckets, HashrateIn(samples, accounts))
  {
    var sorted := Sort(buckets, ByStart());
    SortWindows(buckets);
    SortedWindows(buckets, sorted);
    var perBucket := AssignSamples(samples, sorted, accounts);
    byBucket := AnswerWindows(sorted, perBucket, samples, accounts);
  }

  lemma SortWindows(buckets: seq<Bucket>)
    requires DistinctTs(buckets)
    ensures Sorted(Sort(buckets, ByStart()), ByStart()) && Distinct(Sort(buckets, ByStart()))
    ensures forall b :: b in Sort(buckets, ByStart()) <==> b in buckets
  {
    ByStartIsPreorder();
    SortSorts(buckets, ByStart());
    SortDistinct(buckets, ByStart());
  }

  lemma SortedWindows(buckets: seq<Bucket>, sorted: seq<Bucket>)
    requires Windows(buckets) && DistinctTs(buckets)
    requires Sorted(sorted, ByStart()) && Distinct(sorted) && forall b :: b in sorted <==> b in buckets
    ensures OneAfterAnother(sorted) && DistinctTs(sorted)
  {
    forall i | 0 <= i < |sorted| ensures sorted[i].startTs <= sorted[i].endTs {
      assert sorted[i] in buckets;
    }
    forall i, j | 0 <= i < j < |sorted|
      ensures sorted[i].endTs < sorted[j].startTs && sorted[i].ts != sorted[j].ts
    {
      assert ByStart()(sorted[i], sorted[j]) && sorted[i] in buckets && sorted[j] in buckets;
      var k, l :| 0 <= k < |buckets| && 0 <= l < |buckets| && buckets[k] == sorted[i] && buckets[l] == sorted[j];
      Apart(buckets, k, l);
    }
  }

  lemma Apart(buckets: seq<Bucket>, k: int, l: int)
    requires Windows(buckets) && 0 <= k < |buckets| && 0 <= l < |buckets| && k != l
    requires buckets[k].startTs <= buckets[l].startTs
    ensures buckets[k].endTs < buckets[l].startTs
    ensures DistinctTs(buckets) ==> buckets[k].ts != buckets[l].ts
  {
    assert Contains(buckets[l], buckets[l].startTs);
    assert Contains(buckets[k], buckets[l].startTs) <==> buckets[l].startTs <= buckets[k].endTs;
  }

  // ---------- the order of the samples does not matter ----------

  lemma {:induction false} DistinctCounts<T>(xs: seq<T>, x: T)
    requires Distinct(xs)
    ensures multiset(xs)[x] == if x in xs then 1 else 0
  {
    if xs != [] {
      DistinctCounts(xs[..|xs| - 1], x);
      assert xs == xs[..|xs| - 1] + [xs[|xs| - 1]];
    }
  }

  lemma {:induction false} AccountsDistinct(samples: seq<Sample>, b: Bucket, accounts: Option<set<string>>)
    ensures Distinct(AccountsIn(samples, b, accounts))
  {
    if samples != [] { AccountsDistinct(samples[..|samples| - 1], b, accounts); }
  }

  lemma SameTallies(xs: seq<Sample>, ys: seq<Sample>, b: Bucket, accounts: Option<set<string>>, account: string)
    requires multiset(xs) == multiset(ys)
    ensures TallyOf(xs, b, accounts, account) == TallyOf(ys, b, accounts, account)
    ensures account in AccountsIn(xs, b, accounts) <==> account in AccountsIn(ys, b, accounts)
  {
    SumOfPermutation(xs, ys, Contribution(b, accounts, account));
    SumOfPermutation(xs, ys, Occurrence(b, accounts, account));
    SeenHasCount(xs, b, accounts, account);
    SeenHasCount(ys, b, accounts, account);
  }

  lemma SameAccounts(xs: seq<Sample>, ys: seq<Sample>, b: Bucket, accounts: Option<set<string>>)
    requires multiset(xs) == multiset(ys)
    ensures multiset(AccountsIn(xs, b, accounts)) == multiset(AccountsIn(ys, b, accounts))
  {
    var ax, ay := AccountsIn(xs, b, accounts), AccountsIn(ys, b, accounts);
    AccountsDistinct(xs, b, accounts);
    AccountsDistinct(ys, b, accounts);
    forall a
      ensures multiset(ax)[a] == multiset(ay)[a]
    {
      SameTallies(xs, ys, b, accounts, a);
      DistinctCounts(ax, a);
      DistinctCounts(ay, a);
    }
  }

  lemma SameMean(xs: seq<Sample>, ys: seq<Sample>, b: Bucket, accounts: Option<set<string>>, account: string)
    requires multiset(xs) == multiset(ys)
    ensures MeanOf(xs, b, accounts)(account) == MeanOf(ys, b, accounts)(account)
  {
    SameTallies(xs, ys, b, accounts, account);
  }

  lemma SameSum(xs: seq<string>, ys: seq<string>, f: string -> real, g: string -> real)
    requires multiset(xs) == multiset(ys) && forall x :: f(x) == g(x)
    ensures SumOf(xs, f) == SumOf(ys, g) && (xs == [] <==> ys == [])
  {
    SumOfPermutation(xs, ys, f);
    SumOfAgree(ys, f, g);
    assert |xs| == |multiset(xs)| == |multiset(ys)| == |ys|;
  }

  /** Delivering the same samples in another order gives every window the same hashrate. */
  lemma SampleOrderIrrelevant(xs: seq<Sample>, ys: seq<Sample>, b: Bucket, accounts: Option<set<string>>)
    requires multiset(xs) == multiset(ys)
    ensures WindowHashrate(xs, b, accounts) == WindowHashrate(ys, b, accounts)
  {
    SameAccounts(xs, ys, b, accounts);
    forall a
      ensures MeanOf(xs, b, accounts)(a) == MeanOf(ys, b, accounts)(a)
    {
      SameMean(xs, ys, b, accounts, a);
    }
    SameSum(AccountsIn(xs, b, accounts), AccountsIn(ys, b, accounts), MeanOf(xs, b, accounts), MeanOf(ys, b, accounts));
  }

  // ---------- what a window's hashrate says ----------

  /** The samples of an account that a window counts, by whatever test they are found. */
  ghost predicate IsCounted(b: Bucket, accounts: Option<set<string>>, account: string, counted: Sample -> bool,
                            s: Sample) {
    counted(s) <==> b.startTs <= s.ts <= b.endTs && (accounts.Some? ==> s.account in accounts.value) &&
                    s.hashrate.Some? && s.account == account
  }

  ghost predicate Finds(b: Bucket, accounts: Option<set<string>>, account: string, counted: Sample -> bool) {
    forall s :: IsCounted(b, accounts, account, counted, s)
  }

  ghost predicate Reads(rate: Sample -> real) {
    forall s: Sample :: s.hashrate.Some? ==> rate(s) == s.hashrate.value
  }

  lemma {:induction false} TallyTells(samples: seq<Sample>, b: Bucket, accounts: Option<set<string>>, account: string,
                                      counted: Sample -> bool, rate: Sample -> real)
    requires Finds(b, accounts, account, counted) && Reads(rate)
    ensures var t := TallyOf(samples, b, accounts, account);
            t.total == SumOf(Filter(samples, counted), rate) && t.count == |Filter(samples, counted)| as real
  {
    if samples != [] {
      var front, last := samples[..|samples| - 1], samples[|samples| - 1];
      TallyTells(front, b, accounts, account, counted, rate);
      assert IsCounted(b, accounts, account, counted, last);
      if counted(last) {
        SumOfSnoc(Filter(front, counted), last, rate);
      } else {
        assert Filter(samples, counted) == Filter(front, counted);
      }
    }
  }

  /** The mean of an account with samples is that of its samples. */
  lemma MeanTells(samples: seq<Sample>, b: Bucket, accounts: Option<set<string>>, account: string,
                  counted: Sample -> bool, rate: Sample -> real)
    requires Finds(b, accounts, account, counted) && Reads(rate)
    ensures account in AccountsIn(samples, b, accounts) <==> Filter(samples, counted) != []
    ensures Filter(samples, counted) != [] ==>
              IsMean(MeanOf(samples, b, accounts)(account), Filter(samples, counted), rate)
  {
    TallyTells(samples, b, accounts, account, counted, rate);
    SeenHasCount(samples, b, accounts, account);
    if Filter(samples, counted) != [] {
      QuotientMeans(TallyOf(samples, b, accounts, account), Filter(samples, counted), rate);
    }
  }

  lemma QuotientMeans(t: Tally, of: seq<Sample>, rate: Sample -> real)
    requires of != [] && t.total == SumOf(of, rate) && t.count == |of| as real
    ensures t.count != 0.0 && IsMean(t.total / t.count, of, rate)
  {
    DividesBack(t.total, t.count);
  }

  /** `mean` is the mean of the account's samples. */
  ghost predicate IsAccountMean(samples: seq<Sample>, counted: Sample -> bool, rate: Sample -> real, mean: real) {
    Filter(samples, counted) != [] ==> IsMean(mean, Filter(samples, counted), rate)
  }

  /** Of the accounts with a sample in the window, however they are listed and their samples are found: a
      million times the hashrate is the sum of their means, and there is none exactly if there are no such
      accounts. */
  lemma WindowTells(samples: seq<Sample>, b: Bucket, accounts: Option<set<string>>, names: seq<string>,
                    counted: string -> Sample -> bool, rate: Sample -> real, mean: string -> real)
    requires Reads(rate) && forall a :: Finds(b, accounts, a, counted(a))
    requires Distinct(names) && forall a :: a in names <==> Filter(samples, counted(a)) != []
    requires forall a :: IsAccountMean(samples, counted(a), rate, mean(a))
    ensures var r := WindowHashrate(samples, b, accounts);
            (r.Some? <==> names != []) && (r.Some? ==> r.value * 1_000_000.0 == SumOf(names, mean))
  {
    var seen := AccountsIn(samples, b, accounts);
    forall a
      ensures a in seen <==> a in names
      ensures a in seen ==> MeanOf(samples, b, accounts)(a) == mean(a)
    {
      MeanTells(samples, b, accounts, a, counted(a), rate);
      assert IsAccountMean(samples, counted(a), rate, mean(a));
      if a in seen { MeanUnique(MeanOf(samples, b, accounts)(a), mean(a), Filter(samples, counted(a)), rate); }
    }
    SumOfAgree(seen, MeanOf(samples, b, accounts), mean);
    AccountsDistinct(samples, b, accounts);
    SameMembers(seen, names);
    SumOfPermutation(seen, names, mean);
  }

  lemma SameMembers(xs: seq<string>, ys: seq<string>)
    requires Distinct(xs) && Distinct(ys) && forall a :: a in xs <==> a in ys
    ensures multiset(xs) == multiset(ys) && (xs == [] <==> ys == [])
  {
    forall a
      ensures multiset(xs)[a] == multiset(ys)[a]
    {
      DistinctCounts(xs, a);
      DistinctCounts(ys, a);
    }
    assert multiset(xs) == multiset(ys);
    assert |xs| == |multiset(xs)| && |ys| == |multiset(ys)|;
  }
}
