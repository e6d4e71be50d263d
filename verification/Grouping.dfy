/** Logs grouped under a key of their instants, as a Map filled in a loop groups them. */
module Grouping {
  import opened Wrappers
  import opened Seqs
  import opened StableSort

  /** `ts` is None where the code finds no finite number. */
  datatype Entry<T> = Entry(ts: Option<int>, data: T)

  function InBucket<T>(startOf: int -> int, key: int): Entry<T> -> bool {
    (e: Entry<T>) => e.ts.Some? && startOf(e.ts.value) == key
  }

  /** The bucket starts of a log, in the order they are first met. */
  function KeysOf<T>(startOf: int -> int, log: seq<Entry<T>>): seq<int> {
    if log == [] then []
    else
      var keys, e := KeysOf(startOf, log[..|log| - 1]), log[|log| - 1];
      if e.ts.Some? && startOf(e.ts.value) !in keys then keys + [startOf(e.ts.value)] else keys
  }

  /** The Map the loop fills: the keys in insertion order and the entries under each. */
  ghost predicate Collected<T>(startOf: int -> int, log: seq<Entry<T>>, keys: seq<int>,
                               buckets: map<int, seq<Entry<T>>>) {
    && keys == KeysOf(startOf, log)
    && (forall k :: k in buckets <==> k in keys)
    && (forall k :: Filter(log, InBucket(startOf, k)) == if k in buckets then buckets[k] else [])
  }

  lemma CollectedGroup<T>(startOf: int -> int, log: seq<Entry<T>>, keys: seq<int>, buckets: map<int, seq<Entry<T>>>,
                          key: int)
    requires Collected(startOf, log, keys, buckets) && key in keys
    ensures key in buckets && buckets[key] == Filter(log, InBucket(startOf, key))
  {
    assert Filter(log, InBucket(startOf, key)) == if key in buckets then buckets[key] else [];
  }

  lemma CollectOne<T>(startOf: int -> int, log: seq<Entry<T>>, e: Entry<T>, keys: seq<int>,
                      buckets: map<int, seq<Entry<T>>>)
    requires Collected(startOf, log, keys, buckets) && e.ts.Some?
    ensures var k := startOf(e.ts.value);
            Collected(startOf, log + [e], if k in buckets then keys else keys + [k],
                      buckets[k := (if k in buckets then buckets[k] else []) + [e]])
  {
    assert (log + [e])[..|log|] == log;
    forall k
      ensures Filter(log + [e], InBucket(startOf, k)) ==
              Filter(log, InBucket(startOf, k)) + if k == startOf(e.ts.value) then [e] else []
    {
      BucketOneMore(startOf, log, e, k);
    }
  }

  lemma BucketOneMore<T>(startOf: int -> int, log: seq<Entry<T>>, e: Entry<T>, key: int)
    requires e.ts.Some?
    ensures Filter(log + [e], InBucket(startOf, key)) ==
            Filter(log, InBucket(startOf, key)) + if key == startOf(e.ts.value) then [e] else []
  {
    assert (log + [e])[..|log|] == log;
  }

  lemma SkipUndated<T>(startOf: int -> int, log: seq<Entry<T>>, e: Entry<T>, keys: seq<int>,
                       buckets: map<int, seq<Entry<T>>>)
    requires Collected(startOf, log, keys, buckets) && e.ts.None?
    ensures Collected(startOf, log + [e], keys, buckets)
  {
    assert (log + [e])[..|log|] == log;
    forall k
      ensures Filter(log + [e], InBucket(startOf, k)) == Filter(log, InBucket(startOf, k))
    {
    }
  }

  lemma {:induction false} KeysDistinct<T>(startOf: int -> int, log: seq<Entry<T>>)
    ensures Distinct(KeysOf(startOf, log))
  {
    if log != [] { KeysDistinct(startOf, log[..|log| - 1]); }
  }

  lemma {:induction false} KeyIsMet<T>(startOf: int -> int, log: seq<Entry<T>>, key: int) returns (e: Entry<T>)
    requires key in KeysOf(startOf, log)
    ensures e in log && InBucket(startOf, key)(e)
  {
    var front := log[..|log| - 1];
    if key in KeysOf(startOf, front) {
      e := KeyIsMet(startOf, front, key);
    } else {
      e := log[|log| - 1];
    }
  }

  lemma {:induction false} MetIsKey<T>(startOf: int -> int, log: seq<Entry<T>>, e: Entry<T>)
    requires e in log && e.ts.Some?
    ensures startOf(e.ts.value) in KeysOf(startOf, log)
  {
    var front := log[..|log| - 1];
    if e in front {
      MetIsKey(startOf, front, e);
    } else {
      assert log == front + [log[|log| - 1]];
    }
  }

  /** The entries under each key, entry by entry. */
  function BucketsOf<T>(startOf: int -> int, log: seq<Entry<T>>): map<int, seq<Entry<T>>> {
    if log == [] then map[]
    else
      var buckets, e := BucketsOf(startOf, log[..|log| - 1]), log[|log| - 1];
      if e.ts.None? then buckets
      else
        var key := startOf(e.ts.value);
        buckets[key := (if key in buckets then buckets[key] else []) + [e]]
  }

  lemma {:induction false} BucketsCollected<T>(startOf: int -> int, log: seq<Entry<T>>)
    ensures Collected(startOf, log, KeysOf(startOf, log), BucketsOf(startOf, log))
  {
    if log != [] {
      var front, e := log[..|log| - 1], log[|log| - 1];
      assert log == front + [e];
      BucketsCollected(startOf, front);
      if e.ts.Some? {
        BucketHasKey(startOf, front, startOf(e.ts.value));
        CollectOne(startOf, front, e, KeysOf(startOf, front), BucketsOf(startOf, front));
      } else {
        SkipUndated(startOf, front, e, KeysOf(startOf, front), BucketsOf(startOf, front));
      }
    }
  }

  lemma {:induction false} BucketHasKey<T>(startOf: int -> int, log: seq<Entry<T>>, key: int)
    ensures key in BucketsOf(startOf, log) <==> key in KeysOf(startOf, log)
  {
    if log != [] {
      var front, e := log[..|log| - 1], log[|log| - 1];
      BucketHasKey(startOf, front, key);
      if e.ts.Some? { BucketHasKey(startOf, front, startOf(e.ts.value)); }
    }
  }

  method CollectBuckets<T>(log: seq<Entry<T>>, bucketStartOf: int -> int)
    returns (keys: seq<int>, buckets: map<int, seq<Entry<T>>>)
    ensures Collected(bucketStartOf, log, keys, buckets)
  {
    keys, buckets := [], map[];
    for i := 0 to |log|
      invariant keys == KeysOf(bucketStartOf, log[..i]) && buckets == BucketsOf(bucketStartOf, log[..i])
    {
      var e := log[i];
      assert log[..i + 1][..i] == log[..i];
      if e.ts.Some? {
        var bucketStart := bucketStartOf(e.ts.value);
        BucketHasKey(bucketStartOf, log[..i], bucketStart);
        if bucketStart !in buckets {
          keys := keys + [bucketStart];
          buckets := buckets[bucketStart := []];
        }
        buckets := buckets[bucketStart := buckets[bucketStart] + [e]];
      }
    }
    assert log[..|log|] == log;
    BucketsCollected(bucketStartOf, log);
  }
}
