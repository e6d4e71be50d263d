/** workers/lib/server/lib/monthlyHashesCache.js: the least-recently-used cache with expiry. */
module MonthlyHashesCache {
  import opened Wrappers
  import opened Seqs

  datatype Slot<K, V> = Slot(key: K, value: V, expiresAt: int)

  /** A Map in insertion order, the oldest slot first. */
  type Slots<K, V> = seq<Slot<K, V>>

  ghost predicate UniqueKeys<K, V>(slots: Slots<K, V>) {
    forall i, j :: 0 <= i < j < |slots| ==> slots[i].key != slots[j].key
  }

  function OtherThan<K(==), V>(key: K): Slot<K, V> -> bool {
    (s: Slot<K, V>) => s.key != key
  }

  /** Map.delete. */
  function Without<K(==), V>(slots: Slots<K, V>, key: K): Slots<K, V> {
    Filter(slots, OtherThan(key))
  }

  /** Map.get. */
  function Find<K(==), V>(slots: Slots<K, V>, key: K): Option<Slot<K, V>> {
    if slots == [] then None
    else if slots[0].key == key then Some(slots[0])
    else Find(slots[1..], key)
  }

  function GetValue<K(==), V>(slots: Slots<K, V>, key: K, now: int): Option<V> {
    match Find(slots, key)
    case Some(hit) => if hit.expiresAt <= now then None else Some(hit.value)
    case None => None
  }

  function AfterGet<K(==), V>(slots: Slots<K, V>, key: K, now: int): Slots<K, V> {
    match Find(slots, key)
    case Some(hit) => if hit.expiresAt <= now then Without(slots, key) else Without(slots, key) + [hit]
    case None => slots
  }

  function Newest<K, V>(slots: Slots<K, V>, max: nat): Slots<K, V> {
    if |slots| > max then slots[|slots| - max..] else slots
  }

  function AfterSet<K(==), V>(slots: Slots<K, V>, slot: Slot<K, V>, max: nat): Slots<K, V> {
    Newest(Without(slots, slot.key) + [slot], max)
  }

  class LruTtlCache<K(==), V> {
    const ttlMs: int
    const maxEntries: nat
    var entries: Slots<K, V>

    constructor (ttlMs: int, maxEntries: nat)
      ensures this.ttlMs == ttlMs && this.maxEntries == maxEntries && entries == []
    {
      this.ttlMs, this.maxEntries, entries := ttlMs, maxEntries, [];
    }

    method Get(key: K, now: int) returns (value: Option<V>)
      modifies this
      ensures value == GetValue(old(entries), key, now)
      ensures entries == AfterGet(old(entries), key, now)
    {
      var hit := Find(entries, key);
      if hit.None? { return None; }
      if hit.value.expiresAt <= now {
        entries := Without(entries, key);
        return None;
      }
      entries := Without(entries, key);
      entries := entries + [hit.value];
      return Some(hit.value.value);
    }

    method Set(key: K, value: V, now: int)
      modifies this
      ensures entries == AfterSet(old(entries), Slot(key, value, now + ttlMs), maxEntries)
    {
      entries := Without(entries, key);
      entries := entries + [Slot(key, value, now + ttlMs)];
      ghost var all := entries;
      while |entries| > maxEntries
        invariant |entries| <= |all| && entries == all[|all| - |entries|..]
        invariant |all| > maxEntries ==> |entries| >= maxEntries
        invariant |all| <= maxEntries ==> entries == all
      {
        entries := entries[1..];
      }
    }

    method Clear()
      modifies this
      ensures entries == []
    {
      entries := [];
    }

    method Size() returns (n: nat)
      ensures n == |entries|
    {
      n := |entries|;
    }
  }

  // ---------- runs of operations ----------

  datatype Op<K, V> = Get(key: K, now: int) | Set(key: K, value: V, now: int)

  function Step<K(==), V>(slots: Slots<K, V>, op: Op<K, V>, ttlMs: int, max: nat): Slots<K, V> {
    match op
    case Get(key, now) => AfterGet(slots, key, now)
    case Set(key, value, now) => AfterSet(slots, Slot(key, value, now + ttlMs), max)
  }

  function Run<K(==), V>(slots: Slots<K, V>, ops: seq<Op<K, V>>, ttlMs: int, max: nat): Slots<K, V> {
    if ops == [] then slots else Step(Run(slots, ops[..|ops| - 1], ttlMs, max), ops[|ops| - 1], ttlMs, max)
  }

  lemma {:induction false} WithoutUnique<K, V>(slots: Slots<K, V>, key: K)
    requires UniqueKeys(slots)
    ensures UniqueKeys(Without(slots, key)) && |Without(slots, key)| <= |slots|
    ensures forall s :: s in Without(slots, key) ==> s.key != key
  {
    if slots != [] {
      var front, last := slots[..|slots| - 1], slots[|slots| - 1];
      WithoutUnique(front, key);
      if last.key != key {
        forall s | s in Without(front, key) ensures s.key != last.key {
          FilterMember(front, OtherThan(key), s);
        }
      }
    }
  }

  lemma {:induction false} WithoutPresent<K, V>(slots: Slots<K, V>, key: K)
    requires UniqueKeys(slots) && exists s :: s in slots && s.key == key
    ensures |Without(slots, key)| < |slots|
  {
    var front, last := slots[..|slots| - 1], slots[|slots| - 1];
    assert slots == front + [last];
    if last.key == key {
      WithoutUnique(front, key);
    } else {
      WithoutPresent(front, key);
    }
  }

  lemma {:induction false} FindIsIn<K, V>(slots: Slots<K, V>, key: K)
    ensures Find(slots, key).Some? ==> Find(slots, key).value in slots && Find(slots, key).value.key == key
    ensures Find(slots, key).None? ==> forall s :: s in slots ==> s.key != key
  {
    if slots != [] {
      FindIsIn(slots[1..], key);
      assert slots == [slots[0]] + slots[1..];
    }
  }

  lemma {:induction false} FindAppend<K, V>(slots: Slots<K, V>, slot: Slot<K, V>, key: K)
    ensures Find(slots + [slot], key) ==
            if Find(slots, key).Some? then Find(slots, key) else if slot.key == key then Some(slot) else None
  {
    if slots != [] {
      FindAppend(slots[1..], slot, key);
      assert (slots + [slot])[1..] == slots[1..] + [slot];
    }
  }

  lemma {:induction false} FindWithout<K, V>(slots: Slots<K, V>, other: K, key: K)
    requires other != key
    ensures Find(Without(slots, other), key) == Find(slots, key)
  {
    if slots != [] {
      var front, last := slots[..|slots| - 1], slots[|slots| - 1];
      FindWithout(front, other, key);
      assert slots == front + [last];
      FindAppend(front, last, key);
      FindAppend(Without(front, other), last, key);
      assert Without(slots, other) == Without(front, other) + if last.key == other then [] else [last];
      assert last.key == other ==> Without(slots, other) == Without(front, other);
    }
  }

  /** Reading one key does not change what another key reads. */
  lemma GetLeavesOthers<K, V>(slots: Slots<K, V>, other: K, key: K, now: int)
    requires other != key
    ensures GetValue(AfterGet(slots, other, now), key, now) == GetValue(slots, key, now)
  {
    FindWithout(slots, other, key);
    FindIsIn(slots, other);
    if Find(slots, other).Some? {
      FindAppend(Without(slots, other), Find(slots, other).value, key);
    }
  }

  lemma FindUnique<K, V>(slots: Slots<K, V>, slot: Slot<K, V>)
    requires UniqueKeys(slots) && slot in slots
    ensures Find(slots, slot.key) == Some(slot)
  {
    FindIsIn(slots, slot.key);
    var f := Find(slots, slot.key).value;
    var i, j :| 0 <= i < |slots| && 0 <= j < |slots| && slots[i] == slot && slots[j] == f;
  }

  lemma StepBounds<K, V>(slots: Slots<K, V>, op: Op<K, V>, ttlMs: int, max: nat)
    requires UniqueKeys(slots) && |slots| <= max
    ensures UniqueKeys(Step(slots, op, ttlMs, max)) && |Step(slots, op, ttlMs, max)| <= max
  {
    WithoutUnique(slots, op.key);
    FindIsIn(slots, op.key);
    match op
    case Get(key, now) =>
      var hit := Find(slots, key);
      if hit.Some? {
        WithoutPresent(slots, key);
      }
    case Set(key, value, now) =>
  }

  /** Over any run from empty, the cache holds at most `max` slots and one per key. */
  lemma {:induction false} SizeBounded<K, V>(ops: seq<Op<K, V>>, ttlMs: int, max: nat)
    ensures UniqueKeys(Run([], ops, ttlMs, max)) && |Run([], ops, ttlMs, max)| <= max
  {
    if ops != [] {
      SizeBounded(ops[..|ops| - 1], ttlMs, max);
      StepBounds(Run([], ops[..|ops| - 1], ttlMs, max), ops[|ops| - 1], ttlMs, max);
    }
  }

  /** The last write to `key` in a run, with the instant it expires. */
  function LastSet<K(==), V>(ops: seq<Op<K, V>>, key: K, ttlMs: int): Option<(V, int)> {
    if ops == [] then None
    else
      var op := ops[|ops| - 1];
      if op.Set? && op.key == key then Some((op.value, op.now + ttlMs)) else LastSet(ops[..|ops| - 1], key, ttlMs)
  }

  /** Every slot a step leaves was there before, or is the one written. */
  lemma StepSlots<K, V>(slots: Slots<K, V>, op: Op<K, V>, ttlMs: int, max: nat, s: Slot<K, V>)
    requires s in Step(slots, op, ttlMs, max)
    ensures if op.Set? && s.key == op.key then s == Slot(op.key, op.value, op.now + ttlMs) else s in slots
  {
    FilterMember(slots, OtherThan(op.key), s);
    FindIsIn(slots, op.key);
  }

  lemma {:induction false} SlotIsLastSet<K, V>(ops: seq<Op<K, V>>, ttlMs: int, max: nat, s: Slot<K, V>)
    requires s in Run([], ops, ttlMs, max)
    ensures LastSet(ops, s.key, ttlMs) == Some((s.value, s.expiresAt))
  {
    var front, op := ops[..|ops| - 1], ops[|ops| - 1];
    StepSlots(Run([], front, ttlMs, max), op, ttlMs, max, s);
    if !(op.Set? && s.key == op.key) {
      SlotIsLastSet(front, ttlMs, max, s);
    }
  }

  /** A get returns only the last value set for its key, and only before that value expires. */
  lemma GetIsFreshLastSet<K, V>(ops: seq<Op<K, V>>, key: K, now: int, ttlMs: int, max: nat)
    ensures var got := GetValue(Run([], ops, ttlMs, max), key, now);
            got.Some? ==> var last := LastSet(ops, key, ttlMs);
                          last.Some? && last.value.0 == got.value && now < last.value.1
  {
    var slots := Run([], ops, ttlMs, max);
    FindIsIn(slots, key);
    if Find(slots, key).Some? {
      SlotIsLastSet(ops, ttlMs, max, Find(slots, key).value);
    }
  }

  // ---------- retention ----------

  ghost predicate Others<K, V>(ops: seq<Op<K, V>>, key: K, touched: set<K>) {
    forall i :: 0 <= i < |ops| ==> ops[i].key != key && ops[i].key in touched
  }

  /** `slot` is resident, with the slots `young` after it all having `touched` keys. */
  ghost predicate Shielded<K, V>(slots: Slots<K, V>, slot: Slot<K, V>, older: Slots<K, V>, young: Slots<K, V>,
                                 touched: set<K>) {
    && UniqueKeys(slots)
    && slots == older + ([slot] + young)
    && forall s :: s in young ==> s.key in touched
  }

  lemma {:induction false} YoungerAreFew<K, V>(slots: Slots<K, V>, touched: set<K>)
    requires UniqueKeys(slots) && forall s :: s in slots ==> s.key in touched
    ensures |slots| <= |touched|
  {
    if slots != [] {
      var front, last := slots[..|slots| - 1], slots[|slots| - 1];
      assert last in slots;
      YoungerAreFew(front, touched - {last.key});
    }
  }

  lemma WithoutShielded<K, V>(slots: Slots<K, V>, slot: Slot<K, V>, older: Slots<K, V>, young: Slots<K, V>,
                              touched: set<K>, key: K)
    requires Shielded(slots, slot, older, young, touched) && key != slot.key
    ensures Shielded(Without(slots, key), slot, Without(older, key), Without(young, key), touched)
  {
    FilterConcat(older, [slot] + young, OtherThan(key));
    FilterConcat([slot], young, OtherThan(key));
    FilterOne(slot, OtherThan(key));
    WithoutUnique(slots, key);
    forall s | s in Without(young, key) ensures s.key in touched {
      FilterMember(young, OtherThan(key), s);
    }
  }

  lemma NewestUnique<K, V>(slots: Slots<K, V>, max: nat)
    requires UniqueKeys(slots)
    ensures UniqueKeys(Newest(slots, max))
  {
  }

  lemma AppendShielded<K, V>(slots: Slots<K, V>, slot: Slot<K, V>, older: Slots<K, V>, young: Slots<K, V>,
                             touched: set<K>,
                             added: Slot<K, V>, max: nat) returns (older': Slots<K, V>)
    requires Shielded(slots, slot, older, young, touched) && |touched| < max
    requires added.key in touched && forall s :: s in slots ==> s.key != added.key
    ensures Shielded(Newest(slots + [added], max), slot, older', young + [added], touched)
  {
    var all := slots + [added];
    assert all[|older| + 1..] == young + [added];
    YoungerAreFew(young + [added], touched);
    NewestUnique(all, max);
    assert all == older + ([slot] + (young + [added]));
    older' := if |all| > max then older[|all| - max..] else older;
  }

  lemma StepShielded<K, V>(slots: Slots<K, V>, slot: Slot<K, V>, older: Slots<K, V>, young: Slots<K, V>,
                           touched: set<K>,
                           op: Op<K, V>, ttlMs: int, max: nat) returns (older': Slots<K, V>, young': Slots<K, V>)
    requires Shielded(slots, slot, older, young, touched) && |slots| <= max
    requires op.key != slot.key && op.key in touched && |touched| < max
    ensures Shielded(Step(slots, op, ttlMs, max), slot, older', young', touched)
  {
    WithoutShielded(slots, slot, older, young, touched, op.key);
    WithoutUnique(slots, op.key);
    FindIsIn(slots, op.key);
    older', young' := Without(older, op.key), Without(young, op.key);
    match op
    case Set(key, value, now) =>
      var added := Slot(key, value, now + ttlMs);
      older' := AppendShielded(Without(slots, key), slot, older', young', touched, added, max);
      young' := young' + [added];
    case Get(key, now) =>
      var hit := Find(slots, key);
      if hit.None? {
        older', young' := older, young;
      } else if hit.value.expiresAt > now {
        WithoutPresent(slots, key);
        older' := AppendShielded(Without(slots, key), slot, older', young', touched, hit.value, max);
        young' := young' + [hit.value];
      }
  }

  lemma {:induction false} RunShielded<K, V>(slots: Slots<K, V>, slot: Slot<K, V>, ops: seq<Op<K, V>>,
                                             touched: set<K>, ttlMs: int, max: nat)
    returns (older: Slots<K, V>, young: Slots<K, V>)
    requires UniqueKeys(slots) && |slots| <= max && slots != [] && slots[|slots| - 1] == slot
    requires Others(ops, slot.key, touched) && |touched| < max
    ensures Shielded(Run(slots, ops, ttlMs, max), slot, older, young, touched) && |Run(slots, ops, ttlMs, max)| <= max
  {
    if ops == [] {
      older, young := slots[..|slots| - 1], [];
    } else {
      var front, op := ops[..|ops| - 1], ops[|ops| - 1];
      older, young := RunShielded(slots, slot, front, touched, ttlMs, max);
      StepBounds(Run(slots, front, ttlMs, max), op, ttlMs, max);
      older, young := StepShielded(Run(slots, front, ttlMs, max), slot, older, young, touched, op, ttlMs, max);
    }
  }

  /** The youngest slot survives every run on other keys that touches fewer than `max` of them: a
      get at the end of the run, before its expiry, returns its value. */
  lemma YoungestSlotSurvives<K, V>(slots: Slots<K, V>, slot: Slot<K, V>, ops: seq<Op<K, V>>,
                                   touched: set<K>, now: int, ttlMs: int, max: nat)
    requires UniqueKeys(slots) && |slots| <= max && slots != [] && slots[|slots| - 1] == slot
    requires Others(ops, slot.key, touched) && |touched| < max
    ensures now < slot.expiresAt ==> GetValue(Run(slots, ops, ttlMs, max), slot.key, now) == Some(slot.value)
  {
    var older, young := RunShielded(slots, slot, ops, touched, ttlMs, max);
    FindUnique(Run(slots, ops, ttlMs, max), slot);
  }

  /** Setting a key, or reading it before expiry, makes it the youngest slot. */
  lemma TouchMakesYoungest<K, V>(slots: Slots<K, V>, op: Op<K, V>, ttlMs: int, max: nat)
    requires UniqueKeys(slots) && |slots| <= max && max > 0
    requires op.Get? ==> GetValue(slots, op.key, op.now).Some?
    ensures var r := Step(slots, op, ttlMs, max);
            r != [] && r[|r| - 1].key == op.key &&
            r[|r| - 1].value == (if op.Set? then op.value else GetValue(slots, op.key, op.now).value) &&
            (op.Set? ==> r[|r| - 1].expiresAt == op.now + ttlMs)
  {
    FindIsIn(slots, op.key);
  }

  // ---------- a row of sets ----------

  /** A get of `key` at any moment before `until` finds a value. */
  ghost predicate Resident<K, V>(slots: Slots<K, V>, key: K, until: int) {
    forall t :: t < until ==> GetValue(slots, key, t).Some?
  }

  /** The youngest slots are those of `tail`, and no other has one of their keys. */
  ghost predicate EndsWith<K, V>(slots: Slots<K, V>, older: Slots<K, V>, tail: Slots<K, V>) {
    && slots == older + tail && UniqueKeys(tail)
    && forall s, t :: s in older && t in tail ==> s.key != t.key
  }

  lemma {:induction false} WithoutNothing<K, V>(slots: Slots<K, V>, key: K)
    requires forall s :: s in slots ==> s.key != key
    ensures Without(slots, key) == slots
  {
    if slots != [] {
      var front, last := slots[..|slots| - 1], slots[|slots| - 1];
      assert slots == front + [last];
      WithoutNothing(front, key);
    }
  }

  lemma WithoutEnds<K, V>(slots: Slots<K, V>, older: Slots<K, V>, tail: Slots<K, V>, key: K)
    requires EndsWith(slots, older, tail) && forall s :: s in tail ==> s.key != key
    ensures EndsWith(Without(slots, key), Without(older, key), tail)
    ensures forall s :: s in Without(slots, key) ==> s.key != key
  {
    FilterConcat(older, tail, OtherThan(key));
    WithoutNothing(tail, key);
    forall s | s in Without(older, key) ensures s in older {
      FilterMember(older, OtherThan(key), s);
    }
    forall s | s in Without(slots, key) ensures s.key != key {
      FilterMember(slots, OtherThan(key), s);
    }
  }

  lemma AppendEnds<K, V>(slots: Slots<K, V>, older: Slots<K, V>, tail: Slots<K, V>, slot: Slot<K, V>)
    requires EndsWith(slots, older, tail) && forall s :: s in slots ==> s.key != slot.key
    ensures EndsWith(slots + [slot], older, tail + [slot])
  {
    assert slots + [slot] == older + (tail + [slot]);
    assert forall s :: s in older || s in tail ==> s in slots;
  }

  lemma CutEnds<K, V>(slots: Slots<K, V>, older: Slots<K, V>, tail: Slots<K, V>, max: nat)
    returns (older': Slots<K, V>)
    requires EndsWith(slots, older, tail) && |tail| <= max
    ensures EndsWith(Newest(slots, max), older', tail)
  {
    older' := if |slots| > max then older[|slots| - max..] else older;
  }

  /** One more set makes its slot the youngest, behind the others, as long as all fit. */
  lemma SetEnds<K, V>(slots: Slots<K, V>, older: Slots<K, V>, tail: Slots<K, V>, slot: Slot<K, V>, max: nat)
    returns (older': Slots<K, V>)
    requires EndsWith(slots, older, tail) && |tail| < max && forall s :: s in tail ==> s.key != slot.key
    ensures EndsWith(AfterSet(slots, slot, max), older', tail + [slot])
  {
    WithoutEnds(slots, older, tail, slot.key);
    AppendEnds(Without(slots, slot.key), Without(older, slot.key), tail, slot);
    older' := CutEnds(Without(slots, slot.key) + [slot], Without(older, slot.key), tail + [slot], max);
  }

  lemma {:induction false} FindBehind<K, V>(older: Slots<K, V>, tail: Slots<K, V>, key: K)
    requires forall s :: s in older ==> s.key != key
    ensures Find(older + tail, key) == Find(tail, key)
  {
    if older == [] {
      assert older + tail == tail;
    } else {
      assert older == [older[0]] + older[1..];
      FindBehind(older[1..], tail, key);
      assert (older + tail)[1..] == older[1..] + tail;
    }
  }

  /** What was set last is resident until it expires. */
  lemma TailResident<K, V>(slots: Slots<K, V>, older: Slots<K, V>, tail: Slots<K, V>, slot: Slot<K, V>)
    requires EndsWith(slots, older, tail) && slot in tail
    ensures Resident(slots, slot.key, slot.expiresAt)
  {
    FindBehind(older, tail, slot.key);
    FindUnique(tail, slot);
  }

  /** The youngest slots are one for each of the keys `stored`, all expiring together. */
  ghost predicate Kept<K, V>(slots: Slots<K, V>, older: Slots<K, V>, tail: Slots<K, V>, stored: set<K>, until: int) {
    && EndsWith(slots, older, tail)
    && (forall s :: s in tail ==> s.key in stored && s.expiresAt == until)
    && (forall k :: k in stored ==> exists s :: s in tail && s.key == k)
  }

  lemma KeepOne<K, V>(slots: Slots<K, V>, older: Slots<K, V>, tail: Slots<K, V>, stored: set<K>, slot: Slot<K, V>,
                      max: nat)
    returns (older': Slots<K, V>)
    requires Kept(slots, older, tail, stored, slot.expiresAt) && slot.key !in stored && |tail| < max
    ensures Kept(AfterSet(slots, slot, max), older', tail + [slot], stored + {slot.key}, slot.expiresAt)
  {
    older' := SetEnds(slots, older, tail, slot, max);
    assert slot in tail + [slot];
    assert forall s :: s in tail ==> s in tail + [slot];
  }

  lemma KeptResident<K, V>(slots: Slots<K, V>, older: Slots<K, V>, tail: Slots<K, V>, stored: set<K>, until: int)
    requires Kept(slots, older, tail, stored, until)
    ensures forall k :: k in stored ==> Resident(slots, k, until)
  {
    forall k | k in stored
      ensures Resident(slots, k, until)
    {
      var s :| s in tail && s.key == k;
      TailResident(slots, older, tail, s);
    }
  }
}
