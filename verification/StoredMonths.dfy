/** The months a request stores in its cache, one after the other: they are resident together. */
module StoredMonths {
  import opened LocalMonths
  import opened MonthlyHashesCache

  ghost predicate InOrder(missing: seq<Month>) {
    forall j, k :: 0 <= j < k < |missing| ==> missing[j].key < missing[k].key
  }

  /** Different months have different keys. */
  ghost predicate Separates<K>(keyOf: int -> K) {
    forall j, k :: keyOf(j) == keyOf(k) ==> j == k
  }

  /** Every month to be kept can be read back until it expires. */
  ghost predicate MonthsResident<K, V>(slots: Slots<K, V>, missing: seq<Month>, keep: Month -> bool, keyOf: int -> K,
                                       until: int) {
    forall m :: m in missing && keep(m) ==> Resident(slots, keyOf(m.key), until)
  }

  ghost function StoredKeys<K>(missing: seq<Month>, keep: Month -> bool, keyOf: int -> K): set<K> {
    set m | m in missing && keep(m) :: keyOf(m.key)
  }

  /** What has been stored of the first `i` months. */
  ghost predicate StoredSoFar<K, V>(slots: Slots<K, V>, older: Slots<K, V>, tail: Slots<K, V>, missing: seq<Month>,
                                    i: nat, keep: Month -> bool, keyOf: int -> K, until: int) {
    i <= |missing| && |tail| <= i && Kept(slots, older, tail, StoredKeys(missing[..i], keep, keyOf), until)
  }

  lemma NothingStored<K, V>(slots: Slots<K, V>, missing: seq<Month>, keep: Month -> bool, keyOf: int -> K, until: int)
    ensures StoredSoFar(slots, slots, [], missing, 0, keep, keyOf, until)
  {
    assert StoredKeys(missing[..0], keep, keyOf) == {};
  }

  lemma StoredKeysSnoc<K>(missing: seq<Month>, i: nat, keep: Month -> bool, keyOf: int -> K)
    requires i < |missing| && InOrder(missing) && Separates(keyOf)
    ensures StoredKeys(missing[..i + 1], keep, keyOf) ==
            StoredKeys(missing[..i], keep, keyOf) + if keep(missing[i]) then {keyOf(missing[i].key)} else {}
    ensures keyOf(missing[i].key) !in StoredKeys(missing[..i], keep, keyOf)
  {
    assert missing[..i + 1] == missing[..i] + [missing[i]];
  }

  lemma StoreKeeps<K, V>(slots: Slots<K, V>, older: Slots<K, V>, tail: Slots<K, V>, missing: seq<Month>, i: nat,
                         keep: Month -> bool, keyOf: int -> K, slot: Slot<K, V>, max: nat)
    returns (older': Slots<K, V>, tail': Slots<K, V>)
    requires InOrder(missing) && Separates(keyOf) && i < |missing| && |missing| <= max
    requires StoredSoFar(slots, older, tail, missing, i, keep, keyOf, slot.expiresAt)
    requires slot.key == keyOf(missing[i].key)
    ensures StoredSoFar(if keep(missing[i]) then AfterSet(slots, slot, max) else slots, older', tail', missing, i + 1,
                        keep, keyOf, slot.expiresAt)
  {
    StoredKeysSnoc(missing, i, keep, keyOf);
    older', tail' := older, tail;
    if keep(missing[i]) {
      older' := KeepOne(slots, older, tail, StoredKeys(missing[..i], keep, keyOf), slot, max);
      tail' := tail + [slot];
    }
  }

  lemma AllStored<K, V>(slots: Slots<K, V>, older: Slots<K, V>, tail: Slots<K, V>, missing: seq<Month>,
                        keep: Month -> bool, keyOf: int -> K, until: int)
    requires StoredSoFar(slots, older, tail, missing, |missing|, keep, keyOf, until)
    ensures MonthsResident(slots, missing, keep, keyOf, until)
  {
    assert missing[..|missing|] == missing;
    KeptResident(slots, older, tail, StoredKeys(missing, keep, keyOf), until);
    forall m | m in missing && keep(m)
      ensures Resident(slots, keyOf(m.key), until)
    {
      assert keyOf(m.key) in StoredKeys(missing, keep, keyOf);
    }
  }

  /** The cache once the months to be kept have been set, each to its value. */
  ghost function AfterMonths<K(!new), V>(slots: Slots<K, V>, months: seq<Month>, values: seq<V>, keep: Month -> bool,
                                         keyOf: int -> K, until: int, max: nat): Slots<K, V>
    requires |values| == |months|
  {
    if months == [] then slots
    else
      var n := |months| - 1;
      var front := AfterMonths(slots, months[..n], values[..n], keep, keyOf, until, max);
      if keep(months[n]) then AfterSet(front, Slot(keyOf(months[n].key), values[n], until), max) else front
  }

  lemma AfterOneMore<K(!new), V>(slots: Slots<K, V>, months: seq<Month>, i: nat, values: seq<V>, value: V,
                                 keep: Month -> bool, keyOf: int -> K, until: int, max: nat)
    requires i < |months| && |values| == i
    ensures AfterMonths(slots, months[..i + 1], values + [value], keep, keyOf, until, max) ==
            var front := AfterMonths(slots, months[..i], values, keep, keyOf, until, max);
            if keep(months[i]) then AfterSet(front, Slot(keyOf(months[i].key), value, until), max) else front
  {
    assert months[..i + 1][..i] == months[..i] && (values + [value])[..i] == values;
  }

  lemma {:induction false} AfterStores<K(!new), V>(slots: Slots<K, V>, months: seq<Month>, i: nat, values: seq<V>,
                                                   keep: Month -> bool, keyOf: int -> K, until: int, max: nat)
    returns (older: Slots<K, V>, tail: Slots<K, V>)
    requires InOrder(months) && Separates(keyOf) && i == |values| <= |months| && |months| <= max
    ensures StoredSoFar(AfterMonths(slots, months[..i], values, keep, keyOf, until, max), older, tail, months, i, keep,
                        keyOf, until)
  {
    if i == 0 {
      NothingStored(slots, months, keep, keyOf, until);
      older, tail := slots, [];
    } else {
      older, tail := AfterStores(slots, months, i - 1, values[..i - 1], keep, keyOf, until, max);
      var front := AfterMonths(slots, months[..i - 1], values[..i - 1], keep, keyOf, until, max);
      older, tail := StoreKeeps(front, older, tail, months, i - 1, keep, keyOf,
                                Slot(keyOf(months[i - 1].key), values[i - 1], until), max);
      assert values == values[..i - 1] + [values[i - 1]];
      AfterOneMore(slots, months, i - 1, values[..i - 1], values[i - 1], keep, keyOf, until, max);
    }
  }

  /** If the cache has room for all, every month kept is resident afterwards. */
  lemma AfterMonthsResident<K(!new), V>(slots: Slots<K, V>, months: seq<Month>, values: seq<V>, keep: Month -> bool,
                                        keyOf: int -> K, until: int, max: nat)
    requires InOrder(months) && Separates(keyOf) && |values| == |months| <= max
    ensures MonthsResident(AfterMonths(slots, months, values, keep, keyOf, until, max), months, keep, keyOf, until)
  {
    var older, tail := AfterStores(slots, months, |months|, values, keep, keyOf, until, max);
    assert months[..|months|] == months;
    AllStored(AfterMonths(slots, months, values, keep, keyOf, until, max), older, tail, months, keep, keyOf, until);
  }
}
