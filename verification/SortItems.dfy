/** workers/lib/server/lib/queryUtils.js: the multi-key comparator of sortItems, and the flattening of
    ork replies. */
module SortItems {
  import opened Wrappers
  import opened Seqs
  import opened StableSort

  /** A field value as the comparator meets it; numbers stand for any mutually comparable values. */
  datatype Val = Undefined | Null | Num(n: int)

  datatype Item = Item(id: int, fields: map<string, Val>)

  /** Field path and direction, 1 or -1. */
  datatype SortKey = SortKey(field: string, descending: bool)

  function Direction(key: SortKey): int {
    if key.descending then -1 else 1
  }

  /** A missing field reads as undefined. */
  function Value(item: Item, field: string): Val {
    if field in item.fields then item.fields[field] else Undefined
  }

  /** One round of the comparator; 0 means the next key decides. */
  function CompareVals(a: Val, b: Val, direction: int): int {
    if a == b then 0
    else if !a.Num? then direction
    else if !b.Num? then -direction
    else if a.n < b.n then -direction
    else direction
  }

  function Compare(a: Item, b: Item, sort: seq<SortKey>): int {
    if sort == [] then 0
    else
      var c := CompareVals(Value(a, sort[0].field), Value(b, sort[0].field), Direction(sort[0]));
      if c != 0 then c else Compare(a, b, sort[1..])
  }

  function ItemOrder(sort: seq<SortKey>): (Item, Item) -> bool {
    (a: Item, b: Item) => Compare(a, b, sort) <= 0
  }

  /** sortItems: with no keys the items are returned as they are. */
  function SortedItems(items: seq<Item>, sort: seq<SortKey>): seq<Item> {
    if sort == [] then items else Sort(items, ItemOrder(sort))
  }

  // ---------- lists with one kind of null ----------

  predicate Mixed(a: Val, b: Val) {
    (a.Null? && b.Undefined?) || (a.Undefined? && b.Null?)
  }

  predicate SameKind(a: Item, b: Item, sort: seq<SortKey>) {
    forall key :: key in sort ==> !Mixed(Value(a, key.field), Value(b, key.field))
  }

  /** On each sort key the items lack values in one way only: all by null, or all by undefined. */
  ghost predicate OneKind(items: seq<Item>, sort: seq<SortKey>) {
    forall a, b :: a in items && b in items ==> SameKind(a, b, sort)
  }

  /** Null and undefined taken for one. */
  function Blank(v: Val): Val {
    if v.Null? then Undefined else v
  }

  /** The comparator on blanked values. */
  function CompareBlank(a: Item, b: Item, sort: seq<SortKey>): int {
    if sort == [] then 0
    else
      var c := CompareVals(Blank(Value(a, sort[0].field)), Blank(Value(b, sort[0].field)), Direction(sort[0]));
      if c != 0 then c else CompareBlank(a, b, sort[1..])
  }

  function BlankOrder(sort: seq<SortKey>): (Item, Item) -> bool {
    (a: Item, b: Item) => CompareBlank(a, b, sort) <= 0
  }

  lemma {:induction false} CompareAntisymmetric(a: Item, b: Item, sort: seq<SortKey>)
    ensures CompareBlank(a, b, sort) == -CompareBlank(b, a, sort)
  {
    if sort != [] { CompareAntisymmetric(a, b, sort[1..]); }
  }

  lemma {:induction false} CompareTransitive(a: Item, b: Item, c: Item, sort: seq<SortKey>)
    requires CompareBlank(a, b, sort) <= 0 && CompareBlank(b, c, sort) <= 0
    ensures CompareBlank(a, c, sort) <= 0
  {
    if sort != [] {
      var f := sort[0].field;
      var va, vb, vc := Blank(Value(a, f)), Blank(Value(b, f)), Blank(Value(c, f));
      if CompareVals(va, vb, Direction(sort[0])) == 0 && CompareVals(vb, vc, Direction(sort[0])) == 0 {
        CompareTransitive(a, b, c, sort[1..]);
      }
    }
  }

  lemma BlankOrderIsPreorder(sort: seq<SortKey>)
    ensures TotalPreorder(BlankOrder(sort))
  {
    forall a, b ensures BlankOrder(sort)(a, b) || BlankOrder(sort)(b, a) {
      CompareAntisymmetric(a, b, sort);
    }
    forall a, b, c | BlankOrder(sort)(a, b) && BlankOrder(sort)(b, c) ensures BlankOrder(sort)(a, c) {
      CompareTransitive(a, b, c, sort);
    }
  }

  lemma {:induction false} BlanksAgree(a: Item, b: Item, sort: seq<SortKey>)
    requires SameKind(a, b, sort)
    ensures Compare(a, b, sort) == CompareBlank(a, b, sort)
  {
    if sort != [] {
      assert sort[0] in sort;
      assert forall key :: key in sort[1..] ==> key in sort;
      BlanksAgree(a, b, sort[1..]);
    }
  }

  lemma BlankOrderAgrees(items: seq<Item>, sort: seq<SortKey>)
    requires OneKind(items, sort)
    ensures forall a, b :: a in items && b in items ==> ItemOrder(sort)(a, b) == BlankOrder(sort)(a, b)
  {
    forall a, b | a in items && b in items
      ensures ItemOrder(sort)(a, b) == BlankOrder(sort)(a, b)
    {
      assert SameKind(a, b, sort);
      BlanksAgree(a, b, sort);
    }
  }

  ghost predicate Opposite(a: Item, b: Item, sort: seq<SortKey>) {
    Compare(a, b, sort) == -Compare(b, a, sort)
  }

  /** What a sort may expect of its comparator on the items of a list. */
  ghost predicate Consistent(items: seq<Item>, sort: seq<SortKey>) {
    && (forall a, b :: a in items && b in items ==> Opposite(a, b, sort))
    && (forall a, b, c :: a in items && b in items && c in items && ItemOrder(sort)(a, b) && ItemOrder(sort)(b, c) ==>
          ItemOrder(sort)(a, c))
  }

  /** With one kind of null the comparator is consistent, so the sort is the stable sort. */
  lemma ItemOrderIsPreorder(items: seq<Item>, sort: seq<SortKey>)
    requires OneKind(items, sort)
    ensures Consistent(items, sort)
  {
    forall a, b | a in items && b in items
      ensures Opposite(a, b, sort)
    {
      assert SameKind(a, b, sort) && SameKind(b, a, sort);
      BlanksAgree(a, b, sort);
      BlanksAgree(b, a, sort);
      CompareAntisymmetric(a, b, sort);
    }
    BlankOrderAgrees(items, sort);
    BlankOrderIsPreorder(sort);
  }

  /** Under a single key, exactly then. */
  lemma ConsistentExactly(items: seq<Item>, key: SortKey)
    ensures Consistent(items, [key]) <==> OneKind(items, [key])
  {
    if Consistent(items, [key]) {
      forall a, b | a in items && b in items
        ensures SameKind(a, b, [key])
      {
        assert Opposite(a, b, [key]);
        MixedNullsInconsistent(Value(a, key.field), Value(b, key.field), Direction(key));
      }
    } else if OneKind(items, [key]) {
      ItemOrderIsPreorder(items, [key]);
    }
  }

  /** So such a list is sorted by the order on blanked values. */
  lemma SortsAsBlank(items: seq<Item>, sort: seq<SortKey>)
    requires OneKind(items, sort)
    ensures SortedItems(items, sort) == if sort == [] then items else Sort(items, BlankOrder(sort))
  {
    BlankOrderAgrees(items, sort);
    SortAgrees(items, ItemOrder(sort), BlankOrder(sort));
  }

  /** What the comparator is for: with one kind of null the items come out rearranged, each pair in the
      comparator's own order, and ties in the order of the list. */
  lemma SortedItemsSorted(items: seq<Item>, sort: seq<SortKey>, c: Item)
    requires OneKind(items, sort) && sort != [] && c in items
    ensures Sorted(SortedItems(items, sort), ItemOrder(sort))
    ensures multiset(SortedItems(items, sort)) == multiset(items)
    ensures Filter(SortedItems(items, sort), Ties(c, ItemOrder(sort))) == Filter(items, Ties(c, ItemOrder(sort)))
  {
    var le, r := BlankOrder(sort), SortedItems(items, sort);
    BlankOrderAgrees(items, sort);
    BlankOrderIsPreorder(sort);
    SortsAsBlank(items, sort);
    SortSorts(items, le);
    SortStable(items, le, c);
    forall x ensures x in r <==> x in items {
      SortMembers(items, le, x);
    }
    forall i, j | 0 <= i < j < |r|
      ensures ItemOrder(sort)(r[i], r[j])
    {
      assert r[i] in r && r[j] in r && le(r[i], r[j]);
    }
    FilterSame(r, Ties(c, ItemOrder(sort)), Ties(c, le));
    FilterSame(items, Ties(c, ItemOrder(sort)), Ties(c, le));
  }

  lemma FilterSame(xs: seq<Item>, p: Item -> bool, q: Item -> bool)
    requires forall x :: x in xs ==> p(x) == q(x)
    ensures Filter(xs, p) == Filter(xs, q)
  {
    FilterAgree(xs, p, q);
  }

  // ---------- what the order means ----------

  /** The first key on which two items differ, read off their values. */
  ghost predicate FirstDifference(a: Item, b: Item, sort: seq<SortKey>, k: int) {
    && 0 <= k < |sort| && Value(a, sort[k].field) != Value(b, sort[k].field)
    && forall m :: 0 <= m < k ==> Value(a, sort[m].field) == Value(b, sort[m].field)
  }

  /** `a` is to stand before `b`: at the first key on which they differ it has the smaller value, or has
      one at all, in ascending order, and the greater one, or none, in descending order. */
  ghost predicate StandsBefore(a: Item, b: Item, sort: seq<SortKey>) {
    exists k :: FirstDifference(a, b, sort, k) && LeadsAt(Value(a, sort[k].field), Value(b, sort[k].field), sort[k])
  }

  ghost predicate LeadsAt(v: Val, w: Val, key: SortKey) {
    if v.Num? && w.Num? then (if key.descending then v.n > w.n else v.n < w.n)
    else if key.descending then !v.Num? else v.Num?
  }

  lemma {:induction false} DifferenceDecides(a: Item, b: Item, sort: seq<SortKey>, k: int)
    requires FirstDifference(a, b, sort, k) && SameKind(a, b, sort)
    ensures LeadsAt(Value(a, sort[k].field), Value(b, sort[k].field), sort[k]) <==> Compare(a, b, sort) < 0
    ensures Compare(a, b, sort) != 0
  {
    assert sort[0] in sort;
    if k > 0 {
      assert forall key :: key in sort[1..] ==> key in sort;
      assert Value(a, sort[0].field) == Value(b, sort[0].field);
      forall m | 0 <= m < k - 1
        ensures Value(a, sort[1..][m].field) == Value(b, sort[1..][m].field)
      {
        assert sort[1..][m] == sort[m + 1];
      }
      DifferenceDecides(a, b, sort[1..], k - 1);
    }
  }

  lemma StandsBeforeCompares(a: Item, b: Item, sort: seq<SortKey>)
    requires SameKind(a, b, sort) && StandsBefore(a, b, sort)
    ensures Compare(a, b, sort) < 0
  {
    var k :| FirstDifference(a, b, sort, k) && LeadsAt(Value(a, sort[k].field), Value(b, sort[k].field), sort[k]);
    DifferenceDecides(a, b, sort, k);
  }

  /** At the first key on which two items of the sorted list differ, both having it, the earlier one has
      the smaller value if the key ascends and the greater one if it descends; and whoever lacks it comes
      after whoever has it if the key ascends, before if it descends. */
  lemma SortedByFirstDifference(items: seq<Item>, sort: seq<SortKey>, i: int, j: int, k: int)
    requires OneKind(items, sort) && 0 <= i < j < |SortedItems(items, sort)|
    requires FirstDifference(SortedItems(items, sort)[i], SortedItems(items, sort)[j], sort, k)
    ensures var v, w := Value(SortedItems(items, sort)[i], sort[k].field), Value(SortedItems(items, sort)[j],
                                                                                 sort[k].field);
            (v.Num? && w.Num? ==> if sort[k].descending then v.n > w.n else v.n < w.n) &&
            (v.Num? != w.Num? ==> (w.Num? <==> sort[k].descending))
  {
    var r := SortedItems(items, sort);
    SortMembers(items, ItemOrder(sort), r[i]);
    SortMembers(items, ItemOrder(sort), r[j]);
    SortedItemsSorted(items, sort, r[i]);
    assert ItemOrder(sort)(r[i], r[j]) && SameKind(r[i], r[j], sort);
    DifferenceDecides(r[i], r[j], sort, k);
  }

  /** Nobody in the sorted list stands after one he should stand before. */
  lemma NobodyMisplaced(items: seq<Item>, sort: seq<SortKey>, i: int, j: int)
    requires OneKind(items, sort) && 0 <= i < j < |SortedItems(items, sort)|
    ensures !StandsBefore(SortedItems(items, sort)[j], SortedItems(items, sort)[i], sort)
  {
    var r := SortedItems(items, sort);
    if sort != [] {
      SortMembers(items, ItemOrder(sort), r[i]);
      SortMembers(items, ItemOrder(sort), r[j]);
      SortedItemsSorted(items, sort, r[i]);
      ItemOrderIsPreorder(items, sort);
      assert ItemOrder(sort)(r[i], r[j]) && SameKind(r[j], r[i], sort) && Opposite(r[i], r[j], sort);
      if StandsBefore(r[j], r[i], sort) { StandsBeforeCompares(r[j], r[i], sort); }
    }
  }

  /** Items that agree on every key keep the order they had, by whatever test they are found. */
  lemma AgreeingKeepOrder(items: seq<Item>, sort: seq<SortKey>, c: Item, agrees: Item -> bool)
    requires OneKind(items, sort) && c in items
    requires forall x :: agrees(x) <==> forall key :: key in sort ==> Value(x, key.field) == Value(c, key.field)
    ensures Filter(SortedItems(items, sort), agrees) == Filter(items, agrees)
  {
    if sort != [] {
      var r := SortedItems(items, sort);
      SortedItemsSorted(items, sort, c);
      forall x | x in items || x in r
        ensures agrees(x) == Ties(c, ItemOrder(sort))(x)
      {
        SortMembers(items, ItemOrder(sort), x);
        TiesAgree(items, x, c, sort);
      }
      FilterSame(r, agrees, Ties(c, ItemOrder(sort)));
      FilterSame(items, agrees, Ties(c, ItemOrder(sort)));
    }
  }

  lemma TiesAgree(items: seq<Item>, x: Item, c: Item, sort: seq<SortKey>)
    requires OneKind(items, sort) && x in items && c in items
    ensures Ties(c, ItemOrder(sort))(x) <==> forall key :: key in sort ==> Value(x, key.field) == Value(c, key.field)
  {
    ItemOrderIsPreorder(items, sort);
    assert Opposite(x, c, sort) && SameKind(x, c, sort);
    ZeroMeansAgree(x, c, sort);
  }

  lemma {:induction false} ZeroMeansAgree(a: Item, b: Item, sort: seq<SortKey>)
    requires SameKind(a, b, sort)
    ensures Compare(a, b, sort) == 0 <==> forall key :: key in sort ==> Value(a, key.field) == Value(b, key.field)
  {
    if sort != [] {
      assert sort == [sort[0]] + sort[1..];
      ZeroMeansAgree(a, b, sort[1..]);
    }
  }

  // ---------- where missing values and nulls end up ----------

  /** Null, undefined or no such field. */
  predicate Lacks(item: Item, field: string) {
    !Value(item, field).Num?
  }

  /** Whoever has the field comes before whoever lacks it. */
  ghost predicate MissingLast(items: seq<Item>, field: string) {
    forall i, j :: 0 <= i < j < |items| ==> !(Lacks(items[i], field) && !Lacks(items[j], field))
  }

  /** Whoever lacks the field comes before whoever has it. */
  ghost predicate MissingFirst(items: seq<Item>, field: string) {
    forall i, j :: 0 <= i < j < |items| ==> !(!Lacks(items[i], field) && Lacks(items[j], field))
  }

  lemma MissingDecides(a: Item, b: Item, key: SortKey, rest: seq<SortKey>)
    requires Lacks(a, key.field) != Lacks(b, key.field)
    ensures CompareBlank(a, b, [key] + rest) == if Lacks(a, key.field) then Direction(key) else -Direction(key)
  {
  }

  /** Whatever the further keys, missing values of the first key sort last in ascending order and first
      in descending order. */
  lemma MissingGoesWithDirection(items: seq<Item>, key: SortKey, rest: seq<SortKey>)
    requires OneKind(items, [key] + rest)
    ensures !key.descending ==> MissingLast(SortedItems(items, [key] + rest), key.field)
    ensures key.descending ==> MissingFirst(SortedItems(items, [key] + rest), key.field)
  {
    var sort := [key] + rest;
    var r := SortedItems(items, sort);
    SortsAsBlank(items, sort);
    BlankOrderIsPreorder(sort);
    SortSorts(items, BlankOrder(sort));
    forall i, j | 0 <= i < j < |r|
      ensures Lacks(r[i], key.field) && !Lacks(r[j], key.field) ==> key.descending
      ensures !Lacks(r[i], key.field) && Lacks(r[j], key.field) ==> !key.descending
    {
      assert BlankOrder(sort)(r[i], r[j]);
      if Lacks(r[i], key.field) != Lacks(r[j], key.field) { MissingDecides(r[i], r[j], key, rest); }
    }
  }

  /** A list with both kinds of item sorts its missing values last exactly when the first key ascends. */
  lemma MissingLastExactly(items: seq<Item>, key: SortKey, rest: seq<SortKey>, a: Item, b: Item)
    requires OneKind(items, [key] + rest)
    requires a in items && b in items && Lacks(a, key.field) && !Lacks(b, key.field)
    ensures MissingLast(SortedItems(items, [key] + rest), key.field) <==> !key.descending
  {
    var r := SortedItems(items, [key] + rest);
    MissingGoesWithDirection(items, key, rest);
    SortMembers(items, ItemOrder([key] + rest), a);
    SortMembers(items, ItemOrder([key] + rest), b);
    var i :| 0 <= i < |r| && r[i] == a;
    var j :| 0 <= j < |r| && r[j] == b;
    assert i != j;
  }

  /** The comparator contradicts itself on two values exactly when they are one null and one undefined:
      then each is said to come after the other. */
  lemma MixedNullsInconsistent(a: Val, b: Val, direction: int)
    requires direction == 1 || direction == -1
    ensures CompareVals(a, b, direction) == -CompareVals(b, a, direction) <==>
            !Mixed(a, b)
  {
  }

  // ---------- ork replies ----------

  /** All items of the replies that are arrays, in order. */
  function Flat(replies: seq<Option<seq<Item>>>): seq<Item> {
    if replies == [] then []
    else (if replies[0].Some? then replies[0].value else []) + Flat(replies[1..])
  }

  lemma {:induction false} FlatAppend(replies: seq<Option<seq<Item>>>, reply: Option<seq<Item>>)
    ensures Flat(replies + [reply]) == Flat(replies) + (if reply.Some? then reply.value else [])
  {
    if replies == [] {
      assert replies + [reply] == [reply] && [reply][1..] == [];
    } else {
      FlatAppend(replies[1..], reply);
      assert (replies + [reply])[1..] == replies[1..] + [reply];
    }
  }

  method FlattenOrkResults(orkResults: seq<Option<seq<Item>>>) returns (items: seq<Item>)
    ensures items == Flat(orkResults)
  {
    items := [];
    for i := 0 to |orkResults|
      invariant items == Flat(orkResults[..i])
    {
      FlatAppend(orkResults[..i], orkResults[i]);
      assert orkResults[..i + 1] == orkResults[..i] + [orkResults[i]];
      if orkResults[i].Some? { items := items + orkResults[i].value; }
    }
    assert orkResults[..|orkResults|] == orkResults;
  }
}
