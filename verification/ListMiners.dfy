/** workers/lib/server/handlers/miners.handlers.js: a page of the miners of all orks, from the first
    offset + limit of each. */
module ListMiners {
  import opened Wrappers
  import opened StableSort
  import opened SortItems

  const DEFAULT_LIMIT: nat := 50
  const MAX_LIMIT: nat := 200

  /** What an ork answers for listThings with a limit; a failed ork answers no array. */
  function Fetched(ork: Option<seq<Item>>, limit: nat): Option<seq<Item>> {
    if ork.None? then None else Some(Take(ork.value, limit))
  }

  function FetchedAll(orks: seq<Option<seq<Item>>>, limit: nat): seq<Option<seq<Item>>> {
    seq(|orks|, i requires 0 <= i < |orks| => Fetched(orks[i], limit))
  }

  /** items.slice(offset, offset + limit). */
  function Page(items: seq<Item>, offset: nat, limit: nat): seq<Item> {
    var upTo := Take(items, offset + limit);
    if offset <= |upTo| then upTo[offset..] else []
  }

  /** Orks sort their lists with the same keys. */
  ghost predicate OrksSort(orks: seq<Option<seq<Item>>>, sort: seq<SortKey>) {
    forall i :: 0 <= i < |orks| && orks[i].Some? && sort != [] ==> Sorted(orks[i].value, ItemOrder(sort))
  }

  lemma {:induction false} TopOfFlat(orks: seq<Option<seq<Item>>>, k: nat)
    ensures Take(Flat(FetchedAll(orks, k)), k) == Take(Flat(orks), k)
  {
    if orks != [] {
      TopOfFlat(orks[1..], k);
      assert FetchedAll(orks, k)[1..] == FetchedAll(orks[1..], k);
      var a := if orks[0].Some? then orks[0].value else [];
      TakeConcat(a, Flat(orks[1..]), Flat(FetchedAll(orks[1..], k)), k);
    }
  }

  lemma TakeConcat(a: seq<Item>, b: seq<Item>, b': seq<Item>, k: nat)
    requires Take(b, k) == Take(b', k)
    ensures Take(a + b, k) == Take(Take(a, k) + b', k)
  {
    if k <= |a| {
      assert Take(a + b, k) == a[..k] && Take(a[..k] + b', k) == a[..k];
    } else {
      var n := k - |a|;
      assert Take(b, n) == Take(Take(b, k), n) && Take(b', n) == Take(Take(b', k), n);
      assert Take(a + b, k) == a + Take(b, n) && Take(a + b', k) == a + Take(b', n);
    }
  }

  lemma {:induction false} TopOfSorted(orks: seq<Option<seq<Item>>>, k: nat, le: (Item, Item) -> bool)
    requires TotalPreorder(le)
    requires forall i :: 0 <= i < |orks| && orks[i].Some? ==> Sorted(orks[i].value, le)
    ensures Take(Sort(Flat(FetchedAll(orks, k)), le), k) == Take(Sort(Flat(orks), le), k)
  {
    if orks != [] {
      TopOfSorted(orks[1..], k, le);
      assert FetchedAll(orks, k)[1..] == FetchedAll(orks[1..], k);
      var a := if orks[0].Some? then orks[0].value else [];
      SortConcat(a, Flat(orks[1..]), le);
      SortConcat(Take(a, k), Flat(FetchedAll(orks[1..], k)), le);
      SortOfSorted(a, le);
      SortOfSorted(Take(a, k), le);
      assert Take(Take(a, k), k) == Take(a, k);
      TakeMerge(a, Sort(Flat(orks[1..]), le), Take(a, k), Sort(Flat(FetchedAll(orks[1..], k)), le), k, le);
    }
  }

  lemma {:induction false} FlatMember(orks: seq<Option<seq<Item>>>, x: Item)
    ensures x in Flat(orks) <==> exists i :: 0 <= i < |orks| && orks[i].Some? && x in orks[i].value
  {
    if orks != [] {
      FlatMember(orks[1..], x);
      if i :| 0 <= i < |orks[1..]| && orks[1..][i].Some? && x in orks[1..][i].value {
        assert orks[i + 1] == orks[1..][i];
      }
      if i :| 0 <= i < |orks| && orks[i].Some? && x in orks[i].value {
        assert i > 0 ==> orks[1..][i - 1] == orks[i];
      }
    }
  }

  /** The fetched prefixes hold nothing the lists do not hold. */
  lemma FetchedMember(orks: seq<Option<seq<Item>>>, k: nat, x: Item)
    requires x in Flat(FetchedAll(orks, k))
    ensures x in Flat(orks)
  {
    FlatMember(FetchedAll(orks, k), x);
    FlatMember(orks, x);
  }

  lemma OneKindPart(items: seq<Item>, part: seq<Item>, sort: seq<SortKey>)
    requires OneKind(items, sort) && forall x :: x in part ==> x in items
    ensures OneKind(part, sort)
  {
  }

  /** Orks that sort by the comparator sort by the order on blanked values. */
  lemma OrksSortBlank(orks: seq<Option<seq<Item>>>, sort: seq<SortKey>)
    requires OrksSort(orks, sort) && OneKind(Flat(orks), sort) && sort != []
    ensures forall i :: 0 <= i < |orks| && orks[i].Some? ==> Sorted(orks[i].value, BlankOrder(sort))
  {
    BlankOrderAgrees(Flat(orks), sort);
    forall i | 0 <= i < |orks| && orks[i].Some?
      ensures Sorted(orks[i].value, BlankOrder(sort))
    {
      forall x | x in orks[i].value ensures x in Flat(orks) {
        FlatMember(orks, x);
      }
      SortedAlike(Flat(orks), orks[i].value, ItemOrder(sort), BlankOrder(sort));
    }
  }

  lemma SortedAlike(all: seq<Item>, items: seq<Item>, le: (Item, Item) -> bool, le': (Item, Item) -> bool)
    requires forall a, b :: a in all && b in all ==> le(a, b) == le'(a, b)
    requires forall x :: x in items ==> x in all
    ensures Sorted(items, le) <==> Sorted(items, le')
  {
    forall i, j | 0 <= i < j < |items|
      ensures le(items[i], items[j]) == le'(items[i], items[j])
    {
      assert items[i] in all && items[j] in all;
    }
  }

  lemma FetchedOneKind(orks: seq<Option<seq<Item>>>, k: nat, sort: seq<SortKey>)
    requires OneKind(Flat(orks), sort)
    ensures OneKind(Flat(FetchedAll(orks, k)), sort)
  {
    forall x | x in Flat(FetchedAll(orks, k)) ensures x in Flat(orks) {
      FetchedMember(orks, k, x);
    }
    OneKindPart(Flat(orks), Flat(FetchedAll(orks, k)), sort);
  }

  lemma TopOfPrefixes(orks: seq<Option<seq<Item>>>, k: nat, sort: seq<SortKey>)
    requires OrksSort(orks, sort) && OneKind(Flat(orks), sort) && sort != []
    ensures Take(SortedItems(Flat(FetchedAll(orks, k)), sort), k) == Take(SortedItems(Flat(orks), sort), k)
  {
    FetchedOneKind(orks, k, sort);
    SortsAsBlank(Flat(orks), sort);
    SortsAsBlank(Flat(FetchedAll(orks, k)), sort);
    OrksSortBlank(orks, sort);
    BlankOrderIsPreorder(sort);
    TopOfSorted(orks, k, BlankOrder(sort));
  }

  /** The first offset + limit of every ork are enough: sorted or not, the page is that of all lists. */
  lemma PageOfPrefixes(orks: seq<Option<seq<Item>>>, offset: nat, limit: nat, sort: seq<SortKey>)
    requires OrksSort(orks, sort) && OneKind(Flat(orks), sort)
    ensures Page(SortedItems(Flat(FetchedAll(orks, offset + limit)), sort), offset, limit) ==
            Page(SortedItems(Flat(orks), sort), offset, limit)
  {
    if sort == [] {
      TopOfFlat(orks, offset + limit);
    } else {
      TopOfPrefixes(orks, offset + limit, sort);
    }
    PageOfTop(SortedItems(Flat(FetchedAll(orks, offset + limit)), sort), SortedItems(Flat(orks), sort), offset, limit);
  }

  lemma PageOfTop(a: seq<Item>, b: seq<Item>, offset: nat, limit: nat)
    requires Take(a, offset + limit) == Take(b, offset + limit)
    ensures Page(a, offset, limit) == Page(b, offset, limit)
  {
  }

  function SortedOrk(ork: Option<seq<Item>>, sort: seq<SortKey>): Option<seq<Item>> {
    if ork.None? then None else Some(SortedItems(ork.value, sort))
  }

  function SortedOrks(orks: seq<Option<seq<Item>>>, sort: seq<SortKey>): seq<Option<seq<Item>>> {
    seq(|orks|, i requires 0 <= i < |orks| => SortedOrk(orks[i], sort))
  }

  /** Sorting a list and then sorting it behind the others, or not. */
  lemma SortTwice(a: seq<Item>, b: seq<Item>, b': seq<Item>, le: (Item, Item) -> bool)
    requires TotalPreorder(le) && Sort(b, le) == Sort(b', le)
    ensures Sort(Sort(a, le) + b', le) == Sort(a + b, le)
  {
    SortSorts(a, le);
    SortOfSorted(Sort(a, le), le);
    SortConcat(a, b, le);
    SortConcat(Sort(a, le), b', le);
  }

  lemma {:induction false} SortedOrksBlank(orks: seq<Option<seq<Item>>>, sort: seq<SortKey>)
    requires OneKind(Flat(orks), sort) && sort != []
    ensures Sort(Flat(SortedOrks(orks, sort)), BlankOrder(sort)) == Sort(Flat(orks), BlankOrder(sort))
  {
    if orks != [] {
      var a := if orks[0].Some? then orks[0].value else [];
      OneKindPart(Flat(orks), a, sort);
      OneKindPart(Flat(orks), Flat(orks[1..]), sort);
      SortedOrksBlank(orks[1..], sort);
      assert SortedOrks(orks, sort)[1..] == SortedOrks(orks[1..], sort);
      SortsAsBlank(a, sort);
      BlankOrderIsPreorder(sort);
      SortTwice(a, Flat(orks[1..]), Flat(SortedOrks(orks[1..], sort)), BlankOrder(sort));
    }
  }

  lemma SortedOrksMember(orks: seq<Option<seq<Item>>>, sort: seq<SortKey>, x: Item)
    requires x in Flat(SortedOrks(orks, sort))
    ensures x in Flat(orks)
  {
    var sorted := SortedOrks(orks, sort);
    FlatMember(sorted, x);
    var i :| 0 <= i < |sorted| && sorted[i].Some? && x in sorted[i].value;
    SortMembers(orks[i].value, ItemOrder(sort), x);
    assert orks[i].Some? && x in orks[i].value;
    FlatMember(orks, x);
  }

  lemma SortedOrksSort(orks: seq<Option<seq<Item>>>, sort: seq<SortKey>)
    requires OneKind(Flat(orks), sort)
    ensures OrksSort(SortedOrks(orks, sort), sort)
  {
    forall i | 0 <= i < |orks| && orks[i].Some? && sort != []
      ensures Sorted(SortedOrks(orks, sort)[i].value, ItemOrder(sort))
    {
      var items := orks[i].value;
      forall x | x in items ensures x in Flat(orks) {
        FlatMember(orks, x);
      }
      OneKindPart(Flat(orks), items, sort);
      SortedInItsOrder(items, sort);
    }
  }

  lemma SortedInItsOrder(items: seq<Item>, sort: seq<SortKey>)
    requires OneKind(items, sort) && sort != []
    ensures Sorted(SortedItems(items, sort), ItemOrder(sort))
  {
    if items != [] { SortedItemsSorted(items, sort, items[0]); }
  }

  /** Whatever order the orks hold their items in, sorting each first gives the same overall sort. */
  lemma SortingOrksFirst(orks: seq<Option<seq<Item>>>, sort: seq<SortKey>)
    requires OneKind(Flat(orks), sort)
    ensures SortedItems(Flat(SortedOrks(orks, sort)), sort) == SortedItems(Flat(orks), sort)
    ensures OrksSort(SortedOrks(orks, sort), sort)
  {
    SortedOrksSort(orks, sort);
    if sort == [] {
      assert SortedOrks(orks, sort) == orks;
    } else {
      forall x | x in Flat(SortedOrks(orks, sort)) ensures x in Flat(orks) {
        SortedOrksMember(orks, sort, x);
      }
      OneKindPart(Flat(orks), Flat(SortedOrks(orks, sort)), sort);
      SortsAsBlank(Flat(orks), sort);
      SortsAsBlank(Flat(SortedOrks(orks, sort)), sort);
      SortedOrksBlank(orks, sort);
    }
  }

  // ---------- what is on the page ----------

  /** The page is the stretch of the list from `offset` on, `limit` long unless the list ends first. */
  lemma PageCuts(items: seq<Item>, offset: nat, limit: nat) returns (before: seq<Item>, after: seq<Item>)
    ensures items == before + Page(items, offset, limit) + after
    ensures |before| == if offset < |items| then offset else |items|
    ensures |Page(items, offset, limit)| <= limit && (after != [] ==> |Page(items, offset, limit)| == limit)
  {
    var page := Page(items, offset, limit);
    before := Take(items, offset);
    after := items[|before| + |page|..];
    assert page == items[|before|..|before| + |page|];
  }

  /** Of all the orks' miners, one that is to stand before one on the page is on the page, or among the
      `offset` that stand before the page. None is further down. */
  lemma PageMissesNobody(orks: seq<Option<seq<Item>>>, offset: nat, limit: nat, sort: seq<SortKey>, x: Item, y: Item)
    returns (before: seq<Item>, after: seq<Item>)
    requires OneKind(Flat(orks), sort) && y in Page(SortedItems(Flat(orks), sort), offset, limit)
    ensures multiset(before + Page(SortedItems(Flat(orks), sort), offset, limit) + after) == multiset(Flat(orks))
    ensures |before| <= offset && |Page(SortedItems(Flat(orks), sort), offset, limit)| <= limit
    ensures x in after ==> !StandsBefore(x, y, sort)
    ensures x in before ==> !StandsBefore(y, x, sort)
  {
    SortRearranges(Flat(orks), ItemOrder(sort));
    InPlaceThroughout(Flat(orks), sort);
    before, after := CutMissesNobody(SortedItems(Flat(orks), sort), offset, limit, sort, x, y);
  }

  lemma CutMissesNobody(all: seq<Item>, offset: nat, limit: nat, sort: seq<SortKey>, x: Item, y: Item)
    returns (before: seq<Item>, after: seq<Item>)
    requires InPlace(all, sort) && y in Page(all, offset, limit)
    ensures before + Page(all, offset, limit) + after == all
    ensures |before| <= offset && |Page(all, offset, limit)| <= limit
    ensures x in after ==> !StandsBefore(x, y, sort)
    ensures x in before ==> !StandsBefore(y, x, sort)
  {
    var page := Page(all, offset, limit);
    before, after := PageCuts(all, offset, limit);
    assert all == before + (page + after) == (before + page) + after;
    assert y in page + after && y in before + page;
    LaterPart(before, page + after, sort, x, y);
    LaterPart(before + page, after, sort, y, x);
  }

  ghost predicate InPlace(items: seq<Item>, sort: seq<SortKey>) {
    forall i, j :: 0 <= i < j < |items| ==> !StandsBefore(items[j], items[i], sort)
  }

  lemma InPlaceThroughout(items: seq<Item>, sort: seq<SortKey>)
    requires OneKind(items, sort)
    ensures InPlace(SortedItems(items, sort), sort)
  {
    forall i, j | 0 <= i < j < |SortedItems(items, sort)|
      ensures !StandsBefore(SortedItems(items, sort)[j], SortedItems(items, sort)[i], sort)
    {
      NobodyMisplaced(items, sort, i, j);
    }
  }

  lemma LaterPart(a: seq<Item>, b: seq<Item>, sort: seq<SortKey>, x: Item, y: Item)
    requires InPlace(a + b, sort)
    ensures x in a && y in b ==> !StandsBefore(y, x, sort)
  {
    if x in a && y in b {
      var i :| 0 <= i < |a| && a[i] == x;
      var j :| 0 <= j < |b| && b[j] == y;
      assert (a + b)[i] == x && (a + b)[|a| + j] == y;
    }
  }

  /** On the page, too, nobody stands after one he should stand before. */
  lemma PageInOrder(orks: seq<Option<seq<Item>>>, offset: nat, limit: nat, sort: seq<SortKey>, i: int, j: int)
    requires OneKind(Flat(orks), sort)
    requires 0 <= i < j < |Page(SortedItems(Flat(orks), sort), offset, limit)|
    ensures var page := Page(SortedItems(Flat(orks), sort), offset, limit); !StandsBefore(page[j], page[i], sort)
  {
    var all, page := SortedItems(Flat(orks), sort), Page(SortedItems(Flat(orks), sort), offset, limit);
    var before, after := PageCuts(all, offset, limit);
    assert all[|before| + i] == page[i] && all[|before| + j] == page[j];
    NobodyMisplaced(Flat(orks), sort, |before| + i, |before| + j);
  }

  function Total(orks: seq<Option<seq<Item>>>): nat {
    |Flat(orks)|
  }

  datatype Listing = Listing(data: seq<Item>, offset: nat, limit: nat, totalCount: nat, hasMore: bool)

  /** `orks` are the complete lists behind the orks' replies and `counts` their own counts. */
  method ListMiners(orks: seq<Option<seq<Item>>>, counts: seq<nat>, sort: seq<SortKey>, offset: nat, askedLimit: nat)
    returns (r: Listing)
    requires OrksSort(orks, sort) && OneKind(Flat(orks), sort)
    ensures r.limit ==
            if askedLimit == 0 then DEFAULT_LIMIT else if askedLimit < MAX_LIMIT then askedLimit else MAX_LIMIT
    ensures r.data == Page(SortedItems(Flat(orks), sort), offset, r.limit)
    ensures r.totalCount == SumCounts(counts) && r.offset == offset
    ensures SumCounts(counts) == Total(orks) ==> (r.hasMore <==> offset + r.limit < |SortedItems(Flat(orks), sort)|)
  {
    var asked := if askedLimit == 0 then DEFAULT_LIMIT else askedLimit;
    var limit := if asked < MAX_LIMIT then asked else MAX_LIMIT;
    var items := FlattenOrkResults(FetchedAll(orks, offset + limit));
    var totalCount: nat := 0;
    for i := 0 to |counts|
      invariant totalCount == SumCounts(counts[..i])
    {
      assert counts[..i + 1][..i] == counts[..i];
      totalCount := totalCount + counts[i];
    }
    assert counts[..|counts|] == counts;
    items := SortedItems(items, sort);
    PageOfPrefixes(orks, offset, limit, sort);
    SortRearranges(Flat(orks), ItemOrder(sort));
    r := Listing(Page(items, offset, limit), offset, limit, totalCount, offset + limit < totalCount);
  }

  function SumCounts(counts: seq<nat>): nat {
    if counts == [] then 0 else SumCounts(counts[..|counts| - 1]) + counts[|counts| - 1]
  }
}
