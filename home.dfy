/** List logic of the home page (src/pages/home.rs): the urgency-sorted view of
    the inventory, the count of urgent items, removal by id when a card reports
    an item consumed or wasted, and the outcome of a JSON import. */
module Pages {

  import opened Wrappers
  import opened Models
  import opened Components

  // ---------------------------------------------------------------------------
  // Sorting by days remaining (`sort_by_key`, a stable sort)
  // ---------------------------------------------------------------------------

  /** Ascending by days remaining, pairwise. */
  predicate SortedByDays(s: seq<Item>, today: Day)
  {
    forall p, q :: 0 <= p < q < |s| ==> DaysRemaining(s[p], today) <= DaysRemaining(s[q], today)
  }

  /** The items of `s` with exactly `days` days remaining, in their order in `s`. */
  function WithDays(s: seq<Item>, today: Day, days: int): (r: seq<Item>)
    ensures |r| <= |s|
  {
    if s == [] then []
    else (if DaysRemaining(s[0], today) == days then [s[0]] else []) + WithDays(s[1..], today, days)
  }

  /** A group holds only items of the list with that many days remaining. */
  lemma {:induction false} WithDaysMembers(s: seq<Item>, today: Day, days: int)
    ensures forall x :: x in WithDays(s, today, days) ==> x in s && DaysRemaining(x, today) == days
  {
    if s != [] {
      WithDaysMembers(s[1..], today, days);
      assert forall x :: x in s[1..] ==> x in s;
    }
  }

  /** Two lists hold the same items in the same relative order within every
      group of equal days remaining. */
  ghost predicate SameGroups(s: seq<Item>, t: seq<Item>, today: Day)
  {
    forall days :: WithDays(s, today, days) == WithDays(t, today, days)
  }

  /** Places `x` before the first item with at least as many days left, i.e.
      ahead of every item it ties with. */
  function Insert(x: Item, s: seq<Item>, today: Day): seq<Item>
  {
    if s == [] then [x]
    else if DaysRemaining(x, today) <= DaysRemaining(s[0], today) then [x] + s
    else [s[0]] + Insert(x, s[1..], today)
  }

  /** The list `sort_by_key(|item| item.days_remaining())` produces: a stable
      insertion sort. */
  function SortByDaysRemaining(items: seq<Item>, today: Day): seq<Item>
  {
    if items == [] then [] else Insert(items[0], SortByDaysRemaining(items[1..], today), today)
  }

  lemma {:induction false} InsertPermutes(x: Item, s: seq<Item>, today: Day)
    ensures multiset(Insert(x, s, today)) == multiset(s) + multiset{x}
  {
    if s == [] {
      assert Insert(x, s, today) == [x];
    } else if DaysRemaining(x, today) <= DaysRemaining(s[0], today) {
      assert Insert(x, s, today) == [x] + s;
    } else {
      var rest := Insert(x, s[1..], today);
      assert Insert(x, s, today) == [s[0]] + rest;
      InsertPermutes(x, s[1..], today);
      assert s == [s[0]] + s[1..];
      calc {
        multiset([s[0]] + rest);
        multiset([s[0]]) + multiset(rest);
        multiset([s[0]]) + multiset(s[1..]) + multiset{x};
        multiset(s) + multiset{x};
      }
    }
  }

  lemma {:induction false} InsertMembers(x: Item, s: seq<Item>, today: Day)
    ensures forall y :: y in Insert(x, s, today) <==> y == x || y in s
  {
    if s != [] && DaysRemaining(x, today) > DaysRemaining(s[0], today) {
      InsertMembers(x, s[1..], today);
      assert forall y :: y in s <==> y == s[0] || y in s[1..];
    }
  }

  lemma {:induction false} InsertSorted(x: Item, s: seq<Item>, today: Day)
    requires SortedByDays(s, today)
    ensures SortedByDays(Insert(x, s, today), today)
  {
    if s != [] && DaysRemaining(x, today) > DaysRemaining(s[0], today) {
      var rest := Insert(x, s[1..], today);
      SortedTail(s, today);
      InsertSorted(x, s[1..], today);
      InsertMembers(x, s[1..], today);
      forall y | y in rest
        ensures DaysRemaining(s[0], today) <= DaysRemaining(y, today)
      {
        if y != x {
          var q :| 0 <= q < |s[1..]| && s[1..][q] == y;
          assert s[q + 1] == y;
        }
      }
      var r := [s[0]] + rest;
      forall p, q | 0 <= p < q < |r|
        ensures DaysRemaining(r[p], today) <= DaysRemaining(r[q], today)
      {
        assert r[q] == rest[q - 1];
        if p > 0 {
          assert r[p] == rest[p - 1];
        } else {
          assert r[q] in rest;
        }
      }
    }
  }

  lemma {:induction false} WithDaysAppend(a: seq<Item>, b: seq<Item>, today: Day, days: int)
    ensures WithDays(a + b, today, days) == WithDays(a, today, days) + WithDays(b, today, days)
  {
    if a == [] {
      assert a + b == b;
    } else {
      var head := if DaysRemaining(a[0], today) == days then [a[0]] else [];
      var ab := a + b;
      assert ab[0] == a[0] && ab[1..] == a[1..] + b;
      assert WithDays(ab, today, days) == head + WithDays(a[1..] + b, today, days);
      assert WithDays(a, today, days) == head + WithDays(a[1..], today, days);
      WithDaysAppend(a[1..], b, today, days);
      assert head + (WithDays(a[1..], today, days) + WithDays(b, today, days))
          == (head + WithDays(a[1..], today, days)) + WithDays(b, today, days);
    }
  }

  /** Inserting `x` puts it at the head of its own group and leaves every
      group's order as it was. */
  lemma {:induction false} InsertGroups(x: Item, s: seq<Item>, today: Day, days: int)
    ensures WithDays(Insert(x, s, today), today, days)
            == (if DaysRemaining(x, today) == days then [x] else []) + WithDays(s, today, days)
  {
    var hx := if DaysRemaining(x, today) == days then [x] else [];
    assert WithDays([x], today, days) == hx;
    if s == [] {
      assert Insert(x, s, today) == [x];
    } else if DaysRemaining(x, today) <= DaysRemaining(s[0], today) {
      assert Insert(x, s, today) == [x] + s;
      WithDaysAppend([x], s, today, days);
    } else {
      var rest := Insert(x, s[1..], today);
      var hs := if DaysRemaining(s[0], today) == days then [s[0]] else [];
      assert Insert(x, s, today) == [s[0]] + rest;
      InsertGroups(x, s[1..], today, days);
      WithDaysAppend([s[0]], rest, today, days);
      assert WithDays([s[0]], today, days) == hs;
      assert WithDays(s, today, days) == hs + WithDays(s[1..], today, days);
      assert hs == [] || hx == [];
    }
  }

  /** The sorted list is a permutation of the inventory. */
  lemma {:induction false} SortPermutes(items: seq<Item>, today: Day)
    ensures multiset(SortByDaysRemaining(items, today)) == multiset(items)
  {
    if items != [] {
      SortPermutes(items[1..], today);
      InsertPermutes(items[0], SortByDaysRemaining(items[1..], today), today);
      assert items == [items[0]] + items[1..];
    }
  }

  /** The sorted list is non-decreasing in days remaining. */
  lemma {:induction false} SortSorts(items: seq<Item>, today: Day)
    ensures SortedByDays(SortByDaysRemaining(items, today), today)
  {
    if items != [] {
      SortSorts(items[1..], today);
      InsertSorted(items[0], SortByDaysRemaining(items[1..], today), today);
    }
  }

  /** Stability: items with equal days remaining keep their relative order. */
  lemma {:induction false} SortIsStable(items: seq<Item>, today: Day)
    ensures SameGroups(SortByDaysRemaining(items, today), items, today)
  {
    if items != [] {
      SortIsStable(items[1..], today);
      forall days
        ensures WithDays(SortByDaysRemaining(items, today), today, days) == WithDays(items, today, days)
      {
        InsertGroups(items[0], SortByDaysRemaining(items[1..], today), today, days);
      }
    }
  }

  /** Items due in 5, -2, 0 and 3 days are listed as -2, 0, 3, 5. */
  lemma SortExample(a: Item, b: Item, c: Item, d: Item, today: Day)
    requires DaysRemaining(a, today) == 5 && DaysRemaining(b, today) == -2
    requires DaysRemaining(c, today) == 0 && DaysRemaining(d, today) == 3
    ensures SortByDaysRemaining([a, b, c, d], today) == [b, c, d, a]
  {
    var s := [a, b, c, d];
    assert s[1..][1..][1..][1..] == [];
    assert SortByDaysRemaining(s[1..][1..][1..], today) == [d];
    assert SortByDaysRemaining(s[1..][1..], today) == [c, d];
    assert SortByDaysRemaining(s[1..], today) == [b, c, d];
    assert Insert(a, [b, c, d], today) == [b] + Insert(a, [c, d], today);
    assert Insert(a, [c, d], today) == [c] + Insert(a, [d], today);
    assert Insert(a, [d], today) == [d] + Insert(a, [], today);
  }

  /** In a sorted list, the head has the fewest days of any member. */
  lemma HeadIsLeast(s: seq<Item>, y: Item, today: Day)
    requires SortedByDays(s, today) && y in s
    ensures DaysRemaining(s[0], today) <= DaysRemaining(y, today)
  {
    var i :| 0 <= i < |s| && s[i] == y;
    assert i == 0 || DaysRemaining(s[0], today) <= DaysRemaining(s[i], today);
  }

  /** Two sorted lists with the same groups start with the same item. */
  lemma SameHead(t: seq<Item>, u: seq<Item>, today: Day)
    requires t != [] && u != []
    requires SortedByDays(t, today) && SortedByDays(u, today)
    requires SameGroups(t, u, today)
    ensures t[0] == u[0]
  {
    var m := DaysRemaining(t[0], today);
    var n := DaysRemaining(u[0], today);
    var gm := WithDays(u, today, m);
    var gn := WithDays(t, today, n);
    assert WithDays(t, today, m) == gm && WithDays(t, today, m)[0] == t[0];
    assert WithDays(u, today, n) == gn && WithDays(u, today, n)[0] == u[0];
    WithDaysMembers(u, today, m);
    WithDaysMembers(t, today, n);
    HeadIsLeast(u, gm[0], today);
    HeadIsLeast(t, gn[0], today);
    assert m == n;
  }

  /** Dropping equal heads keeps the groups equal. */
  lemma SameGroupsTails(t: seq<Item>, u: seq<Item>, today: Day)
    requires t != [] && u != [] && t[0] == u[0]
    requires SameGroups(t, u, today)
    ensures SameGroups(t[1..], u[1..], today)
  {
    forall days
      ensures WithDays(t[1..], today, days) == WithDays(u[1..], today, days)
    {
      var head := if DaysRemaining(t[0], today) == days then [t[0]] else [];
      assert WithDays(t, today, days) == head + WithDays(t[1..], today, days);
      assert WithDays(u, today, days) == head + WithDays(u[1..], today, days);
      assert WithDays(t[1..], today, days) == WithDays(t, today, days)[|head|..];
      assert WithDays(u[1..], today, days) == WithDays(u, today, days)[|head|..];
    }
  }

  lemma HeadGroupNonEmpty(s: seq<Item>, today: Day)
    ensures s != [] ==> WithDays(s, today, DaysRemaining(s[0], today)) != []
  {
  }

  lemma SortedTail(s: seq<Item>, today: Day)
    requires s != [] && SortedByDays(s, today)
    ensures SortedByDays(s[1..], today)
  {
    forall p, q | 0 <= p < q < |s[1..]|
      ensures DaysRemaining(s[1..][p], today) <= DaysRemaining(s[1..][q], today)
    {
      assert s[1..][p] == s[p + 1] && s[1..][q] == s[q + 1];
    }
  }

  /** Sortedness and stability determine the result: any sorted list with the
      same groups as the inventory is the sorted list. */
  lemma {:induction false} SortedGroupsUnique(t: seq<Item>, u: seq<Item>, today: Day)
    requires SortedByDays(t, today) && SortedByDays(u, today)
    requires SameGroups(t, u, today)
    ensures t == u
    decreases |t|
  {
    if t == [] && u == [] {
      return;
    }
    if t == [] || u == [] {
      HeadGroupNonEmpty(t, today);
      HeadGroupNonEmpty(u, today);
      assert false;
    }
    SameHead(t, u, today);
    SameGroupsTails(t, u, today);
    SortedTail(t, today);
    SortedTail(u, today);
    SortedGroupsUnique(t[1..], u[1..], today);
    assert t == [t[0]] + t[1..] && u == [u[0]] + u[1..];
  }

  /** Exchanging two neighbours that differ in days remaining keeps every group. */
  lemma PairGroups(x: Item, y: Item, today: Day, days: int)
    requires DaysRemaining(x, today) != DaysRemaining(y, today)
    ensures WithDays([x, y], today, days) == WithDays([y, x], today, days)
  {
  }

  lemma SwapPairKeepsGroups(pre: seq<Item>, x: Item, y: Item, post: seq<Item>, today: Day, days: int)
    requires DaysRemaining(x, today) != DaysRemaining(y, today)
    ensures WithDays(pre + [x, y] + post, today, days) == WithDays(pre + [y, x] + post, today, days)
  {
    var xy, yx := [x, y], [y, x];
    WithDaysAppend(pre + xy, post, today, days);
    WithDaysAppend(pre, xy, today, days);
    WithDaysAppend(pre + yx, post, today, days);
    WithDaysAppend(pre, yx, today, days);
    PairGroups(x, y, today, days);
  }

  /** The sequence `s` with positions `j - 1` and `j` exchanged. */
  function SwapNeighbours(s: seq<Item>, j: int): (t: seq<Item>)
    requires 0 < j < |s|
    ensures |t| == |s|
  {
    s[j - 1 := s[j]][j := s[j - 1]]
  }

  lemma SwapKeepsGroups(s: seq<Item>, j: int, today: Day)
    requires 0 < j < |s|
    requires DaysRemaining(s[j - 1], today) != DaysRemaining(s[j], today)
    ensures SameGroups(SwapNeighbours(s, j), s, today)
  {
    var t := SwapNeighbours(s, j);
    assert s == s[..j - 1] + [s[j - 1], s[j]] + s[j + 1..];
    assert t == s[..j - 1] + [s[j], s[j - 1]] + s[j + 1..];
    forall days
      ensures WithDays(t, today, days) == WithDays(s, today, days)
    {
      SwapPairKeepsGroups(s[..j - 1], s[j - 1], s[j], s[j + 1..], today, days);
    }
  }

  /** Positions `0..hi` are in order, except that the item at `j` may be
      ahead of its predecessors (the item being inserted). */
  ghost predicate SortedExcept(s: seq<Item>, hi: int, j: int, today: Day)
    requires hi < |s|
  {
    forall p, q :: 0 <= p < q <= hi && q != j ==> DaysRemaining(s[p], today) <= DaysRemaining(s[q], today)
  }

  /** One step of the insertion: moving the item down one place. */
  lemma SwapStep(s: seq<Item>, i: int, j: int, today: Day)
    requires 0 < j <= i < |s|
    requires SortedExcept(s, i, j, today)
    requires DaysRemaining(s[j - 1], today) > DaysRemaining(s[j], today)
    ensures SortedExcept(SwapNeighbours(s, j), i, j - 1, today)
  {
  }

  /** Once the inserted item is no further ahead than its predecessor, the
      prefix through `hi` is in order. */
  lemma InsertionDone(s: seq<Item>, hi: int, j: int, today: Day)
    requires 0 <= j <= hi < |s|
    requires SortedExcept(s, hi, j, today)
    requires j == 0 || DaysRemaining(s[j - 1], today) <= DaysRemaining(s[j], today)
    ensures SortedByDays(s[..hi + 1], today)
  {
    forall p, q | 0 <= p < q <= hi
      ensures DaysRemaining(s[p], today) <= DaysRemaining(s[q], today)
    {
      if q == j {
        assert p <= j - 1;
        assert p == j - 1 || DaysRemaining(s[p], today) <= DaysRemaining(s[j - 1], today);
      }
    }
  }

  lemma SameGroupsTrans(r: seq<Item>, s: seq<Item>, t: seq<Item>, today: Day)
    requires SameGroups(r, s, today) && SameGroups(s, t, today)
    ensures SameGroups(r, t, today)
  {
  }

  /** `sort_by_key` on a vector, in place: an insertion sort that swaps only
      neighbours with different keys, hence stable. */
  method SortByKey(a: array<Item>, today: Day)
    modifies a
    ensures SortedByDays(a[..], today)
    ensures SameGroups(a[..], old(a[..]), today)
  {
    var i := 0;
    while i < a.Length
      invariant 0 <= i <= a.Length
      invariant SortedByDays(a[..i], today)
      invariant SameGroups(a[..], old(a[..]), today)
    {
      var j := i;
      assert SortedExcept(a[..], i, j, today) by {
        forall p, q | 0 <= p < q <= i && q != i
          ensures DaysRemaining(a[..][p], today) <= DaysRemaining(a[..][q], today)
        {
          assert a[..][p] == a[..i][p] && a[..][q] == a[..i][q];
        }
      }
      while j > 0 && DaysRemaining(a[j - 1], today) > DaysRemaining(a[j], today)
        invariant 0 <= j <= i
        invariant SortedExcept(a[..], i, j, today)
        invariant SameGroups(a[..], old(a[..]), today)
      {
        ghost var s := a[..];
        SwapKeepsGroups(s, j, today);
        SwapStep(s, i, j, today);
        a[j - 1], a[j] := a[j], a[j - 1];
        assert a[..] == SwapNeighbours(s, j);
        SameGroupsTrans(a[..], s, old(a[..]), today);
        j := j - 1;
      }
      InsertionDone(a[..], i, j, today);
      assert a[..][..i + 1] == a[..i + 1];
      i := i + 1;
    }
    assert a[..a.Length] == a[..];
  }

  // ---------------------------------------------------------------------------
  // Urgent count
  // ---------------------------------------------------------------------------

  /** Items with at most three days left (red and yellow tiers). */
  predicate Urgent(item: Item, today: Day)
  {
    DaysRemaining(item, today) <= 3
  }

  /** `filter(|i| i.days_remaining() <= 3).count()`. */
  function UrgentCount(items: seq<Item>, today: Day): (n: nat)
    ensures n <= |items|
    ensures n == 0 <==> forall x :: x in items ==> !Urgent(x, today)
    ensures n == |items| <==> forall x :: x in items ==> Urgent(x, today)
  {
    if items == [] then 0
    else
      assert forall x :: x in items ==> x == items[0] || x in items[1..];
      (if Urgent(items[0], today) then 1 else 0) + UrgentCount(items[1..], today)
  }

  /** An item is urgent exactly when its tier is not safe. */
  lemma UrgentIffNotSafe(item: Item, today: Day)
    ensures Urgent(item, today) <==> Tier(DaysRemaining(item, today)) != StatusSafe
  {
  }

  lemma {:induction false} UrgentCountInsert(x: Item, s: seq<Item>, today: Day)
    ensures UrgentCount(Insert(x, s, today), today) == UrgentCount([x] + s, today)
  {
    if s != [] && DaysRemaining(x, today) > DaysRemaining(s[0], today) {
      UrgentCountInsert(x, s[1..], today);
      assert ([x] + s)[1..] == s;
      assert ([x] + s[1..])[1..] == s[1..];
    }
  }

  /** Counting over the sorted list, as the page does, gives the count over
      the inventory. */
  lemma {:induction false} UrgentCountOfSorted(items: seq<Item>, today: Day)
    ensures UrgentCount(SortByDaysRemaining(items, today), today) == UrgentCount(items, today)
  {
    if items != [] {
      UrgentCountOfSorted(items[1..], today);
      UrgentCountInsert(items[0], SortByDaysRemaining(items[1..], today), today);
      assert ([items[0]] + SortByDaysRemaining(items[1..], today))[1..] == SortByDaysRemaining(items[1..], today);
    }
  }

  // ---------------------------------------------------------------------------
  // Removal by id (`retain(|i| i.id() != id)`)
  // ---------------------------------------------------------------------------

  /** The items of `items` whose id is not `id`, in their order. */
  function RemoveId(items: seq<Item>, id: Uuid): (r: seq<Item>)
    ensures |r| <= |items|
    ensures forall x :: x in r <==> x in items && x.id != id
  {
    if items == [] then []
    else
      assert forall x :: x in items ==> x == items[0] || x in items[1..];
      (if items[0].id != id then [items[0]] else []) + RemoveId(items[1..], id)
  }

  /** Removal keeps the relative order of the remaining items: it acts on
      each part of a list separately. */
  lemma {:induction false} RemoveIdAppend(a: seq<Item>, b: seq<Item>, id: Uuid)
    ensures RemoveId(a + b, id) == RemoveId(a, id) + RemoveId(b, id)
  {
    if a == [] {
      assert a + b == b;
    } else {
      assert (a + b)[0] == a[0] && (a + b)[1..] == a[1..] + b;
      RemoveIdAppend(a[1..], b, id);
    }
  }

  /** Every item with another id is kept as often as it occurs. */
  lemma {:induction false} RemoveIdKeepsOthers(items: seq<Item>, id: Uuid)
    ensures forall x: Item :: x.id != id ==> multiset(RemoveId(items, id))[x] == multiset(items)[x]
  {
    if items != [] {
      RemoveIdKeepsOthers(items[1..], id);
      assert items == [items[0]] + items[1..];
    }
  }

  /** Removing an id that is not present changes nothing. */
  lemma {:induction false} RemoveAbsentId(items: seq<Item>, id: Uuid)
    requires forall x :: x in items ==> x.id != id
    ensures RemoveId(items, id) == items
  {
    if items != [] {
      var rest := items[1..];
      assert items[0] in items && forall x :: x in rest ==> x in items;
      RemoveAbsentId(rest, id);
      assert RemoveId(items, id) == [items[0]] + RemoveId(rest, id);
      assert items == [items[0]] + rest;
    }
  }

  /** Removing twice is removing once. */
  lemma RemoveIdIdempotent(items: seq<Item>, id: Uuid)
    ensures RemoveId(RemoveId(items, id), id) == RemoveId(items, id)
  {
    RemoveAbsentId(RemoveId(items, id), id);
  }

  /** The inventory after the home page has received `calls` from its cards. */
  function Deliver(items: seq<Item>, calls: seq<Notification>): seq<Item>
    decreases |calls|
  {
    if calls == [] then items else Deliver(RemoveId(items, calls[0].id), calls[1..])
  }

  /** A drag on the card of `item` that ends armed, in either direction,
      removes the item from the inventory; one that ends unarmed keeps it. */
  lemma SwipeRemovesItem(items: seq<Item>, item: Item, g: Gesture, x0: real, xs: seq<real>)
    ensures var r := Run(g, [PointerDown(x0)] + Moves(xs) + [PointerUp], item.id);
      && (Abs(FinalOffset(x0, xs)) >= SWIPE_THRESHOLD ==> Deliver(items, r.calls) == RemoveId(items, item.id))
      && (Abs(FinalOffset(x0, xs)) < SWIPE_THRESHOLD ==> Deliver(items, r.calls) == items)
  {
    DragAndRelease(g, x0, xs, PointerUp, item.id);
  }

  // ---------------------------------------------------------------------------
  // The page
  // ---------------------------------------------------------------------------

  /** The two ways an import ends once a file was picked: the text was read and
      decoded (to items or to a decoder message), or reading the file failed. */
  datatype ImportOutcome = Decoded(result: Result<seq<Item>, string>) | ReadFailed

  const IMPORT_FAILED_PREFIX: string := "导入失败: "
  const READ_FAILED: string := "读取文件失败"

  class Home {
    /** The shared inventory signal. */
    var inventory: seq<Item>
    /** The error banner, if shown. */
    var errorMessage: Option<string>

    constructor (items: seq<Item>)
      ensures inventory == items && errorMessage == None
    {
      inventory := items;
      errorMessage := None;
    }

    /** The list as rendered: a sorted copy of the inventory and the number
        of urgent items in it. */
    method SortedView(today: Day) returns (sorted: seq<Item>, urgentCount: nat)
      ensures sorted == SortByDaysRemaining(inventory, today)
      ensures SortedByDays(sorted, today) && multiset(sorted) == multiset(inventory)
      ensures urgentCount == UrgentCount(inventory, today)
    {
      var items := inventory;
      var a := new Item[|items|](k requires 0 <= k < |items| => items[k]);
      assert a[..] == items;
      SortByKey(a, today);
      sorted := a[..];
      SortSorts(items, today);
      SortIsStable(items, today);
      SortPermutes(items, today);
      assert SameGroups(sorted, SortByDaysRemaining(items, today), today) by {
        forall days
          ensures WithDays(sorted, today, days) == WithDays(SortByDaysRemaining(items, today), today, days)
        {
        }
      }
      SortedGroupsUnique(sorted, SortByDaysRemaining(items, today), today);
      urgentCount := UrgentCount(sorted, today);
      UrgentCountOfSorted(items, today);
    }

    /** "Consumed": drops every item with this id. */
    method ConsumeItem(id: Uuid)
      modifies this
      ensures inventory == RemoveId(old(inventory), id)
      ensures errorMessage == old(errorMessage)
    {
      inventory := RemoveId(inventory, id);
    }

    /** "Wasted": the same effect as consuming. */
    method WasteItem(id: Uuid)
      modifies this
      ensures inventory == RemoveId(old(inventory), id)
      ensures errorMessage == old(errorMessage)
    {
      inventory := RemoveId(inventory, id);
    }

    /** A card's handler call reaching the page. */
    method Receive(n: Notification)
      modifies this
      ensures inventory == Deliver(old(inventory), [n])
      ensures errorMessage == old(errorMessage)
    {
      match n
      case OnConsume(id) => ConsumeItem(id);
      case OnWaste(id) => WasteItem(id);
    }

    /** The file reader's callback: a decoded list replaces the inventory
        wholesale and clears the error; any failure keeps the inventory and
        sets a message. */
    method OnImportRead(outcome: ImportOutcome)
      modifies this
      ensures outcome.Decoded? && outcome.result.Ok? ==>
        inventory == outcome.result.value && errorMessage == None
      ensures outcome.Decoded? && outcome.result.Err? ==>
        inventory == old(inventory) && errorMessage == Some(IMPORT_FAILED_PREFIX + outcome.result.error)
      ensures outcome.ReadFailed? ==>
        inventory == old(inventory) && errorMessage == Some(READ_FAILED)
    {
      match outcome
      case Decoded(Ok(items)) =>
        inventory := items;
        errorMessage := None;
      case Decoded(Err(e)) =>
        errorMessage := Some(IMPORT_FAILED_PREFIX + e);
      case ReadFailed =>
        errorMessage := Some(READ_FAILED);
    }
  }
}
