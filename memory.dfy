/** `storage.Memory`: the volatile item store behind the use-case layer. */
module MemoryStore {
  import opened Base
  import opened Entity

  /** What a `Memory` holds: the counter the next fresh ID is taken from, and the
      records in insertion order. */
  datatype Store = Store(counter: int, items: seq<Item>)

  /** `NewMemory()`. */
  const EmptyStore: Store := Store(1, [])

  /** The index of the first record with ID `id`, if there is one. */
  function IndexOf(items: seq<Item>, id: int): (r: Option<nat>)
    ensures r.Some? ==> r.value < |items| && items[r.value].ID == id
    ensures r.Some? ==> forall k :: 0 <= k < r.value ==> items[k].ID != id
    ensures r.None? <==> forall k :: 0 <= k < |items| ==> items[k].ID != id
  {
    if items == [] then None
    else if items[0].ID == id then Some(0)
    else
      match IndexOf(items[1..], id)
      case None =>
        assert forall k :: 1 <= k < |items| ==> items[k] == items[1..][k - 1];
        None
      case Some(k) => Some(k + 1)
  }

  predicate HasID(items: seq<Item>, id: int)
  {
    exists k :: 0 <= k < |items| && items[k].ID == id
  }

  /** The caller's item after `SaveItem` has written its timestamps. */
  function Stamp(item: Item, now: Time): Item
  {
    item.(CreatedAt := if item.CreatedAt == ZeroTime then now else item.CreatedAt, UpdatedAt := now)
  }

  /** The outcome of saving a non-nil item: the new store, the returned ID, and the
      caller's item as `SaveItem` leaves it (Go mutates it through the pointer). */
  datatype Saved = Saved(store: Store, id: int, item: Item)

  /** `SaveItem` on a non-nil item at time `now`. A positive ID already stored replaces
      that record; any other ID is offset by the counter and appended. */
  function Save(s: Store, item: Item, now: Time): Saved
  {
    var stamped := Stamp(item, now);
    var found := if item.ID > 0 then IndexOf(s.items, item.ID) else None;
    if found.Some? then
      Saved(s.(items := s.items[found.value := stamped]), item.ID, stamped)
    else
      var added := stamped.(ID := item.ID + s.counter);
      Saved(Store(s.counter + 1, s.items + [added]), added.ID, added)
  }

  /** Whether `IncreaseOrderAfter(x)` bumps record `it`: a sibling of `x`, not `x` itself,
      ranked at or after it. */
  predicate MovesFor(it: Item, x: Item)
  {
    it.ParentItemID == x.ParentItemID && it.ID != x.ID && it.Order >= x.Order
  }

  /** The records after `IncreaseOrderAfter(x)`. */
  function Shift(items: seq<Item>, x: Item): (r: seq<Item>)
    ensures |r| == |items|
  {
    seq(|items|, k requires 0 <= k < |items| =>
      if MovesFor(items[k], x) then items[k].(Order := Inc(items[k].Order)) else items[k])
  }

  /** The records under parent `p`, in store order. */
  function Children(items: seq<Item>, p: int): (r: seq<Item>)
    ensures forall i :: 0 <= i < |r| ==> r[i].ParentItemID == p
    ensures multiset(r) <= multiset(items)
    ensures forall it: Item :: it.ParentItemID == p ==> multiset(r)[it] == multiset(items)[it]
  {
    if items == [] then []
    else
      var init := items[..|items| - 1];
      var last := items[|items| - 1];
      assert items == init + [last];
      var c := Children(init, p);
      if last.ParentItemID == p then c + [last] else c
  }

  predicate SortedByOrder(s: seq<Item>)
  {
    forall i, j :: 0 <= i < j < |s| ==> s[i].Order <= s[j].Order
  }

  /** A record no later than the head of a sorted sequence can go in front of it. */
  lemma PrependSorted(a: Item, t: seq<Item>)
    requires SortedByOrder(t) && (t == [] || a.Order <= t[0].Order)
    ensures SortedByOrder([a] + t)
  {
    var r := [a] + t;
    forall i, j | 0 <= i < j < |r| ensures r[i].Order <= r[j].Order {
      assert r[j] == t[j - 1];
      if i > 0 {
        assert r[i] == t[i - 1];
      }
    }
  }

  /** `x` placed into the sorted `s` after every record ranked at or before it. */
  function Insert(s: seq<Item>, x: Item): (r: seq<Item>)
    requires SortedByOrder(s)
    ensures SortedByOrder(r)
    ensures multiset(r) == multiset(s) + multiset{x}
    ensures r[0] == x || (s != [] && r[0] == s[0])
  {
    if s == [] || x.Order < s[0].Order then
      PrependSorted(x, s);
      [x] + s
    else
      var t := Insert(s[1..], x);
      assert s == [s[0]] + s[1..];
      PrependSorted(s[0], t);
      [s[0]] + t
  }

  /** One ordering `sort.Slice` may produce: an insertion sort by `Order`. */
  function SortByOrder(s: seq<Item>): (r: seq<Item>)
    ensures SortedByOrder(r)
    ensures multiset(r) == multiset(s)
  {
    if s == [] then []
    else
      assert s == s[..|s| - 1] + [s[|s| - 1]];
      Insert(SortByOrder(s[..|s| - 1]), s[|s| - 1])
  }

  /** A record no earlier than the last of a sorted list goes at its end. */
  lemma {:induction false} InsertLast(s: seq<Item>, x: Item)
    requires SortedByOrder(s) && (s != [] ==> s[|s| - 1].Order <= x.Order)
    ensures Insert(s, x) == s + [x]
    decreases |s|
  {
    if s != [] && s[0].Order <= x.Order {
      if |s| == 1 {
        assert s[1..] == [];
      } else {
        assert s[0].Order <= s[1].Order;
        InsertLast(s[1..], x);
      }
      assert s == [s[0]] + s[1..];
    }
  }
  /** Sorting a list that is already sorted by `Order` gives it back unchanged. */
  lemma {:induction false} SortSorted(s: seq<Item>)
    requires SortedByOrder(s)
    ensures SortByOrder(s) == s
    decreases |s|
  {
    if s != [] {
      var init := s[..|s| - 1];
      assert SortedByOrder(init);
      SortSorted(init);
      InsertLast(init, s[|s| - 1]);
      assert init + [s[|s| - 1]] == s;
    }
  }

  /** `GetItemsByParentID(p)`: the children of `p`, sorted by `Order`. */
  function Listing(s: Store, p: int): seq<Item>
  {
    SortByOrder(Children(s.items, p))
  }

  /** `GetItemByID(id)`: the root sentinel for `RootID`, else the first record with that ID. */
  function GetByID(s: Store, id: int): (r: Result<Item>)
    ensures id == RootID ==> r == Ok(RootItem)
    ensures id != RootID && r.Ok? ==>
      exists k :: 0 <= k < |s.items| && s.items[k] == r.value && r.value.ID == id
                  && forall j :: 0 <= j < k ==> s.items[j].ID != id
    ensures r.Err? <==> id != RootID && !HasID(s.items, id)
    ensures r.Err? ==> r.error == ItemNotFound
  {
    if id == RootID then Ok(RootItem)
    else
      match IndexOf(s.items, id)
      case Some(k) => Ok(s.items[k])
      case None => Err(ItemNotFound)
  }

  /** The store a program reaches when it saves only new items (ID 0) or records it
      read back: the counter is one past the number of records and IDs are
      exactly `1 .. counter - 1`, each once. */
  ghost predicate WellFormed(s: Store)
  {
    && s.counter == |s.items| + 1
    && (forall k :: 0 <= k < |s.items| ==> 0 < s.items[k].ID < s.counter)
    && (forall j, k :: 0 <= j < k < |s.items| ==> s.items[j].ID != s.items[k].ID)
  }

  /** An item such a program hands to `SaveItem`. */
  ghost predicate Saveable(s: Store, item: Item)
  {
    item.ID == 0 || (item.ID > 0 && HasID(s.items, item.ID))
  }

  class Memory {
    var id: int
    var items: seq<Item>

    function State(): Store
      reads this
    {
      Store(id, items)
    }

    /** `NewMemory`. */
    constructor ()
      ensures State() == EmptyStore
    {
      id := 1;
      items := [];
    }

    /** `SaveItem`; `item == None` is a nil pointer. Returns the ID, the error, and the
        caller's item as the call leaves it. */
    method SaveItem(item: Option<Item>, now: Time) returns (savedID: int, err: Option<Error>, after: Option<Item>)
      modifies this
      ensures item.None? ==> savedID == -1 && err == Some(NilItem) && after == None && State() == old(State())
      ensures item.Some? ==>
        var r := Save(old(State()), item.value, now);
        State() == r.store && savedID == r.id && err == None && after == Some(r.item)
    {
      if item.None? {
        return -1, Some(NilItem), None;
      }
      var it := item.value;
      if it.CreatedAt == ZeroTime {
        it := it.(CreatedAt := now);
      }
      it := it.(UpdatedAt := now);
      if it.ID > 0 {
        var i := 0;
        while i < |items|
          invariant 0 <= i <= |items|
          invariant forall k :: 0 <= k < i ==> items[k].ID != it.ID
        {
          if items[i].ID == it.ID {
            assert IndexOf(items, it.ID) == Some(i);
            items := items[i := it];
            return it.ID, None, Some(it);
          }
          i := i + 1;
        }
      }
      it := it.(ID := it.ID + id);
      items := items + [it];
      id := id + 1;
      return it.ID, None, Some(it);
    }

    /** `IncreaseOrderAfter(x)`: bumps the `Order` of every sibling of `x` ranked at or
        after it. It never fails. */
    method IncreaseOrderAfter(x: Item) returns (err: Option<Error>)
      modifies this
      ensures items == Shift(old(items), x) && id == old(id)
      ensures err == None
    {
      var i := 0;
      while i < |items|
        invariant 0 <= i <= |items| == |old(items)|
        invariant forall k :: 0 <= k < i ==> items[k] == Shift(old(items), x)[k]
        invariant forall k :: i <= k < |items| ==> items[k] == old(items)[k]
        invariant id == old(id)
      {
        var it := items[i];
        if it.ParentItemID == x.ParentItemID && it.ID != x.ID && it.Order >= x.Order {
          items := items[i := it.(Order := Inc(it.Order))];
        }
        i := i + 1;
      }
      assert items == Shift(old(items), x);
      return None;
    }

    /** `GetItemsByParentID(p)`: collects the children of `p`, then sorts them by `Order`. */
    method GetItemsByParentID(p: int) returns (r: seq<Item>, err: Option<Error>)
      ensures SortedByOrder(r)
      ensures multiset(r) == multiset(Children(items, p))
      ensures r == Listing(State(), p)
      ensures err == None
    {
      var found := [];
      var i := 0;
      while i < |items|
        invariant 0 <= i <= |items|
        invariant found == Children(items[..i], p)
      {
        assert items[..i + 1][..i] == items[..i];
        if items[i].ParentItemID == p {
          found := found + [items[i]];
        }
        i := i + 1;
      }
      assert items[..i] == items;
      return SortByOrder(found), None;
    }

    /** `GetItemByID(id)`. */
    method GetItemByID(target: int) returns (r: Result<Item>)
      ensures r == GetByID(State(), target)
    {
      if target == RootID {
        return Ok(RootItem);
      }
      var i := 0;
      while i < |items|
        invariant 0 <= i <= |items|
        invariant forall k :: 0 <= k < i ==> items[k].ID != target
      {
        if items[i].ID == target {
          assert IndexOf(items, target) == Some(i);
          return Ok(items[i]);
        }
        i := i + 1;
      }
      return Err(ItemNotFound);
    }
  }

  /** An item whose ID `SaveItem` does not find (ID 0 for every new item, but also a
      negative or unknown positive ID) is appended under `ID + counter`, and the counter
      advances by one; the records already stored are kept as they were. */
  lemma SaveAppends(s: Store, item: Item, now: Time)
    requires item.ID <= 0 || !HasID(s.items, item.ID)
    ensures var r := Save(s, item, now);
      && r.id == item.ID + s.counter
      && r.store.counter == s.counter + 1
      && r.store.items == s.items + [r.item]
      && r.item == Stamp(item, now).(ID := r.id)
  {
  }

  /** The first item saved into a new store gets ID 1. */
  lemma FirstIDIsOne(item: Item, now: Time)
    requires item.ID == 0
    ensures Save(EmptyStore, item, now).id == 1
  {
  }

  /** Two new items saved one after the other get positive, strictly increasing IDs. */
  lemma FreshIDsIncrease(s: Store, a: Item, b: Item, t1: Time, t2: Time)
    requires s.counter >= 1 && a.ID == 0 && b.ID == 0
    ensures var r1 := Save(s, a, t1);
      var r2 := Save(r1.store, b, t2);
      0 < r1.id < r2.id && r2.id == r1.id + 1
  {
  }

  /** An item with a positive ID already stored replaces the first record with that ID and
      nothing else; the ID is returned and the counter and length stay as they were. */
  lemma SaveReplaces(s: Store, item: Item, now: Time)
    requires item.ID > 0 && HasID(s.items, item.ID)
    ensures var r := Save(s, item, now);
      && r.id == item.ID
      && r.store.counter == s.counter
      && |r.store.items| == |s.items|
      && exists k :: 0 <= k < |s.items| && s.items[k].ID == item.ID
           && (forall j :: 0 <= j < k ==> s.items[j].ID != item.ID)
           && r.store.items == s.items[k := r.item]
  {
    var k := IndexOf(s.items, item.ID).value;
    assert s.items[k].ID == item.ID;
  }

  /** `SaveItem` keeps a set `CreatedAt`, fills a zero one with `now`, sets `UpdatedAt` to
      `now`, and changes no other field of the caller's item except the ID. */
  lemma SaveStamps(s: Store, item: Item, now: Time)
    ensures var r := Save(s, item, now);
      && r.item.ID == r.id
      && r.item.CreatedAt == (if item.CreatedAt == ZeroTime then now else item.CreatedAt)
      && r.item.UpdatedAt == now
      && r.item == item.(ID := r.id, CreatedAt := r.item.CreatedAt, UpdatedAt := now)
  {
  }

  lemma NewStoreIsWellFormed()
    ensures WellFormed(EmptyStore)
  {
  }

  /** Saving new items and records read back keeps the store well formed. */
  lemma SaveKeepsWellFormed(s: Store, item: Item, now: Time)
    requires WellFormed(s) && Saveable(s, item)
    ensures WellFormed(Save(s, item, now).store)
  {
    if item.ID > 0 {
      var k := IndexOf(s.items, item.ID).value;
      var items' := Save(s, item, now).store.items;
      assert items' == s.items[k := Stamp(item, now)];
      forall j, m | 0 <= j < m < |items'| ensures items'[j].ID != items'[m].ID {
        assert items'[j].ID == s.items[j].ID && items'[m].ID == s.items[m].ID;
      }
    }
  }

  /** In a well-formed store, reading back the ID just saved gives the caller's item as
      the call left it; with an advancing clock its `UpdatedAt` is later than before. */
  lemma SaveThenGet(s: Store, item: Item, now: Time)
    requires WellFormed(s) && Saveable(s, item)
    ensures var r := Save(s, item, now);
      && GetByID(r.store, r.id) == Ok(r.item)
      && (item.UpdatedAt < now ==> r.item.UpdatedAt > item.UpdatedAt)
  {
    var r := Save(s, item, now);
    SaveKeepsWellFormed(s, item, now);
    if item.ID == 0 {
      assert r.store.items[|s.items|] == r.item;
    } else {
      var k := IndexOf(s.items, item.ID).value;
      assert r.store.items[k] == r.item;
    }
  }

  /** `GetItemsByParentID(p)` returns exactly the records under `p`, each as often as it is
      stored, sorted by `Order`. */
  lemma ListingIsChildren(s: Store, p: int)
    ensures SortedByOrder(Listing(s, p))
    ensures forall it :: it in Listing(s, p) <==> it in s.items && it.ParentItemID == p
    ensures forall it: Item :: it.ParentItemID == p ==> multiset(Listing(s, p))[it] == multiset(s.items)[it]
    ensures forall it: Item :: it.ParentItemID != p ==> multiset(Listing(s, p))[it] == 0
  {
    var c := Children(s.items, p);
    forall it | it in Listing(s, p) ensures it in s.items && it.ParentItemID == p {
      assert it in multiset(c);
    }
    forall it | it in s.items && it.ParentItemID == p ensures it in Listing(s, p) {
      assert it in multiset(s.items);
    }
  }

  /** In a well-formed store no listing contains the root. */
  lemma ListingExcludesRoot(s: Store, p: int)
    requires WellFormed(s)
    ensures forall it :: it in Listing(s, p) ==> it.ID != RootID
  {
    ListingIsChildren(s, p);
  }

  /** `IncreaseOrderAfter(x)` changes at most the `Order` of a record; it bumps it by one
      (modulo 2^64) exactly on the siblings of `x` other than `x` ranked at or after it,
      and leaves every other record identical. */
  lemma ShiftChangesOnlyOrder(items: seq<Item>, x: Item)
    ensures forall k :: 0 <= k < |items| ==> Shift(items, x)[k] == items[k].(Order := Shift(items, x)[k].Order)
    ensures forall k :: 0 <= k < |items| && MovesFor(items[k], x) ==> Shift(items, x)[k].Order == Inc(items[k].Order)
    ensures forall k :: 0 <= k < |items| && !MovesFor(items[k], x) ==> Shift(items, x)[k] == items[k]
  {
  }

  /** When no sibling sits at the largest `Order`, `IncreaseOrderAfter(x)` leaves no other
      sibling at or before `x.Order` that was after it, keeps the siblings below where they
      were, and keeps the relative order of the siblings. */
  lemma ShiftMakesRoom(items: seq<Item>, x: Item)
    requires forall k :: 0 <= k < |items| && items[k].ParentItemID == x.ParentItemID ==> items[k].Order < MAX_U64
    ensures forall k :: 0 <= k < |items| && items[k].ParentItemID == x.ParentItemID && items[k].ID != x.ID ==>
      (items[k].Order >= x.Order ==> Shift(items, x)[k].Order == items[k].Order + 1 > x.Order)
      && (items[k].Order < x.Order ==> Shift(items, x)[k].Order == items[k].Order)
    ensures forall j, k ::
      (0 <= j < |items| && 0 <= k < |items|
       && items[j].ParentItemID == x.ParentItemID && items[k].ParentItemID == x.ParentItemID
       && items[j].ID != x.ID && items[k].ID != x.ID) ==>
      (items[j].Order < items[k].Order <==> Shift(items, x)[j].Order < Shift(items, x)[k].Order)
  {
  }

  /** `IncreaseOrderAfter` keeps IDs, so the store stays well formed. */
  lemma ShiftKeepsWellFormed(s: Store, x: Item)
    requires WellFormed(s)
    ensures WellFormed(s.(items := Shift(s.items, x)))
  {
    var t := Shift(s.items, x);
    assert forall k :: 0 <= k < |t| ==> t[k].ID == s.items[k].ID;
  }
}
