/** The memory store plugged into the `Storage` port of the interactor, as the program
    wires them together: each port operation is the memory operation of the same name. */
module MemoryPort {
  import opened Base
  import opened Entity
  import opened Model
  import opened MemoryStore
  import opened Interactor

  /** `*storage.Memory` as a `use.Storage`, with `now` as the clock `SaveItem` reads. */
  function MemoryStorage(now: Time): Storage<Store>
  {
    Storage(
      (s: Store, item: Item) =>
        var r := Save(s, item, now);
        (r.store, SaveReply(r.id, None, r.item)),
      (s: Store, p: int) => Ok(Listing(s, p)),
      (s: Store, id: int) => GetByID(s, id),
      (s: Store, x: Item) => (s.(items := Shift(s.items, x)), None))
  }

  /** Through the port the memory store never fails, except `GetItemByID` of an ID it does
      not hold; listings come back sorted. */
  lemma MemoryStorageAnswers(now: Time, s: Store, item: Item, p: int, id: int)
    ensures MemoryStorage(now).saveItem(s, item).1.err == None
    ensures MemoryStorage(now).increaseOrderAfter(s, item).1 == None
    ensures MemoryStorage(now).getItemsByParentID(s, p).Ok?
    ensures SortedByOrder(MemoryStorage(now).getItemsByParentID(s, p).value)
    ensures MemoryStorage(now).getItemByID(s, id).Err? <==> id != RootID && !HasID(s.items, id)
  {
    ListingIsChildren(s, p);
  }

  /** After `IncreaseOrderAfter` of the last record of a well-formed store, that record is
      still found under its ID, unchanged, and the store is still well formed. */
  lemma ShiftAfterLast(t: Store)
    requires WellFormed(t) && t.items != []
    ensures var last := t.items[|t.items| - 1];
      var after := t.(items := Shift(t.items, last));
      WellFormed(after) && GetByID(after, last.ID) == Ok(last)
  {
    var k := |t.items| - 1;
    var last := t.items[k];
    var shifted := Shift(t.items, last);
    ShiftKeepsWellFormed(t, last);
    assert shifted[k] == last;
    forall j | 0 <= j < k ensures shifted[j].ID != last.ID {
      assert shifted[j].ID == t.items[j].ID;
    }
    assert IndexOf(shifted, last.ID) == Some(k);
  }

  /** Saving a new task's item into a well-formed store and then making room among its
      siblings: the record goes last under the next fresh ID, keeps its own order, and the
      store stays well formed. */
  lemma FreshTaskStored(s: Store, f: FormAddTask, now: Time)
    requires WellFormed(s)
    ensures var added := Stamp(NewItem(f, now), now).(ID := s.counter);
      var after := Store(s.counter + 1, Shift(s.items + [added], added));
      && Save(s, NewItem(f, now), now) == Saved(Store(s.counter + 1, s.items + [added]), s.counter, added)
      && WellFormed(after)
      && GetByID(after, s.counter) == Ok(added)
      && added.Title == f.Title && added.ParentItemID == f.ParentID && added.Order == f.Order
  {
    var item := NewItem(f, now);
    NewItemCarriesForm(f, now);
    var saved := Save(s, item, now);
    SaveKeepsWellFormed(s, item, now);
    assert saved.store.items[|s.items|] == saved.item;
    ShiftAfterLast(saved.store);
  }

  /** `AddTask` over the memory store. Once the form is valid the new record is stored
      under the next fresh ID with the form's title, parent and order, its later siblings
      are moved down by one, and the store stays well formed whatever the presenter does. */
  method AddTaskToMemory<P>(presenter: Presenter<P>, s: Store, pr: P, f: FormAddTask, now: Time)
    returns (o: Outcome<Store, P>)
    requires WellFormed(s)
    ensures WellFormed(o.store)
    ensures var ti := TaskInteractor(presenter, MemoryStorage(now));
      ti.ValidateAddTask(s, f).Some? ==> o.store == s && o.err.Some?
    ensures var ti := TaskInteractor(presenter, MemoryStorage(now));
      var added := Stamp(NewItem(f, now), now).(ID := s.counter);
      ti.ValidateAddTask(s, f).None? ==>
        && o.store == Store(s.counter + 1, Shift(s.items + [added], added))
        && GetByID(o.store, s.counter) == Ok(added)
        && added.Title == f.Title && added.ParentItemID == f.ParentID && added.Order == f.Order
  {
    var ti := TaskInteractor(presenter, MemoryStorage(now));
    FreshTaskStored(s, f, now);
    o := ti.AddTask(s, pr, f, now);
  }
}
