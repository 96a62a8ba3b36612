/** The task use cases (`use/task.go`): the interactor between the user interface and the
    item store, reached through two ports. */
module Interactor {
  import opened Base
  import opened Strs
  import opened Entity
  import opened Model
  import opened TaskTypes
  import opened States

  /** What a `SaveItem` call gives back: the ID, the error, and the caller's item as the
      implementation leaves it (Go passes a pointer, which an implementation may stamp). */
  datatype SaveReply = SaveReply(id: int, err: Option<Error>, item: Item)

  /** The `Storage` port (entity gateway) over an implementation state `S`. Lookups do not
      change the state. */
  datatype Storage<!S> = Storage(
    saveItem: (S, Item) -> (S, SaveReply),
    getItemsByParentID: (S, int) -> Result<seq<Item>>,
    getItemByID: (S, int) -> Result<Item>,
    increaseOrderAfter: (S, Item) -> (S, Option<Error>))

  /** The `Presenter` port (output port) over an implementation state `P`. */
  datatype Presenter<!P> = Presenter(
    showTaskAdded: (P, Task) -> (P, Option<Error>),
    showTasksOfParentID: (P, int, seq<Task>) -> (P, Option<Error>))

  /** One call made through a port, with its arguments. */
  datatype Call =
    | GetItemByID(id: int)
    | SaveItem(item: Item)
    | IncreaseOrderAfter(item: Item)
    | GetItemsByParentID(parentID: int)
    | ShowTaskAdded(task: Task)
    | ShowTasksOfParentID(parentID: int, tasks: seq<Task>)

  predicate IsPresenterCall(c: Call)
  {
    c.ShowTaskAdded? || c.ShowTasksOfParentID?
  }

  /** The result of a use case: both port states afterwards, the returned error, and
      every port call made, in order. */
  datatype Outcome<S, P> = Outcome(store: S, view: P, err: Option<Error>, calls: seq<Call>)

  /** The title test of `validateAddTask`: empty, or nothing but white space. */
  predicate IsBlank(title: string)
  {
    title == "" || TrimSpace(title) == ""
  }

  /** A title is blank exactly when every character of it is white space. */
  lemma BlankIsAllSpace(title: string)
    ensures IsBlank(title) <==> AllSpace(title)
  {
    TrimSpaceBlank(title);
  }

  /** The item `AddTask` builds from a form at time `now`. */
  function NewItem(f: FormAddTask, now: Time): Item
  {
    Item(0, f.Title, f.Description, TaskTypeToItemType(f.Type), ItemStateNormal, f.Due,
      ZeroTime, now, now, f.ParentID, f.Order)
  }

  /** The new item carries the form's title, due date, description, order and parent,
      the translated type and the normal state, and has no ID yet. */
  lemma NewItemCarriesForm(f: FormAddTask, now: Time)
    ensures var it := NewItem(f, now);
      && it.ID == 0 && it.Title == f.Title && it.Due == f.Due && it.Description == f.Description
      && it.Order == f.Order && it.ParentItemID == f.ParentID && it.State == ItemStateNormal
      && it.CreatedAt == now && it.UpdatedAt == now
      && (f.Type == TaskTypeCategory ==> it.Type == ItemTypeCategory)
      && (f.Type == TaskTypeTask ==> it.Type == ItemTypeTask)
  {
  }

  /** `itemToTask`. */
  function ItemToTask(it: Item): (t: Task)
    ensures t.State == TaskStateNormal || t.State == TaskStateCompleted
    ensures t.Type == TaskTypeCategory || t.Type == TaskTypeTask
  {
    Task(it.ID, it.Title, ItemTypeToTaskType(it.Type), ItemStateToTaskState(it.State), it.Due,
      it.Description, it.Order)
  }

  /** `itemToTask` copies ID, title, due date, description and order, and translates type
      and state through the tables, so every task item and category item keeps its kind and
      its state. */
  lemma ItemToTaskCopies(it: Item)
    ensures var t := ItemToTask(it);
      && t.ID == it.ID && t.Title == it.Title && t.Due == it.Due
      && t.Description == it.Description && t.Order == it.Order
      && t.Type == ItemTypeToTaskType(it.Type) && t.State == ItemStateToTaskState(it.State)
      && (it.Type == ItemTypeTask || it.Type == ItemTypeCategory ==> TaskTypeToItemType(t.Type) == it.Type)
      && (it.State == ItemStateNormal || it.State == ItemStateCompleted ==> TaskStateToItemState(t.State) == it.State)
  {
    TypeRoundTrips(it.Type, 0);
    StateRoundTrips(0, it.State);
  }

  /** The items translated one by one, keeping their order. */
  function ToTasks(items: seq<Item>): (r: seq<Task>)
    ensures |r| == |items|
    ensures forall i :: 0 <= i < |items| ==> r[i] == ItemToTask(items[i])
  {
    seq(|items|, i requires 0 <= i < |items| => ItemToTask(items[i]))
  }

  /** `TaskInteractor`: the use cases over a presenter and a storage. */
  datatype TaskInteractor<!S, !P> = TaskInteractor(presenter: Presenter<P>, storage: Storage<S>)
  {
    /** `validateAddTask`: a blank title fails with `ErrEmptyTitle`; otherwise the parent
        must be found. */
    function ValidateAddTask(st: S, f: FormAddTask): (r: Option<Error>)
      ensures IsBlank(f.Title) ==> r == Some(EmptyTitle)
      ensures !IsBlank(f.Title) && storage.getItemByID(st, f.ParentID).Err? ==>
        r == Some(Wrapped("getting parent item", storage.getItemByID(st, f.ParentID).error))
      ensures r == None <==> !IsBlank(f.Title) && storage.getItemByID(st, f.ParentID).Ok?
    {
      if f.Title == "" || TrimSpace(f.Title) == "" then Some(EmptyTitle)
      else
        match storage.getItemByID(st, f.ParentID)
        case Err(e) => Some(Wrapped("getting parent item", e))
        case Ok(_) => None
    }

    /** `AddTask`: validate, save the new item, make room among its siblings, then report it.
        Each step runs only if the ones before it succeeded. */
    method AddTask(st: S, pr: P, f: FormAddTask, now: Time) returns (o: Outcome<S, P>)
      ensures IsBlank(f.Title) ==>
        o == Outcome(st, pr, Some(Wrapped("validating task", EmptyTitle)), [])
        && Is(o.err.value, EmptyTitle)
      ensures !IsBlank(f.Title) ==> |o.calls| >= 1 && o.calls[0] == GetItemByID(f.ParentID)
      ensures !IsBlank(f.Title) && storage.getItemByID(st, f.ParentID).Err? ==>
        o == Outcome(st, pr, Some(Wrapped("validating task", ValidateAddTask(st, f).value)), [GetItemByID(f.ParentID)])
        && Is(o.err.value, storage.getItemByID(st, f.ParentID).error)
      ensures ValidateAddTask(st, f).Some? ==> forall c :: c in o.calls ==> !c.SaveItem?
      ensures ValidateAddTask(st, f).None? ==>
        |o.calls| >= 2 && o.calls[..2] == [GetItemByID(f.ParentID), SaveItem(NewItem(f, now))]
      ensures ValidateAddTask(st, f).None? && storage.saveItem(st, NewItem(f, now)).1.err.Some? ==>
        var saved := storage.saveItem(st, NewItem(f, now));
        o == Outcome(saved.0, pr, Some(Wrapped("saving task", saved.1.err.value)), o.calls[..2])
        && Is(o.err.value, saved.1.err.value)
      ensures ValidateAddTask(st, f).None? && storage.saveItem(st, NewItem(f, now)).1.err.None? ==>
        var saved := storage.saveItem(st, NewItem(f, now));
        var added := saved.1.item.(ID := saved.1.id);
        var inc := storage.increaseOrderAfter(saved.0, added);
        && |o.calls| >= 3 && o.calls[2] == IncreaseOrderAfter(added) && o.store == inc.0
        && (inc.1.Some? ==>
              o == Outcome(inc.0, pr, Some(Wrapped("changing order", inc.1.value)), o.calls[..3])
              && Is(o.err.value, inc.1.value))
        && (inc.1.None? ==>
              var shown := presenter.showTaskAdded(pr, ItemToTask(added));
              o == Outcome(inc.0, shown.0, shown.1, o.calls[..3] + [ShowTaskAdded(ItemToTask(added))]))
    {
      var calls: seq<Call> := [];
      if !IsBlank(f.Title) {
        calls := calls + [GetItemByID(f.ParentID)];
      }
      var invalid := ValidateAddTask(st, f);
      if invalid.Some? {
        return Outcome(st, pr, Some(Wrapped("validating task", invalid.value)), calls);
      }
      var newTask := NewItem(f, now);
      calls := calls + [SaveItem(newTask)];
      var saved := storage.saveItem(st, newTask);
      var st1 := saved.0;
      if saved.1.err.Some? {
        return Outcome(st1, pr, Some(Wrapped("saving task", saved.1.err.value)), calls);
      }
      newTask := saved.1.item;
      newTask := newTask.(ID := saved.1.id);
      calls := calls + [IncreaseOrderAfter(newTask)];
      var inc := storage.increaseOrderAfter(st1, newTask);
      var st2 := inc.0;
      if inc.1.Some? {
        return Outcome(st2, pr, Some(Wrapped("changing order", inc.1.value)), calls);
      }
      var task := ItemToTask(newTask);
      calls := calls + [ShowTaskAdded(task)];
      var shown := presenter.showTaskAdded(pr, task);
      return Outcome(st2, shown.0, shown.1, calls);
    }

    /** `ChangeTaskStateByID`: load the item, overwrite its state, save it. The presenter is
        never involved. */
    method ChangeTaskStateByID(st: S, pr: P, taskID: int, s: TaskState) returns (o: Outcome<S, P>)
      ensures o.view == pr
      ensures forall c :: c in o.calls ==> !IsPresenterCall(c)
      ensures |o.calls| >= 1 && o.calls[0] == GetItemByID(taskID)
      ensures storage.getItemByID(st, taskID).Err? ==>
        o == Outcome(st, pr, Some(Wrapped("getting item", storage.getItemByID(st, taskID).error)), [GetItemByID(taskID)])
        && Is(o.err.value, storage.getItemByID(st, taskID).error)
      ensures storage.getItemByID(st, taskID).Ok? ==>
        var item := storage.getItemByID(st, taskID).value.(State := TaskStateToItemState(s));
        var saved := storage.saveItem(st, item);
        && o.calls == [GetItemByID(taskID), SaveItem(item)]
        && o.store == saved.0
        && (saved.1.err.None? ==> o.err == None)
        && (saved.1.err.Some? ==> o.err == Some(Wrapped("saving item", saved.1.err.value)) && Is(o.err.value, saved.1.err.value))
    {
      var calls := [GetItemByID(taskID)];
      var found := storage.getItemByID(st, taskID);
      if found.Err? {
        return Outcome(st, pr, Some(Wrapped("getting item", found.error)), calls);
      }
      var item := found.value;
      item := item.(State := TaskStateToItemState(s));
      calls := calls + [SaveItem(item)];
      var saved := storage.saveItem(st, item);
      if saved.1.err.Some? {
        return Outcome(saved.0, pr, Some(Wrapped("saving item", saved.1.err.value)), calls);
      }
      return Outcome(saved.0, pr, None, calls);
    }

    /** `ListTasksByParentID`: fetch the children and hand them, translated one by one in
        the order the storage gave them, to the presenter. */
    method ListTasksByParentID(st: S, pr: P, parentID: int) returns (o: Outcome<S, P>)
      ensures o.store == st
      ensures storage.getItemsByParentID(st, parentID).Err? ==>
        o == Outcome(st, pr, Some(Wrapped("getting tasks from storage", storage.getItemsByParentID(st, parentID).error)), [GetItemsByParentID(parentID)])
        && Is(o.err.value, storage.getItemsByParentID(st, parentID).error)
      ensures storage.getItemsByParentID(st, parentID).Ok? ==>
        var tasks := ToTasks(storage.getItemsByParentID(st, parentID).value);
        var shown := presenter.showTasksOfParentID(pr, parentID, tasks);
        && o.calls == [GetItemsByParentID(parentID), ShowTasksOfParentID(parentID, tasks)]
        && o.view == shown.0
        && (shown.1.None? ==> o.err == None)
        && (shown.1.Some? ==> o.err == Some(Wrapped("showing task of parent", shown.1.value)) && Is(o.err.value, shown.1.value))
    {
      var got := storage.getItemsByParentID(st, parentID);
      if got.Err? {
        return Outcome(st, pr, Some(Wrapped("getting tasks from storage", got.error)), [GetItemsByParentID(parentID)]);
      }
      var items := got.value;
      var tasks: seq<Task> := [];
      var i := 0;
      while i < |items|
        invariant 0 <= i <= |items|
        invariant |tasks| == i
        invariant forall k :: 0 <= k < i ==> tasks[k] == ItemToTask(items[k])
      {
        tasks := tasks + [ItemToTask(items[i])];
        i := i + 1;
      }
      assert tasks == ToTasks(items);
      var calls := [GetItemsByParentID(parentID), ShowTasksOfParentID(parentID, tasks)];
      var shown := presenter.showTasksOfParentID(pr, parentID, tasks);
      if shown.1.Some? {
        return Outcome(st, shown.0, Some(Wrapped("showing task of parent", shown.1.value)), calls);
      }
      return Outcome(st, shown.0, None, calls);
    }
  }
}
