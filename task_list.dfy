/** `component.TaskListComponent` (`cui/component/task_list.go`): a selectable list of
    tasks that reacts to keys and reports what the user asked for through an event
    handler. The events the handler has been sent are kept, in order, in `events`. */
module TaskLists {
  import opened Base
  import opened Model

  /** `TaskListEventType`. */
  newtype TaskListEventType = int
  const TaskListEventAfterUpdate: TaskListEventType := 0
  const EventChangeTaskState: TaskListEventType := 1
  const EventInsertTaskWithOrder: TaskListEventType := 2

  /** `TaskListEvent`: what the list asks its handler to do, with the order of a task to
      insert. */
  datatype TaskListEvent = TaskListEvent(Type: TaskListEventType, Order: U64)

  /** The rows shown when there is no task. */
  const EmptyRows: seq<string> := ["<Empty>"]

  /** `selectTaskAt(idx)` on a list of `n` rows whose selected row is `row`: only an
      existing row can be selected. */
  function SelectAt(idx: int, row: int, n: int): (r: int)
    ensures 0 <= idx < n ==> r == idx
    ensures !(0 <= idx < n) ==> r == row
  {
    if 0 <= idx < n then idx else row
  }

  /** The selected row after key `key`, when the key before it was `previous`. */
  function RowAfterKey(key: string, previous: string, row: int, n: int): int
  {
    if key == "j" || key == "<Down>" then SelectAt(row + 1, row, n)
    else if key == "k" || key == "<Up>" then SelectAt(row - 1, row, n)
    else if (key == "g" && previous == "g") || key == "<Home>" then SelectAt(0, row, n)
    else if key == "G" || key == "<End>" then SelectAt(n - 1, row, n)
    else row
  }

  /** The order an insertion asks for: right after the selected task for `o`, at its place
      for `O` (it then moves down), and 0 when nothing is selected. `+` is uint64. */
  function InsertOrder(key: string, selected: Option<Task>): U64
  {
    match selected
    case None => 0
    case Some(t) => Add(if key == "o" then 1 else 0, t.Order)
  }

  /** The events key `key` sends to the handler, given the selected task. */
  function EventsForKey(key: string, selected: Option<Task>): seq<TaskListEvent>
  {
    if key == "o" || key == "O" then [TaskListEvent(EventInsertTaskWithOrder, InsertOrder(key, selected))]
    else if key == "<Space>" then [TaskListEvent(EventChangeTaskState, 0)]
    else []
  }

  /** The last index of a record with the ID of the selected one: what `Update`'s loop,
      which overwrites `rowMatched` on every match, leaves there (0 when nothing matches). */
  function LastIndexOfID(tasks: seq<Task>, id: int): (r: nat)
    ensures r == 0 || r < |tasks|
    ensures r < |tasks| && r != 0 ==> tasks[r].ID == id
    ensures (exists k :: 0 <= k < |tasks| && tasks[k].ID == id) ==>
      r < |tasks| && tasks[r].ID == id && forall k :: r < k < |tasks| ==> tasks[k].ID != id
    ensures (forall k :: 0 <= k < |tasks| ==> tasks[k].ID != id) ==> r == 0
  {
    if tasks == [] then 0
    else if tasks[|tasks| - 1].ID == id then |tasks| - 1
    else LastIndexOfID(tasks[..|tasks| - 1], id)
  }

  /** The selected row `Update` computes: the selection looked up by ID in the (already
      replaced) task list. */
  function Rematch(tasks: seq<Task>, row: int): int
    requires row >= 0
  {
    if row < |tasks| then LastIndexOfID(tasks, tasks[row].ID) else 0
  }

  predicate DistinctIDs(tasks: seq<Task>)
  {
    forall i, j :: 0 <= i < j < |tasks| ==> tasks[i].ID != tasks[j].ID
  }

  /** With distinct IDs, `Update` keeps the selected row when a task is still there, and
      falls back to the first row otherwise. */
  lemma {:induction false} RematchKeepsRow(tasks: seq<Task>, row: int)
    requires row >= 0 && DistinctIDs(tasks)
    ensures Rematch(tasks, row) == if row < |tasks| then row else 0
  {
    if row < |tasks| {
      LastMatchIsOnlyMatch(tasks, row);
    }
  }

  lemma {:induction false} LastMatchIsOnlyMatch(tasks: seq<Task>, row: int)
    requires 0 <= row < |tasks| && DistinctIDs(tasks)
    ensures LastIndexOfID(tasks, tasks[row].ID) == row
    decreases |tasks|
  {
    var last := |tasks| - 1;
    if row < last {
      assert tasks[last].ID != tasks[row].ID;
      var init := tasks[..last];
      assert init[row] == tasks[row];
      LastMatchIsOnlyMatch(init, row);
    }
  }

  /** The rows `Update` builds, one per task, each formatted by `format` (which stands for
      `formatTaskRow` at the current width). */
  function RowsFor(tasks: seq<Task>, format: Task -> string): (r: seq<string>)
    ensures tasks == [] ==> r == EmptyRows
    ensures tasks != [] ==> |r| == |tasks| && forall i :: 0 <= i < |tasks| ==> r[i] == format(tasks[i])
  {
    if tasks == [] then EmptyRows else seq(|tasks|, i requires 0 <= i < |tasks| => format(tasks[i]))
  }

  /** The fields of a task list, as one value. */
  datatype ListState = ListState(
    SelectedRow: int,
    Rows: seq<string>,
    parentID: int,
    tasks: seq<Task>,
    previousKey: string,
    isActivated: bool,
    events: seq<TaskListEvent>)

  /** The task on the selected row of `s`, if that row holds one. */
  function SelectedTask(s: ListState): (r: Option<Task>)
    requires s.SelectedRow >= 0
    ensures r.Some? <==> s.SelectedRow < |s.tasks|
    ensures r.Some? ==> r.value == s.tasks[s.SelectedRow]
  {
    if s.SelectedRow < |s.tasks| then Some(s.tasks[s.SelectedRow]) else None
  }

  /** A task list after `HandleEvent(key)`: the selection moved, the events the key asks
      for sent, the key remembered; the tasks, the rows, the parent and the activation
      untouched. */
  function AfterKey(s: ListState, key: string): (r: ListState)
    requires s.SelectedRow >= 0
    ensures r.SelectedRow >= 0
    ensures r.tasks == s.tasks && r.Rows == s.Rows && r.parentID == s.parentID && r.isActivated == s.isActivated
    ensures r.previousKey == key
    ensures 0 <= s.SelectedRow < |s.Rows| ==> 0 <= r.SelectedRow < |s.Rows|
  {
    s.(SelectedRow := RowAfterKey(key, s.previousKey, s.SelectedRow, |s.Rows|),
       previousKey := key,
       events := s.events + EventsForKey(key, SelectedTask(s)))
  }

  /** A key sends at most one event, and a key that sends one leaves the selection where
      it was, so the handler sees the task the key was pressed on. */
  lemma SendingKeyKeepsSelection(s: ListState, key: string)
    requires s.SelectedRow >= 0
    ensures |EventsForKey(key, SelectedTask(s))| <= 1
    ensures EventsForKey(key, SelectedTask(s)) != [] ==>
      && AfterKey(s, key).SelectedRow == s.SelectedRow
      && SelectedTask(AfterKey(s, key)) == SelectedTask(s)
      && (EventsForKey(key, SelectedTask(s))[0].Type == EventChangeTaskState <==> key == "<Space>")
  {
  }

  class TaskList {
    var SelectedRow: int
    var Rows: seq<string>
    var parentID: int
    var tasks: seq<Task>
    var previousKey: string
    var isActivated: bool
    var events: seq<TaskListEvent>

    /** The selected row is never negative, and is a row of the list unless the list has
        not been drawn yet (then it is 0). */
    ghost predicate Valid()
      reads this
    {
      0 <= SelectedRow && (SelectedRow < |Rows| || SelectedRow == 0)
    }

    /** `NewListComponent`: not activated, under the root, nothing to show yet. */
    constructor ()
      ensures Valid()
      ensures State() == ListState(0, [], 0, [], "", false, [])
    {
      SelectedRow := 0;
      Rows := [];
      parentID := 0;
      tasks := [];
      previousKey := "";
      isActivated := false;
      events := [];
    }

    /** Every field, as one value. */
    function State(): ListState
      reads this
    {
      ListState(SelectedRow, Rows, parentID, tasks, previousKey, isActivated, events)
    }

    /** `GetSelectedTask`: the task on the selected row, if the row holds one. */
    function GetSelectedTask(): (r: Option<Task>)
      reads this
      requires SelectedRow >= 0
      ensures r.Some? <==> SelectedRow < |tasks|
      ensures r.Some? ==> r.value == tasks[SelectedRow]
    {
      SelectedTask(State())
    }

    /** `selectTaskAt`. */
    method SelectTaskAt(idx: int)
      modifies this
      ensures State() == old(State()).(SelectedRow := SelectAt(idx, old(SelectedRow), |Rows|))
    {
      if idx >= 0 && idx < |Rows| {
        SelectedRow := idx;
      }
    }

    /** The order `HandleEvent` computes for `o` or `O`. */
    method InsertionOrder(key: string) returns (order: U64)
      requires SelectedRow >= 0
      ensures order == InsertOrder(key, GetSelectedTask())
    {
      order := if key == "o" then 1 else 0;
      var t := GetSelectedTask();
      if t.Some? {
        order := Add(order, t.value.Order);
      } else {
        order := 0;
      }
    }

    /** `HandleEvent` for a key `key`: move the selection, or ask for an insertion or a
        state change; always remember the key, and never fail. */
    method HandleEvent(key: string) returns (err: Option<Error>)
      requires SelectedRow >= 0
      modifies this
      ensures err == None
      ensures State() == AfterKey(old(State()), key)
      ensures old(Valid()) ==> Valid()
    {
      ghost var before := State();
      if key == "j" || key == "<Down>" {
        SelectTaskAt(SelectedRow + 1);
      } else if key == "k" || key == "<Up>" {
        SelectTaskAt(SelectedRow - 1);
      } else if key == "g" || key == "<Home>" {
        if key == "<Home>" || previousKey == "g" {
          if key == "g" {
            previousKey := "";
          }
          SelectTaskAt(0);
        }
      } else if key == "G" || key == "<End>" {
        SelectTaskAt(|Rows| - 1);
      } else if key == "o" || key == "O" {
        var order := InsertionOrder(key);
        events := events + [TaskListEvent(EventInsertTaskWithOrder, order)];
      } else if key == "<Space>" {
        events := events + [TaskListEvent(EventChangeTaskState, 0)];
      }
      assert events == before.events + EventsForKey(key, SelectedTask(before));
      assert SelectedRow == RowAfterKey(key, before.previousKey, before.SelectedRow, |Rows|);
      previousKey := key;
      return None;
    }

    /** `SetActivate`. */
    method SetActivate(yes: bool)
      modifies this
      ensures State() == old(State()).(isActivated := yes)
    {
      isActivated := yes;
    }

    /** `IsActivated`. */
    function IsActivated(): bool
      reads this
    {
      isActivated
    }

    /** `ParentID`. */
    function ParentID(): int
      reads this
    {
      parentID
    }

    /** `SetParentID`. */
    method SetParentID(id: int)
      modifies this
      ensures State() == old(State()).(parentID := id)
    {
      parentID := id;
    }

    /** `UpdateTasks`: replaces the tasks; the rows and the selection wait for `Update`. */
    method UpdateTasks(ts: seq<Task>)
      modifies this
      ensures State() == old(State()).(tasks := ts)
    {
      tasks := ts;
    }

    /** `Update` (without drawing): one row per task, or the `<Empty>` row; the selection
        re-resolved against the current tasks; one `AfterUpdate` event. */
    method Update(format: Task -> string) returns (err: Option<Error>)
      requires SelectedRow >= 0
      modifies this
      ensures err == None
      ensures State() == old(State()).(SelectedRow := Rematch(tasks, old(SelectedRow)),
        Rows := RowsFor(tasks, format),
        events := old(events) + [TaskListEvent(TaskListEventAfterUpdate, 0)])
      ensures Valid()
    {
      var rowMatched := 0;
      var rows: seq<string> := [];
      var selected := GetSelectedTask();
      var i := 0;
      while i < |tasks|
        invariant 0 <= i <= |tasks|
        invariant |rows| == i && forall k :: 0 <= k < i ==> rows[k] == format(tasks[k])
        invariant rowMatched == if selected.Some? then LastIndexOfID(tasks[..i], selected.value.ID) else 0
      {
        assert tasks[..i + 1][..i] == tasks[..i];
        rows := rows + [format(tasks[i])];
        if selected.Some? && tasks[i].ID == selected.value.ID {
          rowMatched := i;
        }
        i := i + 1;
      }
      assert tasks[..i] == tasks;
      SelectedRow := rowMatched;
      if |rows| == 0 {
        rows := EmptyRows;
      }
      Rows := rows;
      events := events + [TaskListEvent(TaskListEventAfterUpdate, 0)];
      return None;
    }
  }

  /** `j`/`<Down>` and `k`/`<Up>` move the selection by one row and stop at either end. */
  lemma UpDownStopAtEnds(previous: string, row: int, n: int)
    requires 0 <= row < n
    ensures RowAfterKey("j", previous, row, n) == if row + 1 < n then row + 1 else row
    ensures RowAfterKey("<Down>", previous, row, n) == RowAfterKey("j", previous, row, n)
    ensures RowAfterKey("k", previous, row, n) == if row > 0 then row - 1 else row
    ensures RowAfterKey("<Up>", previous, row, n) == RowAfterKey("k", previous, row, n)
    ensures 0 <= RowAfterKey("j", previous, row, n) < n && 0 <= RowAfterKey("k", previous, row, n) < n
  {
  }

  /** Every key leaves the selection where it was or on an existing row. */
  lemma KeysSelectExistingRows(key: string, previous: string, row: int, n: int)
    ensures var r := RowAfterKey(key, previous, row, n); r == row || 0 <= r < n
  {
  }

  /** `g` jumps to the first row only as the second `g` in a row; `<Home>` always does;
      `G`/`<End>` go to the last row. */
  lemma JumpKeys(previous: string, row: int, n: int)
    requires n > 0
    ensures RowAfterKey("g", previous, row, n) == if previous == "g" then 0 else row
    ensures RowAfterKey("<Home>", previous, row, n) == 0
    ensures RowAfterKey("G", previous, row, n) == n - 1 && RowAfterKey("<End>", previous, row, n) == n - 1
  {
  }

  /** `o` and `O` send exactly one insertion, right after or at the selected task's order
      (0 without a selection); `<Space>` sends exactly one state change; navigation keys
      send nothing. */
  lemma InsertKeys(selected: Option<Task>)
    ensures EventsForKey("o", selected) == [TaskListEvent(EventInsertTaskWithOrder,
      if selected.Some? then Add(1, selected.value.Order) else 0)]
    ensures EventsForKey("O", selected) == [TaskListEvent(EventInsertTaskWithOrder,
      if selected.Some? then selected.value.Order else 0)]
    ensures EventsForKey("<Space>", selected) == [TaskListEvent(EventChangeTaskState, 0)]
    ensures forall k :: k in {"j", "k", "<Down>", "<Up>", "g", "G", "<Home>", "<End>"} ==> EventsForKey(k, selected) == []
  {
  }
}
