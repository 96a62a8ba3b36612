/** The translation between task states and item states (`use/state.go`). */
module States {
  import opened Base
  import opened Entity
  import opened Model

  /** `taskStateToItemStateMap`. */
  const TaskToItemState: map<TaskState, ItemState> :=
    map[TaskStateNormal := ItemStateNormal, TaskStateCompleted := ItemStateCompleted]

  /** `itemStateToTaskStateMap`, filled by inverting the table above at start-up. */
  const ItemToTaskState: map<ItemState, TaskState> := Invert(TaskToItemState)

  /** `taskStateToItemState`: a Go map lookup, so an absent key gives the zero (normal) state. */
  function TaskStateToItemState(s: TaskState): (r: ItemState)
    ensures s == TaskStateNormal ==> r == ItemStateNormal
    ensures s == TaskStateCompleted ==> r == ItemStateCompleted
    ensures s != TaskStateNormal && s != TaskStateCompleted ==> r == ItemStateNormal
  {
    if s in TaskToItemState then TaskToItemState[s] else 0
  }

  /** `itemStateToTaskState`. */
  function ItemStateToTaskState(s: ItemState): (r: TaskState)
    ensures s == ItemStateNormal ==> r == TaskStateNormal
    ensures s == ItemStateCompleted ==> r == TaskStateCompleted
    ensures s != ItemStateNormal && s != ItemStateCompleted ==> r == TaskStateNormal
  {
    assert TaskToItemState[TaskStateNormal] in ItemToTaskState;
    assert TaskToItemState[TaskStateCompleted] in ItemToTaskState;
    if s in ItemToTaskState then ItemToTaskState[s] else 0
  }

  /** Both tables hold two entries, and each undoes the other. */
  lemma TablesAreInverse()
    ensures |TaskToItemState| == |ItemToTaskState| == 2
    ensures forall s :: s in TaskToItemState ==> TaskToItemState[s] in ItemToTaskState && ItemToTaskState[TaskToItemState[s]] == s
    ensures forall s :: s in ItemToTaskState ==> ItemToTaskState[s] in TaskToItemState && TaskToItemState[ItemToTaskState[s]] == s
  {
    assert TaskToItemState[TaskStateNormal] in ItemToTaskState;
    assert TaskToItemState[TaskStateCompleted] in ItemToTaskState;
    assert ItemToTaskState.Keys == {ItemStateNormal, ItemStateCompleted};
  }

  /** Translating either state there and back changes nothing, in both directions. */
  lemma StateRoundTrips(ts: TaskState, st: ItemState)
    ensures ts == TaskStateNormal || ts == TaskStateCompleted ==> ItemStateToTaskState(TaskStateToItemState(ts)) == ts
    ensures st == ItemStateNormal || st == ItemStateCompleted ==> TaskStateToItemState(ItemStateToTaskState(st)) == st
  {
  }
}
