/** The translation between item types and task types (`use/task_type.go`). */
module TaskTypes {
  import opened Base
  import opened Entity
  import opened Model

  /** `itemTypeToTaskTypeMap`: projects have no task type. */
  const ItemToTaskType: map<ItemType, TaskType> :=
    map[ItemTypeCategory := TaskTypeCategory, ItemTypeTask := TaskTypeTask]

  /** `taskTypeToItemTypeMap`, filled by inverting the table above at start-up. */
  const TaskToItemType: map<TaskType, ItemType> := Invert(ItemToTaskType)

  /** `itemTypeToTaskType`: a Go map lookup, so an absent key gives the zero `TaskType`. */
  function ItemTypeToTaskType(it: ItemType): (r: TaskType)
    ensures it == ItemTypeCategory ==> r == TaskTypeCategory
    ensures it == ItemTypeTask ==> r == TaskTypeTask
    ensures it != ItemTypeCategory && it != ItemTypeTask ==> r == 0
  {
    if it in ItemToTaskType then ItemToTaskType[it] else 0
  }

  /** `taskTypeToItemType`. */
  function TaskTypeToItemType(tt: TaskType): (r: ItemType)
    ensures tt == TaskTypeCategory ==> r == ItemTypeCategory
    ensures tt == TaskTypeTask ==> r == ItemTypeTask
    ensures tt != TaskTypeCategory && tt != TaskTypeTask ==> r == 0
  {
    assert ItemToTaskType[ItemTypeCategory] in TaskToItemType;
    assert ItemToTaskType[ItemTypeTask] in TaskToItemType;
    if tt in TaskToItemType then TaskToItemType[tt] else 0
  }

  /** Both tables hold two entries, and each undoes the other. */
  lemma TablesAreInverse()
    ensures |ItemToTaskType| == |TaskToItemType| == 2
    ensures forall it :: it in ItemToTaskType ==> ItemToTaskType[it] in TaskToItemType && TaskToItemType[ItemToTaskType[it]] == it
    ensures forall tt :: tt in TaskToItemType ==> TaskToItemType[tt] in ItemToTaskType && ItemToTaskType[TaskToItemType[tt]] == tt
  {
    assert ItemToTaskType[ItemTypeCategory] in TaskToItemType;
    assert ItemToTaskType[ItemTypeTask] in TaskToItemType;
    assert TaskToItemType.Keys == {TaskTypeCategory, TaskTypeTask};
  }

  /** Translating a category or task there and back changes nothing, in both directions. */
  lemma TypeRoundTrips(it: ItemType, tt: TaskType)
    ensures it == ItemTypeCategory || it == ItemTypeTask ==> TaskTypeToItemType(ItemTypeToTaskType(it)) == it
    ensures tt == TaskTypeCategory || tt == TaskTypeTask ==> ItemTypeToTaskType(TaskTypeToItemType(tt)) == tt
  {
  }

  /** A project is not in the table, so it shows up as a category. */
  lemma ProjectShowsAsCategory()
    ensures ItemTypeToTaskType(ItemTypeProject) == TaskTypeCategory
  {
  }
}
