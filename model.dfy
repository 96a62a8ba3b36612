/** The data the use-case layer exchanges with the user interface. */
module Model {
  import opened Base
  import opened Entity

  /** `model.TaskType`, a Go `int`. */
  newtype TaskType = int

  const TaskTypeCategory: TaskType := 0
  const TaskTypeTask: TaskType := 1

  /** `model.TaskState`, a Go `int`. */
  newtype TaskState = int

  const TaskStateNormal: TaskState := 0
  const TaskStateCompleted: TaskState := 1

  /** `model.Task`: the view of an item handed to the presenter. */
  datatype Task = Task(
    ID: int,
    Title: string,
    Type: TaskType,
    State: TaskState,
    Due: Time,
    Description: string,
    Order: U64)

  /** `model.FormAddTask`: what the user typed to add a task, plus where it goes. */
  datatype FormAddTask = FormAddTask(
    Title: string,
    Due: Time,
    Description: string,
    Type: TaskType,
    ParentID: int,
    Order: U64)

  const ZeroForm: FormAddTask := FormAddTask("", ZeroTime, "", 0, 0, 0)
}
