/** `cui.Presenter` (`cui/presenter.go`): the output port of the task use cases, drawing
    into the components of the user interface. */
module Presenters {
  import opened Base
  import opened Model
  import opened TaskLists
  import opened Texts
  import opened CUIs

  /** Which list a listing of children goes to. */
  datatype Route = ToCategories | ToTasks | Nowhere

  /** The category list takes the children of its parent first; the task list takes
      them otherwise; a listing for any other parent is dropped. */
  function RouteOf(parentID: int, catParent: int, taskParent: int): (r: Route)
    ensures r == ToCategories <==> parentID == catParent
    ensures r == ToTasks <==> parentID != catParent && parentID == taskParent
    ensures r == Nowhere <==> parentID != catParent && parentID != taskParent
  {
    if parentID == catParent then ToCategories
    else if parentID == taskParent then ToTasks
    else Nowhere
  }

  class Presenter {
    const ui: CUI

    constructor (ui: CUI)
      ensures this.ui == ui
    {
      this.ui := ui;
    }

    /** `ShowTasksOfParentID`: hand the tasks to the list their parent belongs to; only
        that list's tasks change, and it never fails. */
    method ShowTasksOfParentID(parentID: int, tasks: seq<Task>) returns (err: Option<Error>)
      requires ui.Valid()
      modifies ui.catList, ui.taskList
      ensures ui.Valid() && err == None
      ensures var r := RouteOf(parentID, old(ui.catList.parentID), old(ui.taskList.parentID));
        && ui.catList.State() == (if r == ToCategories then old(ui.catList.State()).(tasks := tasks) else old(ui.catList.State()))
        && ui.taskList.State() == (if r == ToTasks then old(ui.taskList.State()).(tasks := tasks) else old(ui.taskList.State()))
    {
      if parentID == ui.catList.ParentID() {
        ui.catList.UpdateTasks(tasks);
      } else if parentID == ui.taskList.ParentID() {
        ui.taskList.UpdateTasks(tasks);
      }
      return None;
    }

    /** `ShowTaskAdded`: report the title of the new task in the state bar. */
    method ShowTaskAdded(task: Task) returns (err: Option<Error>)
      modifies ui.stateBar
      ensures err == None
      ensures ui.stateBar.message == InfoText("Task Added: " + task.Title)
    {
      ui.stateBar.Info("Task Added: " + task.Title);
      return None;
    }
  }

  /** While both lists show the same parent (as they do after `New`), its children go to
      the category list only. */
  lemma SharedParentGoesToCategories(parentID: int)
    ensures RouteOf(parentID, parentID, parentID) == ToCategories
  {
  }
}
