/** `cui.CUI` (`cui/cui.go`): the components of the console user interface, shared by the
    presenter and the controller. The layout is not modelled. */
module CUIs {
  import opened Base
  import opened TaskLists
  import opened Grids
  import opened Texts

  /** The key map `New` gives the grid: the category list starts activated and is picked
      with `h`/`<Left>`, the task list with `l`/`<Right>`. */
  function KeyMap(catList: TaskList, taskList: TaskList): map<string, Interactive>
  {
    map[DefaultActivated := List(catList), "h" := List(catList), "<Left>" := List(catList),
        "l" := List(taskList), "<Right>" := List(taskList)]
  }

  /** The key map refers to the two lists and nothing else. */
  lemma KeyMapLists(catList: TaskList, taskList: TaskList)
    ensures ListsOf(KeyMap(catList, taskList)) == {catList, taskList}
  {
    var m := KeyMap(catList, taskList);
    assert m[DefaultActivated] in m.Values && m["l"] in m.Values;
    forall c | c in m.Values ensures c == List(catList) || c == List(taskList) {
      var k :| k in m && m[k] == c;
    }
  }

  class CUI {
    const grid: Grid
    const taskList: TaskList
    const catList: TaskList
    const stateBar: Text
    const descBox: Text
    /** The components redrawn, in this order, on every refresh. */
    const components: seq<Interactive>

    /** Two distinct lists, both mapped in the grid and nothing else, and two distinct
        text boxes. */
    ghost predicate Valid()
      reads this, grid, grid.Lists()
    {
      && catList != taskList
      && stateBar != descBox
      && grid.componentKeyMap == KeyMap(catList, taskList)
      && grid.Lists() == {catList, taskList}
      && grid.Valid()
      && components == [List(taskList), List(catList)]
    }

    /** `New`: the category list is activated and receives the keys, the task list is not;
        both lists are empty and show the children of the root. */
    constructor ()
      ensures Valid()
      ensures fresh(grid) && fresh(catList) && fresh(taskList) && fresh(stateBar) && fresh(descBox)
      ensures catList.State() == ListState(0, [], 0, [], "", true, [])
      ensures taskList.State() == ListState(0, [], 0, [], "", false, [])
      ensures grid.activatedComponent == List(catList) && !grid.selectingComponent
      ensures stateBar.message == NoText && descBox.message == NoText
    {
      var cat := new TaskList();
      var task := new TaskList();
      KeyMapLists(cat, task);
      catList := cat;
      taskList := task;
      stateBar := new Text();
      descBox := new Text();
      var m := KeyMap(cat, task);
      assert DefaultTarget(m) == List(cat);
      var g := new Grid(m);
      assert cat in g.Lists() && task in g.Lists();
      grid := g;
      components := [List(task), List(cat)];
    }
  }
}
