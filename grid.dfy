/** `component.GridComponent` (`cui/component/grid.go`): the layout that switches which
    component receives the keys. `<C-w>` starts a selection; the next key either picks the
    component mapped to it or is dropped; every other key goes to the activated component. */
module Grids {
  import opened Base
  import opened TaskLists
  import opened Dummies

  /** An `InteractiveComponent` the grid can hold: a task list or the dummy component. */
  datatype Interactive = List(list: TaskList) | Dummy(dummy: DummyComponent)

  /** `DefaultActivated`: the key whose component starts activated. */
  const DefaultActivated: string := "DEFAULT_ACTIVATED"

  /** The task lists a key map refers to. */
  function ListsOf(m: map<string, Interactive>): set<TaskList>
  {
    set c | c in m.Values && c.List? :: c.list
  }

  /** The component `NewGridComponent` starts with as its target. */
  function DefaultTarget(m: map<string, Interactive>): (r: Interactive)
    ensures DefaultActivated in m ==> r == m[DefaultActivated]
    ensures DefaultActivated !in m ==> r == Dummy(DummyComponent)
  {
    if DefaultActivated in m then m[DefaultActivated] else Dummy(DummyComponent)
  }

  /** `SetActivate` on a component: a task list stores the flag, the dummy ignores it. */
  method SetActivateOf(c: Interactive, yes: bool)
    modifies if c.List? then {c.list} else {}
    ensures c.List? ==> c.list.State() == old(c.list.State()).(isActivated := yes)
  {
    if c.List? {
      c.list.SetActivate(yes);
    }
  }

  class Grid {
    const componentKeyMap: map<string, Interactive>
    var selectingComponent: bool
    var activatedComponent: Interactive

    function Lists(): set<TaskList>
    {
      ListsOf(componentKeyMap)
    }

    /** The target is the dummy component or one of the mapped lists; exactly the target
        among the mapped lists is activated; no selection cursor is negative. */
    ghost predicate Valid()
      reads this, Lists()
    {
      && (activatedComponent.List? ==> activatedComponent.list in Lists())
      && (forall l | l in Lists() :: l.SelectedRow >= 0)
      && (forall l | l in Lists() :: l.isActivated <==> activatedComponent == List(l))
    }

    /** `NewGridComponent`: the component under `DefaultActivated` is activated and becomes
        the target; without one the target is the dummy component. Nothing is being
        selected. Go's `NewGridComponent` asks nothing of its lists; the precondition
        that they start deactivated with a non-negative cursor is what makes `Valid`
        hold afterwards, and the one caller (`New` in cui.go) passes fresh lists, which
        meet it. */
    constructor (keyMap: map<string, Interactive>)
      requires forall l | l in ListsOf(keyMap) :: !l.isActivated && l.SelectedRow >= 0
      modifies ListsOf(keyMap)
      ensures componentKeyMap == keyMap && !selectingComponent
      ensures activatedComponent == DefaultTarget(keyMap)
      ensures forall l | l in Lists() :: l.State() == old(l.State()).(isActivated := activatedComponent == List(l))
      ensures Valid()
    {
      componentKeyMap := keyMap;
      selectingComponent := false;
      activatedComponent := DefaultTarget(keyMap);
      new;
      SetActivateOf(activatedComponent, true);
    }

    /** The target is the one activated component. */
    lemma OnlyTargetActivated()
      requires Valid()
      ensures forall l, m | l in Lists() && m in Lists() && l.isActivated && m.isActivated :: l == m
      ensures activatedComponent.List? ==> activatedComponent.list.isActivated
    {
    }

    /** `HandleEvent`: `<C-w>` starts a selection; while selecting, a mapped key moves the
        activation to its component and any key ends the selection; otherwise the key is
        handed, once, to the target. */
    method HandleEvent(key: string) returns (err: Option<Error>)
      requires Valid()
      modifies this, Lists()
      ensures Valid() && err == None
      ensures selectingComponent == (key == "<C-w>")
      ensures key == "<C-w>" || (old(selectingComponent) && key !in componentKeyMap) ==>
        && activatedComponent == old(activatedComponent)
        && forall l | l in Lists() :: l.State() == old(l.State())
      ensures key != "<C-w>" && old(selectingComponent) && key in componentKeyMap ==>
        && activatedComponent == componentKeyMap[key]
        && forall l | l in Lists() :: l.State() == old(l.State()).(isActivated := activatedComponent == List(l))
      ensures key != "<C-w>" && !old(selectingComponent) ==>
        && activatedComponent == old(activatedComponent)
        && forall l | l in Lists() :: l.State() == if activatedComponent == List(l) then AfterKey(old(l.State()), key) else old(l.State())
    {
      err := None;
      if key == "<C-w>" {
        selectingComponent := true;
      } else if selectingComponent {
        selectingComponent := false;
        if key in componentKeyMap {
          var c := componentKeyMap[key];
          SetActivateOf(activatedComponent, false);
          activatedComponent := c;
          SetActivateOf(c, true);
        }
      } else if activatedComponent.List? {
        // the dummy component ignores the key and never fails
        err := activatedComponent.list.HandleEvent(key);
      }
    }
  }
}
