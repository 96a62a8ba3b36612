/** `cui.Controller` (`cui/controller.go`): turns keys and list events into use-case calls.
    The use cases are seen through their interface only: every call is appended to
    `useCalls`, and what the outside world answers during one key (the text the editor
    returns, the error the use case returns, the clock) is a parameter. */
module Controllers {
  import opened Base
  import opened Strs
  import opened Entity
  import opened Model
  import opened Due
  import opened Interactor
  import opened TaskLists
  import opened Grids
  import opened Texts
  import opened CUIs

  /** The two states `toggleCompletedState` knows; it panics on any other. */
  predicate KnownState(s: TaskState)
  {
    s == TaskStateNormal || s == TaskStateCompleted
  }

  /** `toggleCompletedState`: a normal task becomes completed and a completed one normal. */
  function ToggleCompletedState(s: TaskState): (r: TaskState)
    requires KnownState(s)
    ensures KnownState(r) && r != s
  {
    if s == TaskStateNormal then TaskStateCompleted else TaskStateNormal
  }

  /** Toggling twice gives the state back. */
  lemma ToggleIsSelfInverse(s: TaskState)
    requires KnownState(s)
    ensures ToggleCompletedState(ToggleCompletedState(s)) == s
  {
  }

  /** `parseDue`: `""`/`"today"` (trimmed) is now, `"tom"`/`"tomorrow"` is a day later,
      anything else is `ErrInvalidDue`. */
  function ParseDue(s: string, now: Time): (r: Result<Time>)
    ensures r == Ok(now) <==> TrimSpace(s) in {"", "today"}
    ensures r == Ok(now + Day) <==> TrimSpace(s) in {"tom", "tomorrow"}
    ensures r == Err(InvalidDue) <==> TrimSpace(s) !in {"", "today", "tom", "tomorrow"}
  {
    match Offset(s)
    case None => Err(InvalidDue)
    case Some(d) => Ok(now + d)
  }

  /** The variables of `createFormAddTaskFromString`'s loop. */
  datatype Scan = Scan(title: string, desc: string, due: Time, skipDue: bool)

  const ScanStart: Scan := Scan("", "", ZeroTime, false)

  /** One turn of the loop: the first non-blank line is the title; the next non-blank line
      is the due date if it parses, and turns the due slot off otherwise; every other line
      is added to the description with its newline. A due date equal to the zero time
      leaves the slot open (`due.IsZero()`). */
  function ScanLine(st: Scan, line: string, now: Time): Scan
  {
    if st.title == "" && !IsBlank(line) then st.(title := TrimSpace(line))
    else if !st.skipDue && st.due == ZeroTime && !IsBlank(line) then
      match ParseDue(line, now)
      case Err(_) => st.(skipDue := true, desc := st.desc + line + "\n")
      case Ok(d) => st.(due := d)
    else st.(desc := st.desc + line + "\n")
  }

  /** The loop over the remaining lines. */
  function ScanAll(st: Scan, lines: seq<string>, now: Time): Scan
    decreases |lines|
  {
    if lines == [] then st else ScanAll(ScanLine(st, lines[0], now), lines[1..], now)
  }

  /** The form the loop builds from the lines; type, parent and order are left zero. */
  function FormOfLines(lines: seq<string>, now: Time): FormAddTask
  {
    var r := ScanAll(ScanStart, lines, now);
    ZeroForm.(Title := r.title, Due := r.due, Description := r.desc)
  }

  /** `createFormAddTaskFromString`: empty text is `errEmptyInput`; any other text gives
      a form built from its lines, with no parent, no order and the zero task type. */
  function FormFromString(s: string, now: Time): (r: Result<FormAddTask>)
    ensures r.Err? <==> s == ""
    ensures r.Err? ==> r.error == EmptyInput
    ensures r.Ok? ==> r.value.Type == 0 && r.value.ParentID == 0 && r.value.Order == 0
  {
    if s == "" then Err(EmptyInput) else Ok(FormOfLines(ScanLines(s), now))
  }

  /** `createFormAddTaskFromString`, the scanner loop. */
  method CreateFormAddTaskFromString(s: string, now: Time) returns (r: Result<FormAddTask>)
    ensures r == FormFromString(s, now)
  {
    if s == "" {
      return Err(EmptyInput);
    }
    var lines := ScanLines(s);
    var title, desc := "", "";
    var due := ZeroTime;
    var skipDue := false;
    var i := 0;
    while i < |lines|
      invariant 0 <= i <= |lines|
      invariant ScanAll(Scan(title, desc, due, skipDue), lines[i..], now) == ScanAll(ScanStart, lines, now)
    {
      var line := lines[i];
      assert lines[i..][1..] == lines[i + 1..];
      var trimmedLine := TrimSpace(line);
      var isLineEmpty := line == "" || trimmedLine == "";
      if title == "" && !isLineEmpty {
        title := trimmedLine;
      } else if !skipDue && due == ZeroTime && !isLineEmpty {
        var parsedDue := ParseDue(line, now);
        if parsedDue.Err? {
          skipDue := true;
          desc := desc + line + "\n";
        } else {
          due := parsedDue.value;
        }
      } else {
        desc := desc + line + "\n";
      }
      i := i + 1;
    }
    return Ok(ZeroForm.(Title := title, Due := due, Description := desc));
  }

  /** The trimmed first non-blank line, or `""` when every line is blank. */
  function FirstTitle(lines: seq<string>): (r: string)
    ensures r == "" || (!IsBlank(r) && TrimSpace(r) == r)
  {
    if lines == [] then ""
    else if !IsBlank(lines[0]) then (TrimSpaceIdempotent(lines[0]); TrimSpace(lines[0]))
    else FirstTitle(lines[1..])
  }

  /** The lines, each followed by a newline. */
  function LinesText(lines: seq<string>): string
  {
    if lines == [] then "" else lines[0] + "\n" + LinesText(lines[1..])
  }

  /** The title, once found, never changes; before that it is the first non-blank line. */
  lemma {:induction false} ScanTitle(st: Scan, lines: seq<string>, now: Time)
    ensures ScanAll(st, lines, now).title == if st.title != "" then st.title else FirstTitle(lines)
    decreases |lines|
  {
    if lines != [] {
      ScanTitle(ScanLine(st, lines[0], now), lines[1..], now);
    }
  }

  /** The form's title is the trimmed first non-blank line of the text. */
  lemma FormTitle(s: string, now: Time)
    requires s != ""
    ensures FormFromString(s, now).value.Title == FirstTitle(ScanLines(s))
  {
    ScanTitle(ScanStart, ScanLines(s), now);
  }

  /** Once the title is known and the due slot is closed, every further line goes to the
      description verbatim, with its newline. */
  lemma {:induction false} RestIsDescription(st: Scan, lines: seq<string>, now: Time)
    requires st.title != "" && (st.skipDue || st.due != ZeroTime)
    ensures ScanAll(st, lines, now) == st.(desc := st.desc + LinesText(lines))
    decreases |lines|
  {
    if lines != [] {
      var next := st.(desc := st.desc + lines[0] + "\n");
      assert ScanLine(st, lines[0], now) == next;
      RestIsDescription(next, lines[1..], now);
      assert next.desc + LinesText(lines[1..]) == st.desc + LinesText(lines);
    }
  }

  /** A title line followed by a due phrase: the title is trimmed, the due date is the
      phrase's, and all later lines make the description. */
  lemma TitleThenDue(title: string, due: string, rest: seq<string>, now: Time)
    requires !IsBlank(title) && !IsBlank(due)
    requires ParseDue(due, now).Ok? && ParseDue(due, now).value != ZeroTime
    ensures FormOfLines([title, due] + rest, now) ==
      ZeroForm.(Title := TrimSpace(title), Due := ParseDue(due, now).value, Description := LinesText(rest))
  {
    var lines := [title, due] + rest;
    var st1 := ScanStart.(title := TrimSpace(title));
    var st2 := st1.(due := ParseDue(due, now).value);
    assert ScanLine(ScanStart, title, now) == st1;
    assert ScanLine(st1, due, now) == st2;
    assert lines[0] == title && lines[1..][0] == due && lines[1..][1..] == rest;
    assert ScanAll(ScanStart, lines, now) == ScanAll(st1, lines[1..], now);
    assert ScanAll(st1, lines[1..], now) == ScanAll(st2, rest, now);
    RestIsDescription(st2, rest, now);
    assert st2.desc + LinesText(rest) == LinesText(rest);
  }

  /** A title line followed by a line that is not a due phrase: no due date, and that line
      and all later ones make the description. */
  lemma TitleThenText(title: string, text: string, rest: seq<string>, now: Time)
    requires !IsBlank(title) && !IsBlank(text) && ParseDue(text, now).Err?
    ensures FormOfLines([title, text] + rest, now) ==
      ZeroForm.(Title := TrimSpace(title), Description := text + "\n" + LinesText(rest))
  {
    var lines := [title, text] + rest;
    var st1 := ScanStart.(title := TrimSpace(title));
    var st2 := st1.(skipDue := true, desc := text + "\n");
    assert ScanLine(ScanStart, title, now) == st1;
    assert ScanLine(st1, text, now) == st2;
    assert lines[0] == title && lines[1..][0] == text && lines[1..][1..] == rest;
    assert ScanAll(ScanStart, lines, now) == ScanAll(st1, lines[1..], now);
    assert ScanAll(st1, lines[1..], now) == ScanAll(st2, rest, now);
    RestIsDescription(st2, rest, now);
  }

  /** A blank line never fills the title or the due slot: it goes to the description. */
  lemma BlankLineIsDescription(st: Scan, line: string, now: Time)
    requires IsBlank(line)
    ensures ScanLine(st, line, now) == st.(desc := st.desc + line + "\n")
  {
  }

  /** A call the controller makes on the task use cases. */
  datatype UseCall = AddTask(form: FormAddTask) | ChangeTaskStateByID(id: int, state: TaskState)

  /** What the outside world answers while one key is handled: the editor's text or
      failure, the use case's error, and the clock. */
  datatype Answers = Answers(editor: Result<string>, useCase: Option<Error>, now: Time)

  /** What handling one list event does: the use-case calls made, and the warning shown. */
  datatype Effect = Effect(calls: seq<UseCall>, warning: Option<Error>)

  const NoEffect: Effect := Effect([], None)

  /** `insertTaskWithOrder`: an editor failure is shown; text that does not make a form
      is dropped silently; otherwise the form, typed by the list it came from and placed
      under the list's parent at `order`, is added, and an error is shown wrapped. */
  function InsertEffect(a: Answers, isCat: bool, parentID: int, order: U64): Effect
  {
    match a.editor
    case Err(e) => Effect([], Some(e))
    case Ok(buf) =>
      match FormFromString(buf, a.now)
      case Err(_) => NoEffect
      case Ok(f) =>
        var form := f.(Type := if isCat then TaskTypeCategory else TaskTypeTask, ParentID := parentID, Order := order);
        Effect([AddTask(form)], if a.useCase.Some? then Some(Wrapped("adding task", a.useCase.value)) else None)
  }

  /** `changeTaskState`: with a selected task, its state is flipped through the use case
      and an error is shown wrapped; without one nothing happens. */
  function ChangeEffect(selected: Option<Task>, a: Answers): Effect
    requires selected.Some? ==> KnownState(selected.value.State)
  {
    match selected
    case None => NoEffect
    case Some(t) =>
      Effect([ChangeTaskStateByID(t.ID, ToggleCompletedState(t.State))],
        if a.useCase.Some? then Some(Wrapped("changing task state", a.useCase.value)) else None)
  }

  /** A list event the controller can handle without panicking. */
  predicate CanHandle(e: TaskListEvent, s: ListState)
    requires s.SelectedRow >= 0
  {
    e.Type == EventChangeTaskState && SelectedTask(s).Some? ==> KnownState(SelectedTask(s).value.State)
  }

  /** `handleGenericTaskListEvent`, for the calls and the warning: an insertion or a state
      change; `AfterUpdate` (and any other event) calls nothing. */
  function EventEffect(e: TaskListEvent, s: ListState, isCat: bool, a: Answers): Effect
    requires s.SelectedRow >= 0 && CanHandle(e, s)
  {
    if e.Type == EventInsertTaskWithOrder then InsertEffect(a, isCat, s.parentID, e.Order)
    else if e.Type == EventChangeTaskState then ChangeEffect(SelectedTask(s), a)
    else NoEffect
  }

  /** `setDescriptionByCurrentSelectedRow` after `AfterUpdate`: the selected task's
      description is shown, but only from the activated list. */
  function DescriptionShown(e: TaskListEvent, s: ListState): Option<string>
    requires s.SelectedRow >= 0
  {
    if e.Type == TaskListEventAfterUpdate && s.isActivated && SelectedTask(s).Some? then Some(SelectedTask(s).value.Description)
    else None
  }

  /** The text box after an optional warning. */
  function AfterWarning(m: Message, w: Option<Error>): Message
  {
    if w.Some? then Warning(w.value) else m
  }

  /** An insertion calls `AddTask` at most once, exactly when the editor returns some text,
      with a form titled by the text's first non-blank line, typed by the list, under the
      list's parent, at the requested order. */
  lemma InsertBuildsForm(a: Answers, isCat: bool, parentID: int, order: U64)
    ensures var eff := InsertEffect(a, isCat, parentID, order);
      && |eff.calls| <= 1
      && (eff.calls != [] <==> a.editor.Ok? && a.editor.value != "")
      && (a.editor.Err? ==> eff.warning == Some(a.editor.error))
      && (eff.calls != [] ==>
        var f := eff.calls[0].form;
        && eff.calls[0].AddTask?
        && f.Title == FirstTitle(ScanLines(a.editor.value))
        && f.Type == (if isCat then TaskTypeCategory else TaskTypeTask)
        && f.ParentID == parentID && f.Order == order
        && (a.useCase.Some? <==> eff.warning.Some?)
        && (a.useCase.Some? ==> Is(eff.warning.value, a.useCase.value)))
  {
    if a.editor.Ok? && a.editor.value != "" {
      FormTitle(a.editor.value, a.now);
    }
  }

  /** A state change calls the use case at most once, on the selected task, with its
      other state; an error keeps its identity through the wrapping. */
  lemma ChangeFlipsSelected(selected: Option<Task>, a: Answers)
    requires selected.Some? ==> KnownState(selected.value.State)
    ensures var eff := ChangeEffect(selected, a);
      && (eff.calls != [] <==> selected.Some?)
      && (selected.Some? ==>
        && eff.calls == [ChangeTaskStateByID(selected.value.ID, eff.calls[0].state)]
        && eff.calls[0].state != selected.value.State
        && ToggleCompletedState(eff.calls[0].state) == selected.value.State
        && (eff.warning.Some? <==> a.useCase.Some?)
        && (a.useCase.Some? ==> Is(eff.warning.value, a.useCase.value)))
  {
  }

  /** What a key does through the event its target list sends (if any), judged on the
      list as it was when the key arrived. */
  function KeyEffect(key: string, s: ListState, isCat: bool, a: Answers): Effect
    requires s.SelectedRow >= 0
    requires key == "<Space>" ==> CanHandle(TaskListEvent(EventChangeTaskState, 0), s)
  {
    var es := EventsForKey(key, SelectedTask(s));
    if es == [] then NoEffect else EventEffect(es[0], s, isCat, a)
  }

  /** Only `o`, `O` and `<Space>` reach the use cases: `o`/`O` add a task right after or
      at the selected one, `<Space>` flips the selected task's state. */
  lemma KeysThatCallUseCases(key: string, s: ListState, isCat: bool, a: Answers)
    requires s.SelectedRow >= 0
    requires key == "<Space>" ==> CanHandle(TaskListEvent(EventChangeTaskState, 0), s)
    ensures KeyEffect(key, s, isCat, a).calls != [] ==> key in {"o", "O", "<Space>"}
    ensures key in {"o", "O"} ==> KeyEffect(key, s, isCat, a) == InsertEffect(a, isCat, s.parentID, InsertOrder(key, SelectedTask(s)))
    ensures key == "<Space>" ==> KeyEffect(key, s, isCat, a) == ChangeEffect(SelectedTask(s), a)
  {
  }

  class Controller {
    const ui: CUI
    var useCalls: seq<UseCall>

    constructor (ui: CUI)
      ensures this.ui == ui && useCalls == []
    {
      this.ui := ui;
      useCalls := [];
    }

    /** `changeTaskState`. */
    method ChangeTaskState(l: TaskList, a: Answers)
      requires ui.Valid() && (l == ui.catList || l == ui.taskList)
      requires CanHandle(TaskListEvent(EventChangeTaskState, 0), l.State())
      modifies this, ui.stateBar
      ensures var eff := ChangeEffect(l.GetSelectedTask(), a);
        useCalls == old(useCalls) + eff.calls && ui.stateBar.message == AfterWarning(old(ui.stateBar.message), eff.warning)
    {
      var t := l.GetSelectedTask();
      if t.Some? {
        var state := ToggleCompletedState(t.value.State);
        useCalls := useCalls + [ChangeTaskStateByID(t.value.ID, state)];
        if a.useCase.Some? {
          ui.stateBar.Warn(Wrapped("changing task state", a.useCase.value));
        }
      }
    }

    /** `setDescriptionByCurrentSelectedRow`. */
    method SetDescriptionByCurrentSelectedRow(l: TaskList)
      requires ui.Valid() && (l == ui.catList || l == ui.taskList)
      modifies ui.descBox
      ensures var shown := DescriptionShown(TaskListEvent(TaskListEventAfterUpdate, 0), l.State());
        ui.descBox.message == if shown.Some? then PlainText(shown.value) else old(ui.descBox.message)
    {
      if !l.IsActivated() {
        return;
      }
      var t := l.GetSelectedTask();
      if t.Some? {
        ui.descBox.Plain(t.value.Description);
      }
    }

    /** `insertTaskWithOrder` (the editor and the terminal re-initialisation aside). */
    method InsertTaskWithOrder(l: TaskList, order: U64, a: Answers)
      requires ui.Valid() && (l == ui.catList || l == ui.taskList)
      modifies this, ui.stateBar
      ensures var eff := InsertEffect(a, l == ui.catList, l.parentID, order);
        useCalls == old(useCalls) + eff.calls && ui.stateBar.message == AfterWarning(old(ui.stateBar.message), eff.warning)
    {
      if a.editor.Err? {
        ui.stateBar.Warn(a.editor.error);
        return;
      }
      var form := CreateFormAddTaskFromString(a.editor.value, a.now);
      if form.Err? {
        return;
      }
      var f := form.value;
      if l == ui.catList {
        f := f.(Type := TaskTypeCategory);
      } else {
        f := f.(Type := TaskTypeTask);
      }
      f := f.(ParentID := l.ParentID(), Order := order);
      useCalls := useCalls + [AddTask(f)];
      if a.useCase.Some? {
        ui.stateBar.Warn(Wrapped("adding task", a.useCase.value));
      }
    }

    /** `handleGenericTaskListEvent`. */
    method HandleGenericTaskListEvent(l: TaskList, e: TaskListEvent, a: Answers)
      requires ui.Valid() && (l == ui.catList || l == ui.taskList)
      requires CanHandle(e, l.State())
      modifies this, ui.stateBar, ui.descBox
      ensures var eff := EventEffect(e, l.State(), l == ui.catList, a);
        useCalls == old(useCalls) + eff.calls && ui.stateBar.message == AfterWarning(old(ui.stateBar.message), eff.warning)
      ensures var shown := DescriptionShown(e, l.State());
        ui.descBox.message == if shown.Some? then PlainText(shown.value) else old(ui.descBox.message)
    {
      if e.Type == TaskListEventAfterUpdate {
        SetDescriptionByCurrentSelectedRow(l);
      } else if e.Type == EventInsertTaskWithOrder {
        InsertTaskWithOrder(l, e.Order, a);
      } else if e.Type == EventChangeTaskState {
        ChangeTaskState(l, a);
      }
    }

    /** `handleCatListEvent`: after a redraw the task list follows the selected category;
        then the generic handling. */
    method HandleCatListEvent(e: TaskListEvent, a: Answers)
      requires ui.Valid() && CanHandle(e, ui.catList.State())
      modifies this, ui.stateBar, ui.descBox, ui.taskList
      ensures ui.Valid()
      ensures var sel := ui.catList.GetSelectedTask();
        ui.taskList.State() == if e.Type == TaskListEventAfterUpdate && sel.Some? then old(ui.taskList.State()).(parentID := sel.value.ID) else old(ui.taskList.State())
      ensures var eff := EventEffect(e, ui.catList.State(), true, a);
        useCalls == old(useCalls) + eff.calls && ui.stateBar.message == AfterWarning(old(ui.stateBar.message), eff.warning)
      ensures var shown := DescriptionShown(e, ui.catList.State());
        ui.descBox.message == if shown.Some? then PlainText(shown.value) else old(ui.descBox.message)
    {
      if e.Type == TaskListEventAfterUpdate {
        var t := ui.catList.GetSelectedTask();
        if t.Some? {
          ui.taskList.SetParentID(t.value.ID);
        }
      }
      HandleGenericTaskListEvent(ui.catList, e, a);
    }

    /** No panic: a `<Space>` that reaches a list finds its selected task in a known state. */
    ghost predicate CanHandleKey(key: string)
      reads ui, ui.grid, ui.grid.Lists()
      requires ui.Valid()
    {
      var g := ui.grid;
      key == "<Space>" && !g.selectingComponent && g.activatedComponent.List? ==>
        CanHandle(TaskListEvent(EventChangeTaskState, 0), g.activatedComponent.list.State())
    }

    /** `handleEvent`: `q`/`<C-c>` quit; `<Resize>` only relays the layout; every other
        key goes to the grid, and the event the key makes a list send is handled by that
        list's handler. */
    method HandleEvent(key: string, a: Answers) returns (quit: bool)
      requires ui.Valid() && CanHandleKey(key)
      modifies this, ui.grid, ui.catList, ui.taskList, ui.stateBar, ui.descBox
      ensures ui.Valid()
      ensures quit <==> key == "q" || key == "<C-c>"
      ensures ui.descBox.message == old(ui.descBox.message)
      ensures quit || key == "<Resize>" ==>
        && useCalls == old(useCalls) && ui.stateBar.message == old(ui.stateBar.message)
        && ui.grid.selectingComponent == old(ui.grid.selectingComponent)
        && ui.grid.activatedComponent == old(ui.grid.activatedComponent)
        && ui.catList.State() == old(ui.catList.State()) && ui.taskList.State() == old(ui.taskList.State())
      ensures !quit && key != "<Resize>" ==> ui.grid.selectingComponent == (key == "<C-w>")
      ensures !quit && key != "<Resize>" && (key == "<C-w>" || old(ui.grid.selectingComponent)) ==>
        && useCalls == old(useCalls) && ui.stateBar.message == old(ui.stateBar.message)
        && ui.grid.activatedComponent == (if key != "<C-w>" && key in ui.grid.componentKeyMap then ui.grid.componentKeyMap[key] else old(ui.grid.activatedComponent))
      ensures !quit && key != "<Resize>" && key != "<C-w>" && !old(ui.grid.selectingComponent) ==>
        && ui.grid.activatedComponent == old(ui.grid.activatedComponent)
        && (old(ui.grid.activatedComponent).Dummy? ==> useCalls == old(useCalls) && ui.stateBar.message == old(ui.stateBar.message))
        && (old(ui.grid.activatedComponent).List? ==>
          var l := old(ui.grid.activatedComponent).list;
          var eff := KeyEffect(key, old(l.State()), l == ui.catList, a);
          && l.State() == AfterKey(old(l.State()), key)
          && useCalls == old(useCalls) + eff.calls
          && ui.stateBar.message == AfterWarning(old(ui.stateBar.message), eff.warning))
      // a forwarded key reaches only the target: the other list (both, for the dummy) is untouched
      ensures !quit && key != "<Resize>" && key != "<C-w>" && !old(ui.grid.selectingComponent) ==>
        && (old(ui.grid.activatedComponent) != List(ui.catList) ==> ui.catList.State() == old(ui.catList.State()))
        && (old(ui.grid.activatedComponent) != List(ui.taskList) ==> ui.taskList.State() == old(ui.taskList.State()))
      // choosing a component moves only the activation flags
      ensures !quit && key != "<Resize>" && (key == "<C-w>" || old(ui.grid.selectingComponent)) ==>
        && ui.catList.State() == old(ui.catList.State()).(isActivated := ui.catList.isActivated)
        && ui.taskList.State() == old(ui.taskList.State()).(isActivated := ui.taskList.isActivated)
    {
      if key == "q" || key == "<C-c>" {
        return true;
      }
      if key == "<Resize>" {
        // resizing the layout is not modelled
        return false;
      }
      var nCat := |ui.catList.events|;
      var nTask := |ui.taskList.events|;
      ghost var target := ui.grid.activatedComponent;
      ghost var catBefore := ui.catList.State();
      ghost var taskBefore := ui.taskList.State();
      SendingKeyKeepsSelection(catBefore, key);
      SendingKeyKeepsSelection(taskBefore, key);
      // the grid never fails here, so there is nothing to warn about
      var err := ui.grid.HandleEvent(key);
      if |ui.catList.events| > nCat {
        HandleCatListEvent(ui.catList.events[nCat], a);
      } else if |ui.taskList.events| > nTask {
        HandleTaskListEvent(ui.taskList.events[nTask], a);
      }
      return false;
    }

    /** `handleTaskListEvent`. */
    method HandleTaskListEvent(e: TaskListEvent, a: Answers)
      requires ui.Valid() && CanHandle(e, ui.taskList.State())
      modifies this, ui.stateBar, ui.descBox
      ensures var eff := EventEffect(e, ui.taskList.State(), false, a);
        useCalls == old(useCalls) + eff.calls && ui.stateBar.message == AfterWarning(old(ui.stateBar.message), eff.warning)
      ensures var shown := DescriptionShown(e, ui.taskList.State());
        ui.descBox.message == if shown.Some? then PlainText(shown.value) else old(ui.descBox.message)
    {
      HandleGenericTaskListEvent(ui.taskList, e, a);
    }
  }
}
