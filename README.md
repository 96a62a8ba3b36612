# todo — a verified model of the clean-architecture demo's core

The repository is a small terminal to-do application written in Go along the lines of
the "clean architecture". It has four layers:

- **Entities and models.** `Item` is a stored record. `Task` is what the user sees.
  `FormAddTask` is the user's input.
- **An item store.** `storage.Memory` keeps a counter plus a slice of records. It
  allocates IDs, replaces records, lists the children of a parent sorted by `Order`, and
  shifts sibling orders to make room for an insertion.
- **A use-case interactor.** `use.TaskInteractor` talks to a `Storage` port and a
  `Presenter` port. It adds tasks, changes a task's state and lists a parent's tasks. It
  also seeds an empty store from a built-in indented outline (`AddTemplate`). Two fixed
  tables translate item types and states into task types and states.
- **A terminal UI.**
  - A list component has a cursor, a `gg` chord memory and an activation flag. It
    emits semantic events.
  - A grid switches the active component after `<C-w>`.
  - An inert dummy component is the grid's default target.
  - A controller turns keys and list events into use-case calls. One of those calls
    parses the text the user typed in an editor into a task form.
  - A presenter routes task lists to the list whose parent matches.
  - `cui.New` wires them together.

The model follows the program's layout, one module per source file:

| module | file | source |
|---|---|---|
| `Base` | base.dfy | errors and `errors.Is`, `uint64` arithmetic with wrap-around, map inversion |
| `Strs` | strs.dfy | `unicode.IsSpace`, `strings.TrimSpace`, `strings.Split`, `bufio.ScanLines` |
| `Entity`, `Model` | entity.dfy, model.dfy | `todo/entity`, `todo/model` |
| `TaskTypes`, `States` | task_type.dfy, state.dfy | `todo/use/task_type.go`, `todo/use/state.go` |
| `Due` | due.dfy | the due phrases shared by the two `parseDue` functions |
| `MemoryStore` | memory.dfy | `todo/storage/memory.go` |
| `Interactor` | task.dfy | `todo/use/task.go` |
| `Template` | template.dfy | `todo/use/template.go` |
| `MemoryPort` | memory_port.dfy | the memory store plugged into the interactor's `Storage` port |
| `MemoryTemplate` | memory_template.dfy | `AddTemplate` run on a new memory store, line by line |
| `TaskLists`, `Grids`, `Dummies`, `Texts` | task_list.dfy, grid.dfy, dummy.dfy, text.dfy | `todo/cui/component` |
| `CUIs`, `Presenters`, `Controllers` | cui.dfy, presenter.dfy, controller.dfy | `todo/cui` |

What changes state in the source is imperative in the model:

- `MemoryStore.Memory` is a class whose fields `id` and `items` are the store. Its methods
  are proved against value-level functions (`Save`, `Shift`, `Listing`, `GetByID`) on a
  `Store` datatype, and the store's invariants are lemmas about those functions.
- The interactor's methods are ordered sequences of port calls. The ports are datatypes
  of functions over an abstract store `S` and view `P`, so any storage or presenter can
  be plugged in, the mocks of the Go tests included. Every port call is logged in a call
  trace. `MemoryPort.MemoryStorage` plugs in the memory store.
- `AddTemplate` is a line loop proved against a step function (`Template.Step` and
  `Template.RunFrom`). A panic of the Go code is the explicit run state `Panicked`.
- `MemoryTemplate` follows that loop on a new memory store, one lemma per non-empty line
  of the outline (`MemoryTemplate.Read` is the state after each line). The run ends with
  the five records Inbox and Projects under the root and the three tasks under Inbox, in
  outline order.
- The UI components are classes with the Go fields. Each `State()` bundles a list's
  fields into a `ListState` value, and the key behaviour is the function
  `TaskLists.AfterKey`.
- The list's event callback is modelled as an appended event log. The controller
  dispatches the newly logged event right after the grid returns. This is equivalent to
  the Go callback: a key emits at most one event and leaves the selection unchanged when
  it does (`TaskLists.SendingKeyKeepsSelection`), and the handlers read nothing the grid
  changes afterwards.
- The interactor as seen from the controller is a log of use-case calls (`useCalls`).
  `Answers` supplies what the editor, the use case and the clock return.

Time is an integer clock passed in as a parameter, and 0 is the zero `time.Time`.
`Order` is `uint64` with explicit wrap-around (`Base.U64`, `Base.Inc`, `Base.Add`). The
other integers are unbounded.

## Model

| member | source | states |
|---|---|---|
| Base.Add | todo/cui/component/task_list.go:89 | `uint64` addition: the exact sum below 2^64, otherwise the sum minus 2^64 |
| Base.Inc | todo/storage/memory.go:67 | `uint64` increment: one more, except that the maximum wraps to 0 |
| Base.IncTimesShift | todo/use/template.go:49 | incrementing once and then n times equals incrementing n + 1 times |
| Base.IncTimesIsAdd | todo/use/template.go:49 | n wrapping increments add n modulo 2^64 |
| Base.Invert | todo/use/task_type.go:15-19 | the inverse of an injective map: every entry of each is undone by the other |
| Strs.TrimLeft | todo/use/task.go:25 | the result is no longer than the input and does not start with white space |
| Strs.TrimRight | todo/use/task.go:25 | the result is no longer than the input, does not end with white space, and keeps the first character |
| Strs.TrimSpace | todo/use/task.go:25 | `strings.TrimSpace`: the result neither starts nor ends with white space |
| Strs.TrimLeftDropsSpace | todo/use/task.go:25 | what `TrimLeft` removes is a prefix made only of white space |
| Strs.TrimRightDropsSpace | todo/use/task.go:25 | what `TrimRight` removes is a suffix made only of white space |
| Strs.TrimSpaceBlank | todo/use/task.go:25 | `TrimSpace(s) == ""` exactly when every character of `s` is white space |
| Strs.TrimSpaceKeepsStart | todo/use/template.go:44-45 | a text that starts with a non-space keeps that first character after trimming |
| Strs.TrimSpaceOfTrimmed | todo/use/template.go:44 | trimming a text that neither starts nor ends with white space changes nothing |
| Strs.TrimSpaceIdempotent | todo/cui/controller.go:198 | trimming twice equals trimming once |
| Strs.Split | todo/use/template.go:33 | `strings.Split`: at least one piece, no piece holds the separator, and joining the pieces gives the text back |
| Strs.SplitWithPrefix | todo/use/template.go:33 | a separator-free prefix is glued onto the first piece of the rest |
| Strs.SplitJoin | todo/use/template.go:33 | splitting joined separator-free pieces returns exactly those pieces |
| Strs.ScanLines | todo/cui/controller.go:222-224 | the lines of a `bufio.Scanner`: none exactly for the empty text, and no line holds `'\n'` |
| Due.Offset | todo/use/template.go:97-110 | trimmed `""`/`"today"` give offset 0, `"tom"`/`"tomorrow"` give 24h, and anything else gives none (each an if-and-only-if) |
| TaskTypes.ItemTypeToTaskType | todo/use/task_type.go:8-23 | Category maps to Category and Task to Task; any absent type gives the zero `TaskType` |
| TaskTypes.TaskTypeToItemType | todo/use/task_type.go:13-27 | the inverse table: Category maps to Category and Task to Task; any other value gives the zero `ItemType` |
| TaskTypes.TablesAreInverse | todo/use/task_type.go:13-19 | both tables have two entries and each undoes the other |
| TaskTypes.TypeRoundTrips | todo/use/task_type.go:15-27 | the round trip holds in both directions for Task and Category |
| TaskTypes.ProjectShowsAsCategory | todo/use/task_type.go:8-22 | `ItemTypeProject` is absent and translates to the zero value `TaskTypeCategory` |
| States.TaskStateToItemState | todo/use/state.go:8-23 | Normal maps to Normal and Completed to Completed; any other state gives Normal, the zero value |
| States.ItemStateToTaskState | todo/use/state.go:13-27 | the inverse table, with the same zero-value default |
| States.TablesAreInverse | todo/use/state.go:13-19 | both tables have two entries and each undoes the other |
| States.StateRoundTrips | todo/use/state.go:21-27 | the round trip holds in both directions for both states |
| MemoryStore.IndexOf | todo/storage/memory.go:43-44 | the position of the first record with the ID, or none exactly when no record has it |
| MemoryStore.Shift | todo/storage/memory.go:60-71 | `IncreaseOrderAfter` on the records keeps their number |
| MemoryStore.Children | todo/storage/memory.go:74-80 | only records of the parent, and each of them as often as in the store |
| MemoryStore.PrependSorted | todo/storage/memory.go:81-83 | a record no later than the head of a sorted list keeps the list sorted |
| MemoryStore.Insert | todo/storage/memory.go:81-83 | insertion into a sorted list stays sorted and adds exactly that record |
| MemoryStore.SortByOrder | todo/storage/memory.go:81-83 | the result is sorted by `Order` and a permutation of the input |
| MemoryStore.InsertLast | todo/storage/memory.go:81-83 | a record no earlier than the last of a sorted list is inserted at its end |
| MemoryStore.SortSorted | todo/storage/memory.go:81-83 | a list already sorted by `Order` comes back unchanged |
| MemoryStore.GetByID | todo/storage/memory.go:88-100 | root ID gives `RootItem`; otherwise the first record with the ID, or `ErrItemNotFound` exactly when none has it |
| MemoryStore.Memory.constructor | todo/storage/memory.go:26-28 | a new store has counter 1 and no records |
| MemoryStore.Memory.SaveItem | todo/storage/memory.go:31-57 | nil gives -1 and `ErrNilItem` and changes nothing; otherwise the new state, ID and caller's item are those of `Save` |
| MemoryStore.Memory.IncreaseOrderAfter | todo/storage/memory.go:60-71 | the records become `Shift` of the old ones, the counter stays, and no error |
| MemoryStore.Memory.GetItemsByParentID | todo/storage/memory.go:74-85 | sorted by `Order`, a permutation of the parent's records, and no error |
| MemoryStore.Memory.GetItemByID | todo/storage/memory.go:88-100 | the answer of `GetByID` on the current store |
| MemoryStore.SaveAppends | todo/storage/memory.go:51-56 | an ID that is not stored appends one stamped copy under `item.ID + counter` and increments the counter |
| MemoryStore.FirstIDIsOne | todo/storage/memory.go:27-56 | the first fresh ID of a new store is 1 |
| MemoryStore.FreshIDsIncrease | todo/storage/memory.go:52-54 | successive fresh IDs are positive, strictly increasing and consecutive |
| MemoryStore.SaveReplaces | todo/storage/memory.go:42-48 | a stored positive ID replaces the first such record only and keeps the ID, the counter and the length |
| MemoryStore.SaveStamps | todo/storage/memory.go:36-40 | `CreatedAt` is set only when zero, `UpdatedAt` is always now, and nothing else of the item changes except the ID |
| MemoryStore.NewStoreIsWellFormed | todo/storage/memory.go:26-28 | a new store is well formed: distinct positive IDs below the counter |
| MemoryStore.SaveKeepsWellFormed | todo/storage/memory.go:31-57 | saving keeps the store well formed |
| MemoryStore.SaveThenGet | todo/storage/memory.go:31-100 | the saved record is found under the returned ID, and a later clock gives a strictly later `UpdatedAt` |
| MemoryStore.ListingIsChildren | todo/storage/memory.go:74-85 | the listing is sorted, holds exactly the parent's records with their multiplicity, and nothing else |
| MemoryStore.ListingExcludesRoot | todo/storage/memory.go:74-85 | no listing of a well-formed store includes the root |
| MemoryStore.ShiftChangesOnlyOrder | todo/storage/memory.go:60-71 | only `Order` changes; a sibling with another ID and `Order >= x.Order` gets one more, and every other record is untouched |
| MemoryStore.ShiftMakesRoom | todo/storage/memory.go:60-71 | with no order at the maximum, the moved siblings end above `x.Order`, the lower ones stay, and the siblings' relative order is kept |
| MemoryStore.ShiftKeepsWellFormed | todo/storage/memory.go:60-71 | shifting keeps the store well formed |
| Interactor.BlankIsAllSpace | todo/use/task.go:25 | a title is rejected exactly when it is nothing but white space |
| Interactor.NewItemCarriesForm | todo/use/task.go:38-48 | the new item carries the form's title, due, description, order, parent and translated type, with state Normal and both timestamps now |
| Interactor.ItemToTask | todo/use/task.go:100-110 | the task's state and type are always among the known ones |
| Interactor.ItemToTaskCopies | todo/use/task.go:100-110 | ID, title, due, description and order are copied, type and state are translated, and a known type or state translates back to itself |
| Interactor.ToTasks | todo/use/task.go:83-86 | one task per item, in the same order |
| Interactor.TaskInteractor.ValidateAddTask | todo/use/task.go:24-32 | `ErrEmptyTitle` for a blank title, else the wrapped lookup error; no error exactly when the title is not blank and the parent is found |
| Interactor.TaskInteractor.AddTask | todo/use/task.go:34-61 | a blank title gives an error that `Is` `ErrEmptyTitle` with no port call; otherwise the calls are lookup, save, reorder of the saved item under its returned ID, then notify, stopping at the first error and returning it wrapped |
| Interactor.TaskInteractor.ChangeTaskStateByID | todo/use/task.go:63-75 | lookup then save of the item with only its state replaced; errors are propagated wrapped; the presenter is never called |
| Interactor.TaskInteractor.ListTasksByParentID | todo/use/task.go:78-92 | the listing's tasks, in storage order, go to the presenter together with the parent ID; storage and presenter errors propagate wrapped |
| MemoryPort.MemoryStorageAnswers | todo/storage/memory.go:31-100 | through the port, the memory store never fails except on a lookup of an absent non-root ID, and its listings are sorted |
| MemoryPort.ShiftAfterLast | todo/use/task.go:53-55 | reordering after the last record keeps that record and keeps the store well formed |
| MemoryPort.FreshTaskStored | todo/use/task.go:38-55 | a new task's item goes last under the next fresh ID with the form's fields, and the store stays well formed after the reorder |
| MemoryPort.AddTaskToMemory | todo/use/task.go:34-61 | over the memory store an invalid form changes nothing and fails; a valid one is stored under the next fresh ID, with its later siblings shifted |
| Template.LeadingSpaces | todo/use/template.go:86-93 | the number of leading `' '` characters: all of them are spaces and the next one is not |
| Template.GetLeadingSpace | todo/use/template.go:86-93 | the loop with its early return computes `LeadingSpaces`, the full length for an all-space line |
| Template.ParseDue | todo/use/template.go:97-110 | `""`/`"today"` give now, `"tom"`/`"tomorrow"` give now + 24h, anything else gives `errInvalidDue` (each an if-and-only-if) |
| Template.EnsureLevels | todo/use/template.go:38-43 | both the level and the next one exist afterwards; existing entries are kept and new ones start at root parent and order 0 |
| Template.ItemLine | todo/use/template.go:46-58 | an item line yields a current item and keeps the set of levels |
| Template.DetailLine | todo/use/template.go:59-73 | a detail line keeps the item and the levels, or fails only with the wrapped `errInvalidDue` |
| Template.ParseLine | todo/use/template.go:37-73 | after a line there is a current item and an entry for the next level; the only failure is the wrapped `errInvalidDue` |
| Template.StoppedStays | todo/use/template.go:63-79 | once aborted or panicked, the remaining lines change nothing |
| Template.RunningThrough | todo/use/template.go:33-82 | a run that ends running was running after its first line |
| Template.ItemLineInPlace | todo/use/template.go:46-58 | the in-place counter update equals `ItemLine` |
| Template.DetailLineInPlace | todo/use/template.go:59-73 | the in-place due or description update equals `DetailLine` |
| Template.ParseLineInPlace | todo/use/template.go:37-73 | the in-place line parse equals `ParseLine`, and the level is the leading spaces divided by 4 |
| Template.StepInPlace | todo/use/template.go:34-81 | one iteration of the loop equals `Step` |
| Template.AddLines | todo/use/template.go:29-84 | the loop over non-panicking lines ends with the store, calls and error of `RunFrom` |
| Template.AddTemplateText | todo/use/template.go:29-84 | `AddLines` over `strings.Split(text, "\n")` |
| Template.TemplateTextSplits | todo/use/template.go:12-33 | `strings.Split(template, "\n")` gives exactly the outline's lines the loop runs over |
| Template.StepKeepsItem | todo/use/template.go:44-73 | a well-formed line never panics and leaves a current item |
| Template.WellShapedNeverPanics | todo/use/template.go:44-73 | a text whose lines all have well-formed prefixes never panics |
| Template.TrimIndented | todo/use/template.go:44 | a text with no white space at either end trims to itself, also when indented by four spaces |
| Template.ShapedLinesWellShaped | todo/use/template.go:44-73 | lines that are each empty, an item with its full prefix, or non-blank are well shaped |
| Template.ShapedText | todo/use/template.go:44-58 | a line of at least four characters, with no space at either end, is shaped both as written and indented |
| Template.TemplateLinesShaped | todo/use/template.go:12-27 | every line of the built-in outline is shaped |
| Template.TemplateNeverPanics | todo/use/template.go:12-84 | the built-in outline never panics, whatever the storage answers |
| Template.AddTemplate | todo/use/template.go:29-84 | `AddLines` over the built-in outline, needing no precondition |
| Template.ParseItemLine | todo/use/template.go:46-58 | a `+` line gives a Category titled `line[2:]` and a `[` line a Task titled `line[4:]`, each with the level's parent and its incremented order; other levels are untouched |
| Template.ParseDetailLine | todo/use/template.go:59-73 | after a task line the line is the due and a bad phrase is the only error; otherwise its trimmed text plus `"\n"` is appended to the description; counters do not change |
| Template.StepSaves | todo/use/template.go:75-81 | each parsed line saves the current item; a save error aborts with an error that `Is` it; otherwise the next level's parent becomes the returned ID and the item the saved one |
| Template.StepParseError | todo/use/template.go:63-66 | a bad due aborts, with the store and calls unchanged, and the error `Is` `errInvalidDue` |
| Template.EmptyLinesSkipped | todo/use/template.go:34-36 | empty lines change nothing |
| Template.CountItemsAt | todo/use/template.go:45-58 | the number of item lines at a level: at most the number of lines, and 0 exactly when no line creates an item there |
| Template.CountItemsAppend | todo/use/template.go:33-58 | the count over two stretches of lines is the sum of the counts |
| Template.StepOrder | todo/use/template.go:49-56 | a level's counter goes up by one exactly on an item line of that level |
| Template.RunOrder | todo/use/template.go:38-58 | a level's counter ends incremented once per item line at that level across the whole text, whatever the parents |
| Template.CountStep | todo/use/template.go:49-56 | one optional increment followed by c increments is the combined count of increments |
| Template.RunOrderWraps | todo/use/template.go:38-58 | the same counter law as a sum modulo 2^64 |
| MemoryTemplate.IndentLevel | todo/use/template.go:37 | an unindented line is at level 0 and a line indented by four spaces at level 1 |
| MemoryTemplate.InboxLine | todo/use/template.go:13 | on a new store, `+ Inbox` creates the category Inbox at order 1 under the root, saved as ID 1, and makes ID 1 the parent of level 1 |
| MemoryTemplate.InboxNoteLine | todo/use/template.go:15 | the unindented line after Inbox is appended to Inbox's description with `"\n"`, and Inbox is saved again in place under ID 1 |
| MemoryTemplate.WelcomeLine | todo/use/template.go:17 | `[ ] Welcome!` creates the task at order 1 under Inbox, saved as ID 2, and opens level 2 under it |
| MemoryTemplate.ParseTask | todo/use/template.go:21-24 | a later level-1 task line takes the next order under Inbox, and the parse is safe |
| MemoryTemplate.TaskLine | todo/use/template.go:21-24 | such a line's task is appended under the next fresh ID, which becomes the parent of level 2 |
| MemoryTemplate.DueLine | todo/use/template.go:18-25 | `today` right after a task sets its due to now and saves it again in place, under its own ID |
| MemoryTemplate.ParseDescription | todo/use/template.go:19 | the line after Welcome's due is its description |
| MemoryTemplate.DescriptionLine | todo/use/template.go:19 | that description is saved in place under ID 2 |
| MemoryTemplate.ProjectsLine | todo/use/template.go:26 | `+ Projects` creates the category at order 2 under the root, saved as ID 5, which becomes the parent of level 1 |
| MemoryTemplate.Chain | todo/use/template.go:33-82 | a loop whose every line takes one given state to the next ends in the last of them |
| MemoryTemplate.TemplateSeedsMemory | todo/use/template.go:12-84 | on a new memory store the outline runs to the end without an error, leaves exactly the five records Inbox, Welcome!, Press ?, Use j/k and Projects with their IDs, orders, parents, dues and descriptions, and makes one `SaveItem` call per non-empty line |
| MemoryTemplate.SeededWellFormed | todo/storage/memory.go:26-57 | the seeded store is well formed |
| MemoryTemplate.OutlineRoot | todo/storage/memory.go:74-85 | two root categories with three tasks of another parent between them are listed under the root in order |
| MemoryTemplate.OutlineTasks | todo/storage/memory.go:74-85 | the three tasks in rising order are listed under their parent in that order |
| MemoryTemplate.SeededListings | todo/use/template.go:12-27 | after the outline the root lists Inbox then Projects, and Inbox lists Welcome!, Press ? and Use j/k in that order |
| MemoryTemplate.SeedMemory | todo/use/template.go:29-84 | `AddTemplate` on a new memory store returns no error and leaves the seeded, well-formed store with those listings |
| TaskLists.SelectAt | todo/cui/component/task_list.go:106-110 | an index in range is selected, and any other leaves the row |
| TaskLists.LastIndexOfID | todo/cui/component/task_list.go:168-175 | when some row has the ID, a row with the ID and none after it (later matches overwrite `rowMatched`); 0 when no row has it |
| TaskLists.RematchKeepsRow | todo/cui/component/task_list.go:165-176 | with distinct IDs the selection stays when below `len(tasks)`, and otherwise becomes 0 |
| TaskLists.LastMatchIsOnlyMatch | todo/cui/component/task_list.go:168-175 | with distinct IDs a row's task is matched only at that row |
| TaskLists.RowsFor | todo/cui/component/task_list.go:162-180 | one row per task, or the single `"<Empty>"` row when there are none |
| TaskLists.SelectedTask | todo/cui/component/task_list.go:112-117 | a task exactly when the row is below `len(tasks)`, and then the task at that row |
| TaskLists.AfterKey | todo/cui/component/task_list.go:53-100 | a key never changes tasks, rows, parent or activation; `previousKey` is the key, even after `gg`; an in-range row stays in range |
| TaskLists.SendingKeyKeepsSelection | todo/cui/component/task_list.go:79-95 | a key emits at most one event; when it does, the selection is unchanged and the event is ChangeTaskState exactly for `<Space>` |
| TaskLists.TaskList.constructor | todo/cui/component/task_list.go:39-50 | a new list is not activated, has parent 0, no tasks and an empty event log |
| TaskLists.TaskList.GetSelectedTask | todo/cui/component/task_list.go:112-117 | a task exactly when the row is below `len(tasks)`, and then the task at that row |
| TaskLists.TaskList.SelectTaskAt | todo/cui/component/task_list.go:106-110 | only the row changes, to `SelectAt` of the index |
| TaskLists.TaskList.InsertionOrder | todo/cui/component/task_list.go:80-92 | `o` gives the selection's order + 1, `O` its order, and 0 with no selection |
| TaskLists.TaskList.HandleEvent | todo/cui/component/task_list.go:53-100 | the new state is `AfterKey` of the old one, the row invariant is kept, and no error |
| TaskLists.TaskList.SetActivate | todo/cui/component/task_list.go:120-127 | only the activation flag changes, to the given value |
| TaskLists.TaskList.SetParentID | todo/cui/component/task_list.go:191-193 | only the parent changes, to the given ID |
| TaskLists.TaskList.UpdateTasks | todo/cui/component/task_list.go:196-198 | only the tasks change, to the given ones |
| TaskLists.TaskList.Update | todo/cui/component/task_list.go:164-183 | the row is re-matched against the current tasks, the rows are `RowsFor` the tasks, exactly one AfterUpdate event is logged, and the row invariant holds |
| TaskLists.UpDownStopAtEnds | todo/cui/component/task_list.go:55-110 | `j`/`<Down>` and `k`/`<Up>` move by one, stop at the ends and never wrap |
| TaskLists.KeysSelectExistingRows | todo/cui/component/task_list.go:106-110 | every key leaves the row or selects an existing row |
| TaskLists.JumpKeys | todo/cui/component/task_list.go:67-78 | `g` selects row 0 only after `g`, `<Home>` always does, and `G`/`<End>` select the last row |
| TaskLists.InsertKeys | todo/cui/component/task_list.go:79-95 | `o`/`O` emit one insert event with order + 1 or order (0 with no selection), `<Space>` one ChangeTaskState event, navigation keys none |
| Dummies.DummyComponent.Update | todo/cui/component/dummy.go:8 | always nil |
| Dummies.DummyComponent.IsActivated | todo/cui/component/dummy.go:9 | always false |
| Dummies.DummyComponent.HandleEvent | todo/cui/component/dummy.go:11 | always nil |
| Dummies.ActivationHasNoEffect | todo/cui/component/dummy.go:9-10 | `SetActivate` has no effect: the component is never activated, even after `SetActivate(true)`, and setting and resetting gives it back |
| Texts.Text.constructor | todo/cui/component/text.go:21-28 | a new text shows nothing |
| Texts.Text.Plain | todo/cui/component/text.go:30-33 | shows the plain text |
| Texts.Text.Info | todo/cui/component/text.go:35-39 | shows the info text |
| Texts.Text.Warn | todo/cui/component/text.go:41-45 | shows the error |
| Grids.DefaultTarget | todo/cui/component/grid.go:28-32 | the component under `DefaultActivated`, or else the dummy |
| Grids.SetActivateOf | todo/cui/component/grid.go:30-52 | a list's activation flag becomes the given value and nothing else of it changes |
| Grids.Grid.constructor | todo/cui/component/grid.go:20-38 | keeps the keymap; the target is `DefaultTarget`; only that list is activated; not selecting |
| Grids.Grid.OnlyTargetActivated | todo/cui/component/grid.go:28-52 | at most one list is activated, and an activated list is the target |
| Grids.Grid.HandleEvent | todo/cui/component/grid.go:41-62 | `<C-w>` starts selecting and changes nothing else; while selecting a mapped key switches the target and the flags and an unmapped one changes nothing; otherwise the key goes to the target list as `AfterKey` |
| CUIs.KeyMapLists | todo/cui/cui.go:29-35 | the keymap's components are exactly the two lists |
| CUIs.CUI.constructor | todo/cui/cui.go:21-57 | the keymap of cui.go, the category list activated and the target, the task list not, both with parent 0, the components task list then category list, and both texts empty |
| Presenters.RouteOf | todo/cui/presenter.go:15-20 | the category list when its parent matches, else the task list when its parent matches, else nowhere (each an if-and-only-if) |
| Presenters.Presenter.constructor | todo/cui/presenter.go:9-11 | wraps the UI |
| Presenters.Presenter.ShowTasksOfParentID | todo/cui/presenter.go:13-22 | the tasks go to the routed list only; no other list state changes; nil |
| Presenters.Presenter.ShowTaskAdded | todo/cui/presenter.go:24-27 | the status bar shows `"Task Added: " + title`; nil |
| Presenters.SharedParentGoesToCategories | todo/cui/presenter.go:15-18 | when both lists share the parent, the category list wins |
| Controllers.ToggleCompletedState | todo/cui/controller.go:63-72 | a known state becomes the other known state |
| Controllers.ToggleIsSelfInverse | todo/cui/controller.go:63-72 | toggling twice gives the state back |
| Controllers.ParseDue | todo/cui/controller.go:197-210 | `""`/`"today"` give now, `"tom"`/`"tomorrow"` give now + 24h, and anything else gives `ErrInvalidDue` (each an if-and-only-if) |
| Controllers.FormFromString | todo/cui/controller.go:214-247 | fails exactly on `""`, with `errEmptyInput`; type, parent and order are left zero |
| Controllers.CreateFormAddTaskFromString | todo/cui/controller.go:214-247 | the scanner loop computes `FormFromString` |
| Controllers.FirstTitle | todo/cui/controller.go:227-228 | empty, or a non-blank title with no white space at either end |
| Controllers.ScanTitle | todo/cui/controller.go:225-228 | once set the title stays; otherwise it becomes the trimmed first non-blank line |
| Controllers.FormTitle | todo/cui/controller.go:227-228 | the form's title is the trimmed first non-blank line |
| Controllers.RestIsDescription | todo/cui/controller.go:229-240 | after the title and the due decision every line goes verbatim plus `"\n"` to the description |
| Controllers.TitleThenDue | todo/cui/controller.go:227-240 | title line, then an accepted due line, then the rest as description |
| Controllers.TitleThenText | todo/cui/controller.go:229-234 | title line, then a line that is no due, which starts the description with everything after it |
| Controllers.BlankLineIsDescription | todo/cui/controller.go:226-239 | a blank line, even before the title, goes to the description |
| Controllers.InsertBuildsForm | todo/cui/controller.go:84-114 | `AddTask` is called exactly when the editor returns non-empty text; the form has the first title, the list's type, its parent and the event's order; editor and use-case errors become the warning, `Is`-preserving |
| Controllers.ChangeFlipsSelected | todo/cui/controller.go:53-61 | `ChangeTaskStateByID(selected.ID, toggled)` is called exactly when there is a selection; an error becomes the warning |
| Controllers.KeysThatCallUseCases | todo/cui/controller.go:26-114 | only `o`, `O` and `<Space>` call a use case: the first two through the insert handling with the list's insert order, the last through the state change |
| Controllers.Controller.constructor | todo/cui/controller.go:20-24 | wraps the UI with no use case called yet |
| Controllers.Controller.ChangeTaskState | todo/cui/controller.go:53-61 | logs the calls of `ChangeEffect` and shows its warning |
| Controllers.Controller.SetDescriptionByCurrentSelectedRow | todo/cui/controller.go:74-82 | shows the selected task's description only when the list is activated and has a selection |
| Controllers.Controller.InsertTaskWithOrder | todo/cui/controller.go:84-114 | logs the calls of `InsertEffect` for the list and shows its warning |
| Controllers.Controller.HandleGenericTaskListEvent | todo/cui/controller.go:42-51 | the event's calls and warning, and the description of AfterUpdate |
| Controllers.Controller.HandleCatListEvent | todo/cui/controller.go:26-36 | an AfterUpdate with a selection re-parents the task list to the selected ID first; then the generic handling |
| Controllers.Controller.HandleTaskListEvent | todo/cui/controller.go:38-40 | the generic handling for the task list |
| Controllers.Controller.HandleEvent | todo/cui/controller.go:158-173 | `q`/`<C-c>` quit and change nothing; `<Resize>` changes no state; otherwise the key goes through the grid, and the active list's key triggers `KeyEffect`'s calls and warning; a forwarded key leaves every list but the target unchanged, and a selection key changes only the lists' activation flags |

## Left out

- Time: `time.Now()` is the parameter `now`, and one call uses one `now` throughout. Go
  reads the clock several times (`AddTask` stamps `CreatedAt`/`UpdatedAt` before
  `SaveItem` stamps them again). `time.Time` is an integer, and zero is `IsZero`.
- `int64` IDs are unbounded integers: overflow of the ID counter is not modelled.
  `uint64` orders do wrap.
- Strings are sequences of characters. Go strings are bytes, so `line[2:]` is modelled
  on characters. `IsSpace` is the `unicode.IsSpace` set.
- Error texts: errors are the `Error` datatype, whose `Wrapped(context, cause)` keeps
  `errors.Is`. Formatted parts of contexts (the template line number, the task ID in
  `changing task[%d] state`, the parent ID in `showing task of parent[%d]`, the
  component and event in the grid's error) are dropped.
- `copyItem`'s JSON round trip is a value copy. Pointer aliasing of the returned records
  is not modelled. One consequence is that `GetItemByID(RootID)` returns the global
  `RootItem`, and `ChangeTaskStateByID(0, …)` in Go mutates that global. The model
  returns a fresh `RootItem` value each time.
- `Interactor.TaskInteractor.ChangeTaskStateByID` models saving the root item by value
  only. The aliasing above is not captured.
- `GetItemsByParentID`'s `sort.Slice` is not stable. The model's insertion sort is one
  of the orders it may produce. The contract states only what every such order shares:
  sorted and a permutation.
- The outline of `AddTemplate` is held as its list of lines (`Template.TemplateLines`),
  and the `template` constant (`Template.TemplateText`) is those lines joined with `'\n'`;
  `Template.TemplateTextSplits` proves that splitting it gives the lines back.
  `Template.AddTemplateText` runs the same loop on any text that is split.
- Panics: the Go panics are preconditions or the explicit `Panicked` run state. These
  are `line[2:]`/`line[4:]` on short lines, `line[0]` of a blank line and a nil item in
  the template, and `toggleCompletedState` of an unknown state.
- `formatTaskRow` is the parameter `format` of `TaskList.Update`, because it depends on
  `humanize.Time` and the widget width. Row strings are opaque.
- Rendering, colours and styles: the termui widgets, the `Text` component's colours
  (`Text` records the last message), the grid layout ratios in `cui.New`, and the
  `<Resize>` handling (`SetRect`, `Clear`).
- `Controller.Loop`, `init`, `close` and `Update`: a polling loop over a channel plus
  rendering. The `SetEventHandler` wiring made in `init` is the controller's dispatch
  of the logged event right after the grid returns.
- `TaskList.SetEventHandler` is not a member of its own: the handler is that dispatch.
- The editor: `GetInputByLaunchingEditor` is `Answers.editor`, which is any string or
  an error. The deferred `CUILib.Init()` and its panic are left out, and so is
  `todo/cui/io`.
- The use cases as seen by the controller return `Answers.useCase`, which is any error
  or none. The controller logs the call instead of running the interactor.
- `Grids.Grid.HandleEvent` does not model the wrapping of an error returned by the
  target. Every target (a list or the dummy) always returns nil, so that branch cannot
  be taken.
- `Controllers.Controller.HandleEvent` does not model the warning of a grid error, for
  the same reason.
- The 64 KiB line limit of `bufio.Scanner`.
- `todo/storage/fs.go` (an unimplemented stub), `todo/entity/view.go` (unused filter
  types), and `todo/cmd/cui/main.go` (wiring) are not part of this model.
