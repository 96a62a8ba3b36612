/** `AddTemplate` (`use/template.go`): seeds the storage from a fixed indented outline. */
module Template {
  import opened Base
  import opened Strs
  import opened Entity
  import opened Interactor
  import Due

  /** The outline, line by line: `+` starts a category, `[ ]` a task, four spaces of
      indentation go one level down, the line after a task is its due phrase and any other
      line adds to the description of the item before it. The long note line is written
      as two literals joined: the verifier reasons about the characters of short literals
      but not of one that long. */
  const TemplateLines: seq<string> := [
    "",
    "+ Inbox",
    "",
    "Inbox is the place " + "to dump your thoughts into.",
    "",
    Indent + "[ ] Welcome!",
    Indent + "today",
    Indent + "This is the description",
    "",
    Indent + "[ ] Press ? to show help",
    Indent + "today",
    "",
    Indent + "[ ] Use j/k to move down/up",
    Indent + "today",
    "+ Projects",
    ""]

  /** Splitting the `template` text at `'\n'`, as the loop does, gives back the outline's lines. */
  lemma TemplateTextSplits()
    ensures Split(TemplateText, '\n') == TemplateLines
  {
    forall k | 0 <= k < |TemplateLines|
      ensures '\n' !in TemplateLines[k]
    {
      assert k in {0, 1, 2, 3, 4, 5, 6, 7, 8, 9, 10, 11, 12, 13, 14, 15};
    }
    SplitJoin(TemplateLines, '\n');
  }

  /** One level of indentation: four spaces. */
  const Indent: string := "    "

  /** The `template` constant: the lines above joined with newlines. */
  const TemplateText: string := Join(TemplateLines, '\n')

  /** `levelInfo`: the parent new items of a level go under, and the last order given out
      at that level. */
  datatype LevelInfo = LevelInfo(ParentID: int, Order: U64)

  /** The loop variables of `AddTemplate`: `levelInfoMap`, `previousLineIsItem` and `item`. */
  datatype Parser = Parser(levels: map<int, LevelInfo>, previousLineIsItem: bool, item: Option<Item>)

  const Start: Parser := Parser(map[], false, None)

  /** The loop in progress over a storage state `S`, together with the port calls made so
      far; or stopped by a returned error; or stopped by a run-time panic (an index out of
      range or a nil item). */
  datatype Run<S> =
    | Running(parser: Parser, store: S, calls: seq<Call>)
    | Aborted(store: S, calls: seq<Call>, err: Error)
    | Panicked(store: S, calls: seq<Call>)

  /** The number of leading `' '` characters of `l`. */
  function LeadingSpaces(l: string): (n: nat)
    ensures n <= |l|
    ensures forall k :: 0 <= k < n ==> l[k] == ' '
    ensures n < |l| ==> l[n] != ' '
  {
    if l == [] || l[0] != ' ' then 0 else 1 + LeadingSpaces(l[1..])
  }

  /** `getLeadingSpace`: the index of the first character that is not `' '`, or the
      length of `l` when there is none. */
  method GetLeadingSpace(l: string) returns (n: nat)
    ensures n <= |l|
    ensures forall k :: 0 <= k < n ==> l[k] == ' '
    ensures n < |l| ==> l[n] != ' '
    ensures n == LeadingSpaces(l)
  {
    var i := 0;
    while i < |l|
      invariant 0 <= i <= |l|
      invariant forall k :: 0 <= k < i ==> l[k] == ' '
    {
      if l[i] != ' ' {
        return i;
      }
      i := i + 1;
    }
    return |l|;
  }

  /** The nesting level of a line: its leading spaces divided by four. */
  function Level(line: string): int
  {
    LeadingSpaces(line) / 4
  }

  /** A non-empty, trimmed line that creates an item. */
  predicate IsItemLine(t: string)
  {
    t != [] && (t[0] == '+' || t[0] == '[')
  }

  /** `_parseDue`: today or tomorrow at `now`, anything else is `errInvalidDue`. */
  function ParseDue(s: string, now: Time): (r: Result<Time>)
    ensures r == Ok(now) <==> TrimSpace(s) == "" || TrimSpace(s) == "today"
    ensures r == Ok(now + Day) <==> TrimSpace(s) == "tom" || TrimSpace(s) == "tomorrow"
    ensures r.Err? <==> TrimSpace(s) !in {"", "today", "tom", "tomorrow"}
    ensures r.Err? ==> r.error == TemplateInvalidDue
  {
    match Due.Offset(s)
    case Some(d) => Ok(now + d)
    case None => Err(TemplateInvalidDue)
  }

  /** The two `levelInfoMap` entries each line makes sure of: its own level, and the next
      one down. */
  function EnsureLevels(levels: map<int, LevelInfo>, level: int): (r: map<int, LevelInfo>)
    ensures level in r && level + 1 in r
    ensures forall l :: l in levels ==> l in r && r[l] == levels[l]
    ensures forall l :: l in r && l !in levels ==> r[l] == LevelInfo(RootID, 0)
  {
    var withLevel := if level in levels then levels else levels[level := LevelInfo(RootID, 0)];
    if level + 1 in withLevel then withLevel else withLevel[level + 1 := LevelInfo(0, 0)]
  }

  /** A line the loop can take without a run-time panic: an empty line, or a line that is
      not all white space (`line[0]`) whose `+` or `[ ]` marker is followed by the title
      start (`line[2:]`, `line[4:]`), and a detail line only once there is an item. */
  predicate LineSafe(p: Parser, line: string)
  {
    line == "" ||
    var t := TrimSpace(line);
    && t != []
    && (t[0] == '+' ==> |t| >= 2)
    && (t[0] == '[' ==> |t| >= 4)
    && (!IsItemLine(t) ==> p.item.Some?)
  }

  /** A `+` or `[ ]` line: the level's order counter goes up by one and the new item, of
      type `typ` and titled `title`, takes it, under the level's parent. */
  function ItemLine(levels: map<int, LevelInfo>, level: int, title: string, typ: ItemType, isTask: bool): (q: Parser)
    requires level in levels
    ensures q.item.Some? && q.levels.Keys == levels.Keys
  {
    var order := Inc(levels[level].Order);
    var item := ZeroItem.(Title := title, Type := typ, Order := order, ParentItemID := levels[level].ParentID);
    Parser(levels[level := levels[level].(Order := order)], isTask, Some(item))
  }

  /** Any other line: the due phrase of the task just created, or more description. */
  function DetailLine(p: Parser, levels: map<int, LevelInfo>, t: string, now: Time): (r: Result<Parser>)
    requires p.item.Some?
    ensures r.Ok? ==> r.value.item.Some? && r.value.levels == levels
    ensures r.Err? ==> r.error == Wrapped("parse due of template", TemplateInvalidDue)
  {
    var item := p.item.value;
    if p.previousLineIsItem then
      match ParseDue(t, now)
      case Err(e) => Err(Wrapped("parse due of template", e))
      case Ok(due) => Ok(Parser(levels, false, Some(item.(Due := due))))
    else
      Ok(Parser(levels, false, Some(item.(Description := item.Description + TrimSpace(t) + "\n"))))
  }

  /** What a non-empty line does before the save: the parser state with the line's item,
      or the error of an unknown due phrase. */
  function ParseLine(p: Parser, line: string, now: Time): (r: Result<Parser>)
    requires line != "" && LineSafe(p, line)
    ensures r.Ok? ==> r.value.item.Some?
    ensures r.Ok? ==> Level(line) + 1 in r.value.levels
    ensures r.Err? ==> r.error == Wrapped("parse due of template", TemplateInvalidDue)
  {
    var level := Level(line);
    var levels := EnsureLevels(p.levels, level);
    var t := TrimSpace(line);
    if t[0] == '+' then Ok(ItemLine(levels, level, t[2..], ItemTypeCategory, false))
    else if t[0] == '[' then Ok(ItemLine(levels, level, t[4..], ItemTypeTask, true))
    else DetailLine(p, levels, t, now)
  }

  /** The end of the loop body: save the current item and make the returned ID the parent
      of the level below `level`. */
  function SaveCurrent<S>(storage: Storage<S>, q: Parser, level: int, store: S, calls: seq<Call>): Run<S>
    requires q.item.Some? && level + 1 in q.levels
  {
    var item := q.item.value;
    var saved := storage.saveItem(store, item);
    if saved.1.err.Some? then Aborted(saved.0, calls + [SaveItem(item)], Wrapped("save item", saved.1.err.value))
    else
      Running(q.(levels := q.levels[level + 1 := q.levels[level + 1].(ParentID := saved.1.id)],
                 item := Some(saved.1.item)), saved.0, calls + [SaveItem(item)])
  }

  /** One iteration of the loop: skip an empty line, panic on an unsafe one, otherwise
      parse it and save. */
  function Step<S>(storage: Storage<S>, r: Run<S>, line: string, now: Time): Run<S>
  {
    if !r.Running? || line == "" then r
    else if !LineSafe(r.parser, line) then Panicked(r.store, r.calls)
    else
      match ParseLine(r.parser, line, now)
      case Err(e) => Aborted(r.store, r.calls, e)
      case Ok(q) => SaveCurrent(storage, q, Level(line), r.store, r.calls)
  }

  /** The loop over `lines` from `r`. */
  function RunFrom<S>(storage: Storage<S>, r: Run<S>, lines: seq<string>, now: Time): Run<S>
    decreases |lines|
  {
    if lines == [] then r else RunFrom(storage, Step(storage, r, lines[0], now), lines[1..], now)
  }

  /** Once stopped, the loop stays stopped. */
  lemma {:induction false} StoppedStays<S>(storage: Storage<S>, r: Run<S>, lines: seq<string>, now: Time)
    requires !r.Running?
    ensures RunFrom(storage, r, lines, now) == r
    decreases |lines|
  {
    if lines != [] {
      StoppedStays(storage, r, lines[1..], now);
    }
  }

  /** A loop that ends running was running after its first line. */
  lemma RunningThrough<S>(storage: Storage<S>, r: Run<S>, lines: seq<string>, now: Time)
    requires lines != [] && RunFrom(storage, r, lines, now).Running?
    ensures Step(storage, r, lines[0], now).Running?
    ensures RunFrom(storage, r, lines, now) == RunFrom(storage, Step(storage, r, lines[0], now), lines[1..], now)
  {
    var next := Step(storage, r, lines[0], now);
    if !next.Running? {
      StoppedStays(storage, next, lines[1..], now);
      assert false;
    }
  }

  /** The `+` and `[ ]` cases of the loop body: bump the level's order and make the item. */
  method ItemLineInPlace(levelInfoMap: map<int, LevelInfo>, level: int, title: string, typ: ItemType, isTask: bool)
    returns (q: Parser)
    requires level in levelInfoMap
    ensures q == ItemLine(levelInfoMap, level, title, typ, isTask)
  {
    var levels := levelInfoMap[level := levelInfoMap[level].(Order := Inc(levelInfoMap[level].Order))];
    var item := ZeroItem.(Title := title, Type := typ, Order := levels[level].Order,
      ParentItemID := levels[level].ParentID);
    return Parser(levels, isTask, Some(item));
  }

  /** The default case of the loop body: a due phrase right after a task, description
      otherwise. */
  method DetailLineInPlace(p: Parser, levelInfoMap: map<int, LevelInfo>, line: string, now: Time)
    returns (q: Result<Parser>)
    requires p.item.Some?
    ensures q == DetailLine(p, levelInfoMap, line, now)
  {
    var item := p.item.value;
    if p.previousLineIsItem {
      var due := ParseDue(line, now);
      if due.Err? {
        return Err(Wrapped("parse due of template", due.error));
      }
      item := item.(Due := due.value);
    } else {
      item := item.(Description := item.Description + TrimSpace(line) + "\n");
    }
    return Ok(Parser(levelInfoMap, false, Some(item)));
  }

  /** The body of the loop for one non-empty line, up to the save: make sure of the level
      entries, then act on the line's first character. */
  method ParseLineInPlace(p: Parser, line: string, now: Time) returns (q: Result<Parser>, level: int)
    requires line != "" && LineSafe(p, line)
    ensures q == ParseLine(p, line, now)
    ensures level == Level(line)
  {
    var levelInfoMap := p.levels;
    var spaces := GetLeadingSpace(line);
    level := spaces / 4;
    if level !in levelInfoMap {
      levelInfoMap := levelInfoMap[level := LevelInfo(RootID, 0)];
    }
    if level + 1 !in levelInfoMap {
      levelInfoMap := levelInfoMap[level + 1 := LevelInfo(0, 0)];
    }
    assert levelInfoMap == EnsureLevels(p.levels, level);
    var t := TrimSpace(line);
    if t[0] == '+' {
      var r := ItemLineInPlace(levelInfoMap, level, t[2..], ItemTypeCategory, false);
      q := Ok(r);
    } else if t[0] == '[' {
      var r := ItemLineInPlace(levelInfoMap, level, t[4..], ItemTypeTask, true);
      q := Ok(r);
    } else {
      q := DetailLineInPlace(p, levelInfoMap, t, now);
    }
  }

  /** One pass of the loop body over `line`, on a running loop. */
  method StepInPlace<S>(storage: Storage<S>, p: Parser, store: S, calls: seq<Call>, line: string, now: Time)
    returns (r: Run<S>)
    requires LineSafe(p, line)
    ensures r == Step(storage, Running(p, store, calls), line, now)
  {
    if line == "" {
      return Running(p, store, calls);
    }
    var parsed, level := ParseLineInPlace(p, line, now);
    if parsed.Err? {
      return Aborted(store, calls, parsed.error);
    }
    var q := parsed.value;
    assert Step(storage, Running(p, store, calls), line, now) == SaveCurrent(storage, q, level, store, calls);
    var item := q.item.value;
    var saved := storage.saveItem(store, item);
    var calls' := calls + [SaveItem(item)];
    if saved.1.err.Some? {
      return Aborted(saved.0, calls', Wrapped("save item", saved.1.err.value));
    }
    var levelInfoMap := q.levels[level + 1 := q.levels[level + 1].(ParentID := saved.1.id)];
    return Running(Parser(levelInfoMap, q.previousLineIsItem, Some(saved.1.item)), saved.0, calls');
  }

  /** The loop of `AddTemplate` over `lines`, when it does not panic on them: the fold
      `RunFrom`, stopping at the first error. */
  method AddLines<S>(storage: Storage<S>, st: S, lines: seq<string>, now: Time)
    returns (store: S, err: Option<Error>, calls: seq<Call>)
    requires !RunFrom(storage, Running(Start, st, []), lines, now).Panicked?
    ensures var r := RunFrom(storage, Running(Start, st, []), lines, now);
      store == r.store && calls == r.calls && err == (if r.Aborted? then Some(r.err) else None)
  {
    var p := Start;
    store, calls := st, [];
    var i := 0;
    while i < |lines|
      invariant 0 <= i <= |lines|
      invariant RunFrom(storage, Running(p, store, calls), lines[i..], now)
             == RunFrom(storage, Running(Start, st, []), lines, now)
    {
      assert lines[i..][1..] == lines[i + 1..];
      var line := lines[i];
      if !LineSafe(p, line) {
        StoppedStays(storage, Panicked(store, calls), lines[i + 1..], now);
        assert false;
      }
      var r := StepInPlace(storage, p, store, calls, line, now);
      if !r.Running? {
        StoppedStays(storage, r, lines[i + 1..], now);
        return r.store, Some(r.err), r.calls;
      }
      p, store, calls := r.parser, r.store, r.calls;
      i := i + 1;
    }
    return store, None, calls;
  }

  /** `AddTemplate` with the outline given as text: split at `'\n'`, then the loop. */
  method AddTemplateText<S>(storage: Storage<S>, st: S, text: string, now: Time)
    returns (store: S, err: Option<Error>, calls: seq<Call>)
    requires !RunFrom(storage, Running(Start, st, []), Split(text, '\n'), now).Panicked?
    ensures var r := RunFrom(storage, Running(Start, st, []), Split(text, '\n'), now);
      store == r.store && calls == r.calls && err == (if r.Aborted? then Some(r.err) else None)
  {
    store, err, calls := AddLines(storage, st, Split(text, '\n'), now);
  }

  /** Lines on which the loop cannot panic whatever the storage answers: every non-empty
      line has a non-space character, markers are followed by a title start, and the first
      non-empty line (when `hasItem` is false) creates an item. */
  predicate WellShaped(lines: seq<string>, hasItem: bool)
    decreases |lines|
  {
    lines == [] ||
    var t := TrimSpace(lines[0]);
    if lines[0] == "" then WellShaped(lines[1..], hasItem)
    else
      && t != []
      && (t[0] == '+' ==> |t| >= 2)
      && (t[0] == '[' ==> |t| >= 4)
      && (hasItem || IsItemLine(t))
      && WellShaped(lines[1..], true)
  }

  lemma StepKeepsItem<S>(storage: Storage<S>, r: Run<S>, line: string, now: Time)
    requires r.Running? && line != "" && LineSafe(r.parser, line)
    ensures !Step(storage, r, line, now).Panicked?
    ensures Step(storage, r, line, now).Running? ==> Step(storage, r, line, now).parser.item.Some?
  {
  }

  lemma {:induction false} WellShapedNeverPanics<S>(storage: Storage<S>, r: Run<S>, lines: seq<string>, now: Time)
    requires !r.Panicked?
    requires WellShaped(lines, r.Running? ==> r.parser.item.Some?)
    ensures !RunFrom(storage, r, lines, now).Panicked?
    decreases |lines|
  {
    if lines != [] {
      var next := Step(storage, r, lines[0], now);
      if r.Running? && lines[0] != "" {
        assert LineSafe(r.parser, lines[0]);
        StepKeepsItem(storage, r, lines[0], now);
      }
      WellShapedNeverPanics(storage, next, lines[1..], now);
    }
  }

  /** Trimming a text with non-space ends, indented or not, gives the text. */
  lemma TrimIndented(x: string)
    requires x != [] && !IsSpace(x[0]) && !IsSpace(x[|x| - 1])
    ensures TrimSpace(x) == x && TrimSpace(Indent + x) == x
  {
    var s := Indent + x;
    assert TrimLeft(x) == x;
    assert s[3..][1..] == x;
    assert TrimLeft(s[3..]) == x;
    assert s[2..][1..] == s[3..];
    assert TrimLeft(s[2..]) == x;
    assert s[1..][1..] == s[2..];
    assert TrimLeft(s[1..]) == x;
    assert TrimLeft(s) == x;
  }

  /** A line that, once there is an item, cannot make the loop panic. */
  predicate ShapedLine(line: string)
  {
    line == "" ||
    var t := TrimSpace(line);
    && t != []
    && (t[0] == '+' ==> |t| >= 2)
    && (t[0] == '[' ==> |t| >= 4)
  }

  /** Once there is an item, lines that are each well shaped are well shaped together. */
  lemma {:induction false} ShapedLinesWellShaped(lines: seq<string>)
    requires forall k :: 0 <= k < |lines| ==> ShapedLine(lines[k])
    ensures WellShaped(lines, true)
    decreases |lines|
  {
    if lines != [] {
      assert ShapedLine(lines[0]);
      ShapedLinesWellShaped(lines[1..]);
    }
  }

  /** A text with non-space ends, indented or not, is a well-shaped line. */
  lemma ShapedText(x: string)
    requires |x| >= 4 && !IsSpace(x[0]) && !IsSpace(x[|x| - 1])
    ensures ShapedLine(x) && ShapedLine(Indent + x)
  {
    TrimIndented(x);
  }

  /** Each line of the outline is well shaped. */
  lemma TemplateLinesShaped(k: nat)
    requires k < |TemplateLines|
    ensures ShapedLine(TemplateLines[k])
  {
    var x := TemplateLines[k];
    if x != "" {
      assert k in {1, 3, 5, 6, 7, 9, 10, 12, 13, 14};
      if k == 1 { assert x == "+ Inbox"; ShapedText("+ Inbox"); }
      else if k == 3 { ShapedText("Inbox is the place " + "to dump your thoughts into."); }
      else if k == 5 { ShapedText("[ ] Welcome!"); }
      else if k == 6 || k == 10 || k == 13 { ShapedText("today"); }
      else if k == 7 { ShapedText("This is the description"); }
      else if k == 9 { ShapedText("[ ] Press ? to show help"); }
      else if k == 12 { ShapedText("[ ] Use j/k to move down/up"); }
      else { ShapedText("+ Projects"); }
    }
  }

  /** The outline never makes the loop panic, whatever the storage answers. */
  lemma TemplateNeverPanics<S>(storage: Storage<S>, st: S, now: Time)
    ensures !RunFrom(storage, Running(Start, st, []), TemplateLines, now).Panicked?
  {
    var rest := TemplateLines[2..];
    forall k | 0 <= k < |rest| ensures ShapedLine(rest[k]) {
      TemplateLinesShaped(k + 2);
    }
    ShapedLinesWellShaped(rest);
    TrimIndented("+ Inbox");
    assert TemplateLines[1..][1..] == rest;
    assert WellShaped(TemplateLines[1..], false);
    WellShapedNeverPanics(storage, Running(Start, st, []), TemplateLines, now);
  }

  /** `AddTemplate`: the loop over the lines of the fixed outline. */
  method AddTemplate<S>(storage: Storage<S>, st: S, now: Time) returns (store: S, err: Option<Error>, calls: seq<Call>)
    ensures var r := RunFrom(storage, Running(Start, st, []), TemplateLines, now);
      store == r.store && calls == r.calls && err == (if r.Aborted? then Some(r.err) else None)
  {
    TemplateNeverPanics(storage, st, now);
    store, err, calls := AddLines(storage, st, TemplateLines, now);
  }

  /** The order counter of `level`; a level not seen yet counts from zero. */
  function OrderOf(levels: map<int, LevelInfo>, level: int): U64
  {
    if level in levels then levels[level].Order else 0
  }

  /** The parent new items of `level` go under; a level not seen yet is under the root. */
  function ParentOf(levels: map<int, LevelInfo>, level: int): int
  {
    if level in levels then levels[level].ParentID else RootID
  }

  /** A `+ title` line makes a category and a `[ ] title` line a task, titled by the rest
      of the line, under the level's parent and with the level's next order; every other
      level keeps its counter and parent. */
  lemma ParseItemLine(p: Parser, line: string, now: Time)
    requires line != "" && LineSafe(p, line) && IsItemLine(TrimSpace(line))
    ensures var t := TrimSpace(line);
      var level := Level(line);
      var q := ParseLine(p, line, now);
      && q.Ok?
      && q.value.item == Some(ZeroItem.(
           Title := if t[0] == '+' then t[2..] else t[4..],
           Type := if t[0] == '+' then ItemTypeCategory else ItemTypeTask,
           Order := Inc(OrderOf(p.levels, level)),
           ParentItemID := ParentOf(p.levels, level)))
      && q.value.previousLineIsItem == (t[0] == '[')
      && OrderOf(q.value.levels, level) == Inc(OrderOf(p.levels, level))
      && (forall l :: l != level ==> OrderOf(q.value.levels, l) == OrderOf(p.levels, l))
      && (forall l :: l != level ==> ParentOf(q.value.levels, l) == ParentOf(p.levels, l))
  {
    var levels := EnsureLevels(p.levels, Level(line));
    assert forall l :: OrderOf(levels, l) == OrderOf(p.levels, l);
    assert forall l :: ParentOf(levels, l) == ParentOf(p.levels, l);
  }

  /** Any other line: right after a task it must be a due phrase, which sets the due time
      or aborts with `errInvalidDue`; otherwise its trimmed text and a newline go onto the
      description. No level changes. */
  lemma ParseDetailLine(p: Parser, line: string, now: Time)
    requires line != "" && LineSafe(p, line) && !IsItemLine(TrimSpace(line))
    ensures var t := TrimSpace(line);
      var item := p.item.value;
      var q := ParseLine(p, line, now);
      && (q.Err? <==> p.previousLineIsItem && ParseDue(t, now).Err?)
      && (q.Err? ==> Is(q.error, TemplateInvalidDue))
      && (q.Ok? ==> !q.value.previousLineIsItem)
      && (q.Ok? && p.previousLineIsItem ==> q.value.item == Some(item.(Due := ParseDue(t, now).value)))
      && (!p.previousLineIsItem ==> q.value.item == Some(item.(Description := item.Description + t + "\n")))
      && (q.Ok? ==> forall l :: OrderOf(q.value.levels, l) == OrderOf(p.levels, l)
                             && ParentOf(q.value.levels, l) == ParentOf(p.levels, l))
  {
    var t := TrimSpace(line);
    TrimSpaceIdempotent(line);
    assert TrimSpace(t) == t;
    var levels := EnsureLevels(p.levels, Level(line));
    assert forall l :: OrderOf(levels, l) == OrderOf(p.levels, l);
    assert forall l :: ParentOf(levels, l) == ParentOf(p.levels, l);
  }

  /** After a line is parsed the current item is saved: one `SaveItem` call; a save error
      aborts with an error wrapping it; otherwise the returned ID becomes the parent of the
      level below, and nothing else about the levels changes. */
  lemma StepSaves<S>(storage: Storage<S>, r: Run<S>, line: string, now: Time)
    requires r.Running? && line != "" && LineSafe(r.parser, line)
    requires ParseLine(r.parser, line, now).Ok?
    ensures var q := ParseLine(r.parser, line, now).value;
      var reply := storage.saveItem(r.store, q.item.value).1;
      var next := Step(storage, r, line, now);
      && next.calls == r.calls + [SaveItem(q.item.value)]
      && next.store == storage.saveItem(r.store, q.item.value).0
      && (next.Aborted? <==> reply.err.Some?)
      && (next.Aborted? ==> Is(next.err, reply.err.value) && next.err == Wrapped("save item", reply.err.value))
      && (next.Running? ==> ParentOf(next.parser.levels, Level(line) + 1) == reply.id)
      && (next.Running? ==> next.parser.item == Some(reply.item))
      && (next.Running? ==> next.parser.previousLineIsItem == q.previousLineIsItem)
      && (next.Running? ==> forall l :: OrderOf(next.parser.levels, l) == OrderOf(q.levels, l))
      && (next.Running? ==> forall l :: l != Level(line) + 1 ==> ParentOf(next.parser.levels, l) == ParentOf(q.levels, l))
  {
  }

  /** An unknown due phrase aborts the loop before anything more is saved. */
  lemma StepParseError<S>(storage: Storage<S>, r: Run<S>, line: string, now: Time)
    requires r.Running? && line != "" && LineSafe(r.parser, line)
    requires ParseLine(r.parser, line, now).Err?
    ensures var next := Step(storage, r, line, now);
      next.Aborted? && next.calls == r.calls && next.store == r.store && Is(next.err, TemplateInvalidDue)
  {
    if IsItemLine(TrimSpace(line)) {
      ParseItemLine(r.parser, line, now);
    } else {
      ParseDetailLine(r.parser, line, now);
    }
  }

  /** Empty lines are skipped: a loop over only empty lines changes nothing. */
  lemma {:induction false} EmptyLinesSkipped<S>(storage: Storage<S>, r: Run<S>, lines: seq<string>, now: Time)
    requires forall k :: 0 <= k < |lines| ==> lines[k] == ""
    ensures RunFrom(storage, r, lines, now) == r
    decreases |lines|
  {
    if lines != [] {
      assert lines[0] == "";
      EmptyLinesSkipped(storage, r, lines[1..], now);
    }
  }

  /** A line that creates an item at `level`. */
  predicate ItemAt(line: string, level: int)
  {
    line != "" && IsItemLine(TrimSpace(line)) && Level(line) == level
  }

  /** How many lines create an item at `level`. */
  function CountItemsAt(lines: seq<string>, level: int): (n: nat)
    ensures n <= |lines|
    ensures n == 0 <==> forall i :: 0 <= i < |lines| ==> !ItemAt(lines[i], level)
  {
    if lines == [] then 0 else (if ItemAt(lines[0], level) then 1 else 0) + CountItemsAt(lines[1..], level)
  }

  /** Counting item lines distributes over concatenation of the lines. */
  lemma {:induction false} CountItemsAppend(a: seq<string>, b: seq<string>, level: int)
    ensures CountItemsAt(a + b, level) == CountItemsAt(a, level) + CountItemsAt(b, level)
    decreases |a|
  {
    if a != [] {
      assert (a + b)[0] == a[0];
      assert (a + b)[1..] == a[1..] + b;
      CountItemsAppend(a[1..], b, level);
    } else {
      assert a + b == b;
    }
  }

  /** One step moves the order counter of `level` by one, wrapping around at 2^64,
      exactly when the line creates an item at that level. */
  lemma StepOrder<S>(storage: Storage<S>, r: Run<S>, line: string, now: Time, level: int)
    requires r.Running? && Step(storage, r, line, now).Running?
    ensures var next := Step(storage, r, line, now);
      OrderOf(next.parser.levels, level) == if ItemAt(line, level) then Inc(OrderOf(r.parser.levels, level))
                                            else OrderOf(r.parser.levels, level)
  {
    if line != "" {
      var q := ParseLine(r.parser, line, now);
      StepSaves(storage, r, line, now);
      if IsItemLine(TrimSpace(line)) {
        ParseItemLine(r.parser, line, now);
      } else {
        ParseDetailLine(r.parser, line, now);
      }
    }
  }

  /** The order counters are per level, not per parent: over a loop that runs to the end,
      the counter of a level is incremented once for each item made at that level
      anywhere in the text. */
  lemma {:induction false} RunOrder<S>(storage: Storage<S>, r: Run<S>, lines: seq<string>, now: Time, level: int)
    requires r.Running? && RunFrom(storage, r, lines, now).Running?
    ensures OrderOf(RunFrom(storage, r, lines, now).parser.levels, level)
         == IncTimes(OrderOf(r.parser.levels, level), CountItemsAt(lines, level))
    decreases |lines|
  {
    if lines != [] {
      var next := Step(storage, r, lines[0], now);
      var last := RunFrom(storage, next, lines[1..], now);
      RunningThrough(storage, r, lines, now);
      StepOrder(storage, r, lines[0], now, level);
      RunOrder(storage, next, lines[1..], now, level);
      CountStep(OrderOf(r.parser.levels, level), OrderOf(next.parser.levels, level),
        OrderOf(last.parser.levels, level), ItemAt(lines[0], level), CountItemsAt(lines[1..], level),
        CountItemsAt(lines, level));
    }
  }

  /** One step of `RunOrder`: an increment, then `c` more. */
  lemma CountStep(x: U64, y: U64, z: U64, item: bool, c: nat, n: nat)
    requires y == (if item then Inc(x) else x)
    requires z == IncTimes(y, c)
    requires n == (if item then 1 else 0) + c
    ensures z == IncTimes(x, n)
  {
    if item {
      IncTimesShift(x, c);
    }
  }

  /** The same count as a sum: the counter of a level ends at its start plus the number
      of items at that level, modulo 2^64. */
  lemma RunOrderWraps<S>(storage: Storage<S>, r: Run<S>, lines: seq<string>, now: Time, level: int)
    requires r.Running? && RunFrom(storage, r, lines, now).Running?
    ensures OrderOf(RunFrom(storage, r, lines, now).parser.levels, level) as int
         == (OrderOf(r.parser.levels, level) as int + CountItemsAt(lines, level)) % TWO64
  {
    RunOrder(storage, r, lines, now, level);
    IncTimesIsAdd(OrderOf(r.parser.levels, level), CountItemsAt(lines, level));
  }

}
