/** `AddTemplate` run against a new memory store: the records the built-in outline seeds,
    computed line by line. */
module MemoryTemplate {
  import opened Base
  import opened Strs
  import opened Entity
  import opened MemoryStore
  import opened Interactor
  import opened MemoryPort
  import opened Template

  /** A line that does not start with a space is at level 0; indented once it is at level 1. */
  lemma IndentLevel(x: string)
    requires x != [] && x[0] != ' '
    ensures Level(x) == 0 && Level(Indent + x) == 1
  {
    var s := Indent + x;
    assert s[1..][1..][1..][1..] == x;
    assert LeadingSpaces(s[3..]) == 1 by { assert s[3..][1..] == x; }
    assert LeadingSpaces(s[2..]) == 2 by { assert s[2..][1..] == s[3..]; }
    assert LeadingSpaces(s[1..]) == 3 by { assert s[1..][1..] == s[2..]; }
  }

  /** The text of the line under `+ Inbox` (two literals joined, as in the outline). */
  const InboxNote: string := "Inbox is the place " + "to dump your thoughts into."

  /** An item as the outline creates it, before its first save. */
  function Fresh(title: string, typ: ItemType, order: U64, parent: int): Item
  {
    ZeroItem.(Title := title, Type := typ, Order := order, ParentItemID := parent)
  }

  /** The same item once saved under `id` at `now`. */
  function Stored(title: string, typ: ItemType, order: U64, parent: int, id: int, now: Time): Item
  {
    Fresh(title, typ, order, parent).(ID := id, CreatedAt := now, UpdatedAt := now)
  }

  /** `+ Inbox`: the first category, order 1 under the root, gets ID 1. */
  lemma InboxLine(now: Time, calls: seq<Call>)
    ensures var inbox := Stored("Inbox", ItemTypeCategory, 1, RootID, 1, now);
      Step(MemoryStorage(now), Running(Start, EmptyStore, calls), TemplateLines[1], now)
      == Running(Parser(Levels(1, 1, 0), false, Some(inbox)),
                 Store(2, [inbox]), calls + [SaveItem(Fresh("Inbox", ItemTypeCategory, 1, RootID))])
  {
    var line := TemplateLines[1];
    assert line == "+ Inbox";
    TrimIndented(line);
    IndentLevel(line);
    assert line[2..] == "Inbox";
    var levels := EnsureLevels(map[], 0);
    assert levels == map[0 := LevelInfo(RootID, 0), 1 := LevelInfo(RootID, 0)];
    var born := Fresh("Inbox", ItemTypeCategory, 1, RootID);
    var q := Parser(map[0 := LevelInfo(RootID, 1), 1 := LevelInfo(RootID, 0)], false, Some(born));
    assert line[0] == '+';
    assert Inc(0) == 1;
    assert levels[0 := LevelInfo(RootID, 1)] == q.levels;
    assert ItemLine(levels, 0, "Inbox", ItemTypeCategory, false) == q;
    assert ParseLine(Start, line, now) == Ok(q);
    var inbox := Stored("Inbox", ItemTypeCategory, 1, RootID, 1, now);
    assert Save(EmptyStore, born, now) == Saved(Store(2, [inbox]), 1, inbox);
    assert q.levels[1 := q.levels[1].(ParentID := 1)] == Levels(1, 1, 0);
  }

  /** The per-level counters while the outline is read: level 0 hands out orders under the
      root, level 1 under the last category saved. */
  function Levels(o0: U64, p1: int, o1: U64): map<int, LevelInfo>
  {
    map[0 := LevelInfo(RootID, o0), 1 := LevelInfo(p1, o1)]
  }

  /** The same with level 2, under the last task saved. */
  function Levels3(o0: U64, p1: int, o1: U64, p2: int): map<int, LevelInfo>
  {
    Levels(o0, p1, o1)[2 := LevelInfo(p2, 0)]
  }

  /** The five records the outline seeds, as a new memory store takes them at `now`. */
  function InboxRecord(now: Time): Item
  {
    Stored("Inbox", ItemTypeCategory, 1, RootID, 1, now).(Description := InboxNote + "\n")
  }

  function WelcomeRecord(now: Time): Item
  {
    Stored("Welcome!", ItemTypeTask, 1, 1, 2, now).(Due := now, Description := "This is the description\n")
  }

  function HelpRecord(now: Time): Item
  {
    Stored("Press ? to show help", ItemTypeTask, 2, 1, 3, now).(Due := now)
  }

  function KeysRecord(now: Time): Item
  {
    Stored("Use j/k to move down/up", ItemTypeTask, 3, 1, 4, now).(Due := now)
  }

  function ProjectsRecord(now: Time): Item
  {
    Stored("Projects", ItemTypeCategory, 2, RootID, 5, now)
  }

  /** The line under `+ Inbox` becomes its description, and the record is saved again. */
  lemma InboxNoteLine(now: Time, calls: seq<Call>)
    ensures var inbox := Stored("Inbox", ItemTypeCategory, 1, RootID, 1, now);
      Step(MemoryStorage(now), Running(Parser(Levels(1, 1, 0), false, Some(inbox)), Store(2, [inbox]), calls), TemplateLines[3], now)
      == Running(Parser(Levels(1, 1, 0), false, Some(InboxRecord(now))),
                 Store(2, [InboxRecord(now)]), calls + [SaveItem(InboxRecord(now))])
  {
    var line := TemplateLines[3];
    assert line == InboxNote;
    TrimIndented(line);
    IndentLevel(line);
    var inbox := Stored("Inbox", ItemTypeCategory, 1, RootID, 1, now);
    var p := Parser(Levels(1, 1, 0), false, Some(inbox));
    assert EnsureLevels(p.levels, 0) == p.levels;
    assert "" + line + "\n" == InboxNote + "\n";
    var q := Parser(Levels(1, 1, 0), false, Some(InboxRecord(now)));
    assert ParseLine(p, line, now) == Ok(q);
    assert Stamp(InboxRecord(now), now) == InboxRecord(now);
    assert Save(Store(2, [inbox]), InboxRecord(now), now) == Saved(Store(2, [InboxRecord(now)]), 1, InboxRecord(now));
    assert q.levels[1 := q.levels[1].(ParentID := 1)] == q.levels;
  }

  /** `[ ] Welcome!`: the first task, order 1 at level 1 under Inbox, gets ID 2. */
  lemma WelcomeLine(now: Time, calls: seq<Call>)
    ensures var w := Stored("Welcome!", ItemTypeTask, 1, 1, 2, now);
      Step(MemoryStorage(now), Running(Parser(Levels(1, 1, 0), false, Some(InboxRecord(now))), Store(2, [InboxRecord(now)]), calls), TemplateLines[5], now)
      == Running(Parser(Levels3(1, 1, 1, 2), true, Some(w)),
                 Store(3, [InboxRecord(now)] + [w]), calls + [SaveItem(Fresh("Welcome!", ItemTypeTask, 1, 1))])
  {
    var x := "[ ] Welcome!";
    var line := TemplateLines[5];
    assert line == Indent + x;
    TrimIndented(x);
    IndentLevel(x);
    assert x[0] == '[' && x[4..] == "Welcome!";
    var p := Parser(Levels(1, 1, 0), false, Some(InboxRecord(now)));
    var levels := EnsureLevels(p.levels, 1);
    assert levels == Levels3(1, 1, 0, RootID);
    var born := Fresh("Welcome!", ItemTypeTask, 1, 1);
    var q := Parser(Levels3(1, 1, 1, RootID), true, Some(born));
    assert Inc(0) == 1;
    assert levels[1 := LevelInfo(1, 1)] == q.levels;
    assert ItemLine(levels, 1, "Welcome!", ItemTypeTask, true) == q;
    assert ParseLine(p, line, now) == Ok(q);
    var w := Stored("Welcome!", ItemTypeTask, 1, 1, 2, now);
    assert Save(Store(2, [InboxRecord(now)]), born, now) == Saved(Store(3, [InboxRecord(now)] + [w]), 2, w);
    assert q.levels[2 := q.levels[2].(ParentID := 2)] == Levels3(1, 1, 1, 2);
  }

  /** A later `[ ] title` line at level 1: the next order under Inbox, and the next ID. */
  lemma TaskLine(now: Time, calls: seq<Call>, o1: U64, p2: int, last: Item, counter: int, before: seq<Item>, title: string)
    requires o1 < 3 && title != [] && !IsSpace(title[|title| - 1])
    ensures var o := (o1 + 1) as U64;
      var t := Stored(title, ItemTypeTask, o, 1, counter, now);
      Step(MemoryStorage(now), Running(Parser(Levels3(1, 1, o1, p2), false, Some(last)), Store(counter, before), calls), Indent + "[ ] " + title, now)
      == Running(Parser(Levels3(1, 1, o, counter), true, Some(t)),
                 Store(counter + 1, before + [t]), calls + [SaveItem(Fresh(title, ItemTypeTask, o, 1))])
  {
    ParseTask(now, o1, p2, last, title);
    var o := (o1 + 1) as U64;
    var born := Fresh(title, ItemTypeTask, o, 1);
    var q := Parser(Levels(1, 1, o)[2 := LevelInfo(p2, 0)], true, Some(born));
    var t := Stored(title, ItemTypeTask, o, 1, counter, now);
    assert Save(Store(counter, before), born, now) == Saved(Store(counter + 1, before + [t]), counter, t);
    assert q.levels[2 := q.levels[2].(ParentID := counter)] == Levels3(1, 1, o, counter);
  }

  /** A record appended after records with other IDs is found last. */
  lemma FoundLast(before: seq<Item>, x: Item)
    requires forall j :: 0 <= j < |before| ==> before[j].ID != x.ID
    ensures IndexOf(before + [x], x.ID) == Some(|before|)
  {
    var items := before + [x];
    assert items[|before|] == x;
    assert forall j :: 0 <= j < |before| ==> items[j] == before[j];
  }

  /** The parse of a later `[ ] title` line at level 1. */
  lemma ParseTask(now: Time, o1: U64, p2: int, last: Item, title: string)
    requires o1 < 3 && title != [] && !IsSpace(title[|title| - 1])
    ensures var o := (o1 + 1) as U64;
      var p := Parser(Levels3(1, 1, o1, p2), false, Some(last));
      LineSafe(p, Indent + "[ ] " + title) && Level(Indent + "[ ] " + title) == 1
      && ParseLine(p, Indent + "[ ] " + title, now)
         == Ok(Parser(Levels(1, 1, o)[2 := LevelInfo(p2, 0)], true, Some(Fresh(title, ItemTypeTask, o, 1))))
  {
    var x := "[ ] " + title;
    var line := Indent + "[ ] " + title;
    assert line == Indent + x;
    TrimIndented(x);
    IndentLevel(x);
    assert x[0] == '[' && x[4..] == title;
    var p := Parser(Levels3(1, 1, o1, p2), false, Some(last));
    assert EnsureLevels(p.levels, 1) == p.levels;
    var o := (o1 + 1) as U64;
    assert Inc(o1) == o;
    var q := Parser(Levels(1, 1, o)[2 := LevelInfo(p2, 0)], true, Some(Fresh(title, ItemTypeTask, o, 1)));
    assert p.levels[1 := LevelInfo(1, o)] == q.levels;
    assert ItemLine(p.levels, 1, title, ItemTypeTask, true) == q;
  }

  /** `today` under a task just created: its due becomes `now` and the record is saved in
      place. */
  lemma DueLine(now: Time, calls: seq<Call>, o1: U64, task: Item, counter: int, before: seq<Item>)
    requires task.ID > 0 && task.CreatedAt == now && task.UpdatedAt == now
    requires forall j :: 0 <= j < |before| ==> before[j].ID != task.ID
    ensures var done := task.(Due := now);
      Step(MemoryStorage(now), Running(Parser(Levels3(1, 1, o1, task.ID), true, Some(task)), Store(counter, before + [task]), calls), Indent + "today", now)
      == Running(Parser(Levels3(1, 1, o1, task.ID), false, Some(done)),
                 Store(counter, before + [done]), calls + [SaveItem(done)])
  {
    var line := Indent + "today";
    TrimIndented("today");
    IndentLevel("today");
    assert "today"[0] == 't';
    var p := Parser(Levels3(1, 1, o1, task.ID), true, Some(task));
    assert EnsureLevels(p.levels, 1) == p.levels;
    assert ParseDue("today", now) == Ok(now);
    var done := task.(Due := now);
    var q := Parser(p.levels, false, Some(done));
    assert ParseLine(p, line, now) == Ok(q);
    assert Stamp(done, now) == done;
    var items := before + [task];
    FoundLast(before, task);
    assert items[|before| := done] == before + [done];
    assert Save(Store(counter, items), done, now) == Saved(Store(counter, before + [done]), task.ID, done);
    assert q.levels[2 := q.levels[2].(ParentID := task.ID)] == q.levels;
  }

  /** The parse of line 7: the text goes into Welcome's description. */
  lemma ParseDescription(now: Time)
    ensures var w := Stored("Welcome!", ItemTypeTask, 1, 1, 2, now).(Due := now);
      var p := Parser(Levels3(1, 1, 1, 2), false, Some(w));
      TemplateLines[7] != "" && LineSafe(p, TemplateLines[7]) && Level(TemplateLines[7]) == 1
      && ParseLine(p, TemplateLines[7], now) == Ok(Parser(Levels3(1, 1, 1, 2), false, Some(WelcomeRecord(now))))
  {
    var x := "This is the description";
    var line := TemplateLines[7];
    assert line == Indent + x;
    TrimIndented(x);
    IndentLevel(x);
    assert x[0] == 'T';
    var w := Stored("Welcome!", ItemTypeTask, 1, 1, 2, now).(Due := now);
    var p := Parser(Levels3(1, 1, 1, 2), false, Some(w));
    assert EnsureLevels(p.levels, 1) == p.levels;
    assert "" + x + "\n" == "This is the description\n";
  }

  /** The line under Welcome's due becomes its description. */
  lemma DescriptionLine(now: Time, calls: seq<Call>)
    ensures var w := Stored("Welcome!", ItemTypeTask, 1, 1, 2, now).(Due := now);
      Step(MemoryStorage(now), Running(Parser(Levels3(1, 1, 1, 2), false, Some(w)), Store(3, [InboxRecord(now)] + [w]), calls), TemplateLines[7], now)
      == Running(Parser(Levels3(1, 1, 1, 2), false, Some(WelcomeRecord(now))),
                 Store(3, [InboxRecord(now)] + [WelcomeRecord(now)]), calls + [SaveItem(WelcomeRecord(now))])
  {
    ParseDescription(now);
    var w := Stored("Welcome!", ItemTypeTask, 1, 1, 2, now).(Due := now);
    var q := Parser(Levels3(1, 1, 1, 2), false, Some(WelcomeRecord(now)));
    assert Stamp(WelcomeRecord(now), now) == WelcomeRecord(now);
    FoundLast([InboxRecord(now)], w);
    assert ([InboxRecord(now)] + [w])[1 := WelcomeRecord(now)] == [InboxRecord(now)] + [WelcomeRecord(now)];
    assert Save(Store(3, [InboxRecord(now)] + [w]), WelcomeRecord(now), now)
        == Saved(Store(3, [InboxRecord(now)] + [WelcomeRecord(now)]), 2, WelcomeRecord(now));
    assert q.levels[2 := q.levels[2].(ParentID := 2)] == q.levels;
  }

  /** The levels once `+ Projects` is saved. */
  function FinalLevels(): map<int, LevelInfo>
  {
    map[0 := LevelInfo(RootID, 2), 1 := LevelInfo(5, 3), 2 := LevelInfo(4, 0)]
  }

  /** `+ Projects`: the second category, order 2 under the root, gets ID 5. */
  lemma ProjectsLine(now: Time, calls: seq<Call>, before: seq<Item>)
    ensures Step(MemoryStorage(now), Running(Parser(Levels3(1, 1, 3, 4), false, Some(KeysRecord(now))), Store(5, before), calls), TemplateLines[14], now)
      == Running(Parser(FinalLevels(), false, Some(ProjectsRecord(now))),
                 Store(6, before + [ProjectsRecord(now)]), calls + [SaveItem(Fresh("Projects", ItemTypeCategory, 2, RootID))])
  {
    var line := TemplateLines[14];
    assert line == "+ Projects";
    TrimIndented(line);
    IndentLevel(line);
    assert line[0] == '+' && line[2..] == "Projects";
    var p := Parser(Levels3(1, 1, 3, 4), false, Some(KeysRecord(now)));
    assert EnsureLevels(p.levels, 0) == p.levels;
    assert Inc(1) == 2;
    var born := Fresh("Projects", ItemTypeCategory, 2, RootID);
    var q := Parser(map[0 := LevelInfo(RootID, 2), 1 := LevelInfo(1, 3), 2 := LevelInfo(4, 0)], false, Some(born));
    assert p.levels[0 := LevelInfo(RootID, 2)] == q.levels;
    assert ItemLine(p.levels, 0, "Projects", ItemTypeCategory, false) == q;
    assert ParseLine(p, line, now) == Ok(q);
    assert Save(Store(5, before), born, now) == Saved(Store(6, before + [ProjectsRecord(now)]), 5, ProjectsRecord(now));
    assert q.levels[1 := q.levels[1].(ParentID := 5)] == FinalLevels();
  }

  /** The records a new memory store holds once the outline is added. */
  function SeededStore(now: Time): Store
  {
    Store(6, [InboxRecord(now), WelcomeRecord(now), HelpRecord(now), KeysRecord(now), ProjectsRecord(now)])
  }

  /** The `SaveItem` calls the outline makes, one per non-empty line. */
  function SeedCalls(now: Time): seq<Call>
  {
    var welcome := Stored("Welcome!", ItemTypeTask, 1, 1, 2, now);
    [SaveItem(Fresh("Inbox", ItemTypeCategory, 1, RootID)), SaveItem(InboxRecord(now)),
     SaveItem(Fresh("Welcome!", ItemTypeTask, 1, 1)), SaveItem(welcome.(Due := now)), SaveItem(WelcomeRecord(now)),
     SaveItem(Fresh("Press ? to show help", ItemTypeTask, 2, 1)), SaveItem(HelpRecord(now)),
     SaveItem(Fresh("Use j/k to move down/up", ItemTypeTask, 3, 1)), SaveItem(KeysRecord(now)),
     SaveItem(Fresh("Projects", ItemTypeCategory, 2, RootID))]
  }

  /** A prefix followed by the next element is the longer prefix. */
  lemma PrefixSnoc<T>(s: seq<T>, m: nat)
    requires m < |s|
    ensures s[..m] + [s[m]] == s[..m + 1]
  {
  }

  /** The loop's state once the first `n` lines of the outline are read. */
  function Read(n: nat, now: Time): Run<Store>
  {
    var c := SeedCalls(now);
    var inbox := Stored("Inbox", ItemTypeCategory, 1, RootID, 1, now);
    var w := Stored("Welcome!", ItemTypeTask, 1, 1, 2, now);
    var h := Stored("Press ? to show help", ItemTypeTask, 2, 1, 3, now);
    var j := Stored("Use j/k to move down/up", ItemTypeTask, 3, 1, 4, now);
    var one := [InboxRecord(now)];
    var two := one + [WelcomeRecord(now)];
    var three := two + [HelpRecord(now)];
    if n <= 1 then Running(Start, EmptyStore, [])
    else if n <= 3 then Running(Parser(Levels(1, 1, 0), false, Some(inbox)), Store(2, [inbox]), c[..1])
    else if n <= 5 then Running(Parser(Levels(1, 1, 0), false, Some(InboxRecord(now))), Store(2, one), c[..2])
    else if n == 6 then Running(Parser(Levels3(1, 1, 1, 2), true, Some(w)), Store(3, one + [w]), c[..3])
    else if n == 7 then Running(Parser(Levels3(1, 1, 1, 2), false, Some(w.(Due := now))), Store(3, one + [w.(Due := now)]), c[..4])
    else if n <= 9 then Running(Parser(Levels3(1, 1, 1, 2), false, Some(WelcomeRecord(now))), Store(3, two), c[..5])
    else if n == 10 then Running(Parser(Levels3(1, 1, 2, 3), true, Some(h)), Store(4, two + [h]), c[..6])
    else if n <= 12 then Running(Parser(Levels3(1, 1, 2, 3), false, Some(HelpRecord(now))), Store(4, three), c[..7])
    else if n == 13 then Running(Parser(Levels3(1, 1, 3, 4), true, Some(j)), Store(5, three + [j]), c[..8])
    else if n == 14 then Running(Parser(Levels3(1, 1, 3, 4), false, Some(KeysRecord(now))), Store(5, three + [KeysRecord(now)]), c[..9])
    else Running(Parser(FinalLevels(), false, Some(ProjectsRecord(now))), SeededStore(now), c)
  }

  /** A loop that goes from `rs[k]` to `rs[k + 1]` on each line `lines[k]` ends in the last
      state of `rs`. */
  lemma {:induction false} Chain<S>(storage: Storage<S>, rs: seq<Run<S>>, lines: seq<string>, now: Time)
    requires |rs| == |lines| + 1
    requires forall k :: 0 <= k < |lines| ==> Step(storage, rs[k], lines[k], now) == rs[k + 1]
    ensures RunFrom(storage, rs[0], lines, now) == rs[|lines|]
    decreases |lines|
  {
    if lines != [] {
      assert forall k :: 0 <= k < |lines| - 1 ==> rs[1..][k] == rs[k + 1] && lines[1..][k] == lines[k + 1];
      Chain(storage, rs[1..], lines[1..], now);
    }
  }

  /** The seeded records, one after the other. */
  lemma SeededItems(now: Time)
    ensures [InboxRecord(now)] + [WelcomeRecord(now)] + [HelpRecord(now)] + [KeysRecord(now)] + [ProjectsRecord(now)]
         == SeededStore(now).items
  {
  }

  /** Line 1 of the outline, `+ Inbox`, read from the start. */
  lemma Line1(now: Time)
    ensures Step(MemoryStorage(now), Read(1, now), TemplateLines[1], now) == Read(2, now)
  {
    var c := SeedCalls(now);
    InboxLine(now, []);
    assert [] + [c[0]] == c[..1];
  }

  /** Line 3, the note under Inbox. */
  lemma Line3(now: Time)
    ensures Step(MemoryStorage(now), Read(3, now), TemplateLines[3], now) == Read(4, now)
  {
    var c := SeedCalls(now);
    InboxNoteLine(now, c[..1]);
    PrefixSnoc(c, 1);
  }

  /** Line 5, `[ ] Welcome!`. */
  lemma Line5(now: Time)
    ensures Step(MemoryStorage(now), Read(5, now), TemplateLines[5], now) == Read(6, now)
  {
    var c := SeedCalls(now);
    WelcomeLine(now, c[..2]);
    PrefixSnoc(c, 2);
  }

  /** Line 6, Welcome's due. */
  lemma Line6(now: Time)
    ensures Step(MemoryStorage(now), Read(6, now), TemplateLines[6], now) == Read(7, now)
  {
    var c := SeedCalls(now);
    assert TemplateLines[6] == Indent + "today";
    var w := Stored("Welcome!", ItemTypeTask, 1, 1, 2, now);
    var one := [InboxRecord(now)];
    DueLine(now, c[..3], 1, w, 3, one);
    PrefixSnoc(c, 3);
    assert Read(6, now) == Running(Parser(Levels3(1, 1, 1, 2), true, Some(w)), Store(3, one + [w]), c[..3]);
    assert Read(7, now) == Running(Parser(Levels3(1, 1, 1, 2), false, Some(w.(Due := now))), Store(3, one + [w.(Due := now)]), c[..4]);
  }

  /** Line 7, Welcome's description. */
  lemma Line7(now: Time)
    ensures Step(MemoryStorage(now), Read(7, now), TemplateLines[7], now) == Read(8, now)
  {
    var c := SeedCalls(now);
    DescriptionLine(now, c[..4]);
    PrefixSnoc(c, 4);
    var w := Stored("Welcome!", ItemTypeTask, 1, 1, 2, now).(Due := now);
    var one := [InboxRecord(now)];
    assert Read(7, now) == Running(Parser(Levels3(1, 1, 1, 2), false, Some(w)), Store(3, one + [w]), c[..4]);
    assert Read(8, now) == Running(Parser(Levels3(1, 1, 1, 2), false, Some(WelcomeRecord(now))), Store(3, one + [WelcomeRecord(now)]), c[..5]);
  }

  /** Line 9, `[ ] Press ? to show help`. */
  lemma Line9(now: Time)
    ensures Step(MemoryStorage(now), Read(9, now), TemplateLines[9], now) == Read(10, now)
  {
    var c := SeedCalls(now);
    assert TemplateLines[9] == Indent + "[ ] " + "Press ? to show help";
    var two := [InboxRecord(now)] + [WelcomeRecord(now)];
    TaskLine(now, c[..5], 1, 2, WelcomeRecord(now), 3, two, "Press ? to show help");
    PrefixSnoc(c, 5);
    var h := Stored("Press ? to show help", ItemTypeTask, 2, 1, 3, now);
    assert Read(9, now) == Running(Parser(Levels3(1, 1, 1, 2), false, Some(WelcomeRecord(now))), Store(3, two), c[..5]);
    assert Read(10, now) == Running(Parser(Levels3(1, 1, 2, 3), true, Some(h)), Store(4, two + [h]), c[..6]);
  }

  /** Line 10, its due. */
  lemma Line10(now: Time)
    ensures Step(MemoryStorage(now), Read(10, now), TemplateLines[10], now) == Read(11, now)
  {
    var c := SeedCalls(now);
    assert TemplateLines[10] == Indent + "today";
    var h := Stored("Press ? to show help", ItemTypeTask, 2, 1, 3, now);
    var two := [InboxRecord(now)] + [WelcomeRecord(now)];
    DueLine(now, c[..6], 2, h, 4, two);
    PrefixSnoc(c, 6);
    assert h.(Due := now) == HelpRecord(now);
    assert Read(10, now) == Running(Parser(Levels3(1, 1, 2, 3), true, Some(h)), Store(4, two + [h]), c[..6]);
    assert Read(11, now) == Running(Parser(Levels3(1, 1, 2, 3), false, Some(h.(Due := now))), Store(4, two + [h.(Due := now)]), c[..7]);
  }

  /** Line 12, `[ ] Use j/k to move down/up`. */
  lemma Line12(now: Time)
    ensures Step(MemoryStorage(now), Read(12, now), TemplateLines[12], now) == Read(13, now)
  {
    var c := SeedCalls(now);
    assert TemplateLines[12] == Indent + "[ ] " + "Use j/k to move down/up";
    var three := [InboxRecord(now)] + [WelcomeRecord(now)] + [HelpRecord(now)];
    TaskLine(now, c[..7], 2, 3, HelpRecord(now), 4, three, "Use j/k to move down/up");
    PrefixSnoc(c, 7);
    var j := Stored("Use j/k to move down/up", ItemTypeTask, 3, 1, 4, now);
    assert Read(12, now) == Running(Parser(Levels3(1, 1, 2, 3), false, Some(HelpRecord(now))), Store(4, three), c[..7]);
    assert Read(13, now) == Running(Parser(Levels3(1, 1, 3, 4), true, Some(j)), Store(5, three + [j]), c[..8]);
  }

  /** Line 13, its due. */
  lemma Line13(now: Time)
    ensures Step(MemoryStorage(now), Read(13, now), TemplateLines[13], now) == Read(14, now)
  {
    var c := SeedCalls(now);
    assert TemplateLines[13] == Indent + "today";
    var j := Stored("Use j/k to move down/up", ItemTypeTask, 3, 1, 4, now);
    var three := [InboxRecord(now)] + [WelcomeRecord(now)] + [HelpRecord(now)];
    DueLine(now, c[..8], 3, j, 5, three);
    PrefixSnoc(c, 8);
    assert j.(Due := now) == KeysRecord(now);
    assert Read(13, now) == Running(Parser(Levels3(1, 1, 3, 4), true, Some(j)), Store(5, three + [j]), c[..8]);
    assert Read(14, now) == Running(Parser(Levels3(1, 1, 3, 4), false, Some(j.(Due := now))), Store(5, three + [j.(Due := now)]), c[..9]);
  }

  /** Line 14, `+ Projects`. */
  lemma Line14(now: Time)
    ensures Step(MemoryStorage(now), Read(14, now), TemplateLines[14], now) == Read(15, now)
  {
    var c := SeedCalls(now);
    var before := [InboxRecord(now)] + [WelcomeRecord(now)] + [HelpRecord(now)] + [KeysRecord(now)];
    ProjectsLine(now, c[..9], before);
    SeededItems(now);
    PrefixSnoc(c, 9);
    assert c[..10] == c;
    assert Read(14, now) == Running(Parser(Levels3(1, 1, 3, 4), false, Some(KeysRecord(now))), Store(5, before), c[..9]);
    assert Read(15, now) == Running(Parser(FinalLevels(), false, Some(ProjectsRecord(now))), Store(6, before + [ProjectsRecord(now)]), c[..10]);
  }

  /** `AddTemplate` on a new memory store: the loop reads the whole outline without an
      error and leaves the five seeded records, after one `SaveItem` per non-empty line. */
  lemma TemplateSeedsMemory(now: Time)
    ensures RunFrom(MemoryStorage(now), Running(Start, EmptyStore, []), TemplateLines, now)
         == Running(Parser(FinalLevels(), false, Some(ProjectsRecord(now))), SeededStore(now), SeedCalls(now))
  {
    var storage := MemoryStorage(now);
    var rs := seq(17, n requires 0 <= n => Read(n, now));
    forall k | 0 <= k < 16 ensures Step(storage, rs[k], TemplateLines[k], now) == rs[k + 1] {
      if k == 1 { Line1(now); }
      else if k == 3 { Line3(now); }
      else if k == 5 { Line5(now); }
      else if k == 6 { Line6(now); }
      else if k == 7 { Line7(now); }
      else if k == 9 { Line9(now); }
      else if k == 10 { Line10(now); }
      else if k == 12 { Line12(now); }
      else if k == 13 { Line13(now); }
      else if k == 14 { Line14(now); }
    }
    Chain(storage, rs, TemplateLines, now);
  }

  /** The seeded store is well formed: five distinct IDs, 1 to 5, below the counter 6. */
  lemma SeededWellFormed(now: Time)
    ensures WellFormed(SeededStore(now))
  {
  }

  /** The records under the root among the first 2 to 5 of the outline's records. */
  lemma RootKids2(i: Item, w: Item)
    requires i.ParentItemID == RootID && w.ParentItemID == 1
    ensures Children([i, w], RootID) == [i]
  {
    assert [i, w][..1] == [i];
    assert [i][..0] == [];
  }

  lemma RootKids3(i: Item, w: Item, h: Item)
    requires i.ParentItemID == RootID && w.ParentItemID == 1 && h.ParentItemID == 1
    ensures Children([i, w, h], RootID) == [i]
  {
    assert [i, w, h][..2] == [i, w];
    RootKids2(i, w);
  }

  lemma RootKids4(i: Item, w: Item, h: Item, k: Item)
    requires i.ParentItemID == RootID && w.ParentItemID == 1 && h.ParentItemID == 1 && k.ParentItemID == 1
    ensures Children([i, w, h, k], RootID) == [i]
  {
    assert [i, w, h, k][..3] == [i, w, h];
    RootKids3(i, w, h);
  }

  lemma RootKids5(i: Item, w: Item, h: Item, k: Item, p: Item)
    requires i.ParentItemID == RootID && w.ParentItemID == 1 && h.ParentItemID == 1 && k.ParentItemID == 1 && p.ParentItemID == RootID
    ensures Children([i, w, h, k, p], RootID) == [i, p]
  {
    assert [i, w, h, k, p][..4] == [i, w, h, k];
    RootKids4(i, w, h, k);
  }

  /** The records under Inbox among the first 2 to 5 of the outline's records. */
  lemma TaskKids2(i: Item, w: Item)
    requires i.ParentItemID == RootID && w.ParentItemID == 1
    ensures Children([i, w], 1) == [w]
  {
    assert [i, w][..1] == [i];
    assert [i][..0] == [];
  }

  lemma TaskKids3(i: Item, w: Item, h: Item)
    requires i.ParentItemID == RootID && w.ParentItemID == 1 && h.ParentItemID == 1
    ensures Children([i, w, h], 1) == [w, h]
  {
    assert [i, w, h][..2] == [i, w];
    TaskKids2(i, w);
  }

  lemma TaskKids4(i: Item, w: Item, h: Item, k: Item)
    requires i.ParentItemID == RootID && w.ParentItemID == 1 && h.ParentItemID == 1 && k.ParentItemID == 1
    ensures Children([i, w, h, k], 1) == [w, h, k]
  {
    assert [i, w, h, k][..3] == [i, w, h];
    TaskKids3(i, w, h);
  }

  lemma TaskKids5(i: Item, w: Item, h: Item, k: Item, p: Item)
    requires i.ParentItemID == RootID && w.ParentItemID == 1 && h.ParentItemID == 1 && k.ParentItemID == 1 && p.ParentItemID == RootID
    ensures Children([i, w, h, k, p], 1) == [w, h, k]
  {
    assert [i, w, h, k, p][..4] == [i, w, h, k];
    TaskKids4(i, w, h, k);
  }
  /** Three tasks in rising order are listed as they are. */
  lemma SortedTasks(w: Item, h: Item, k: Item)
    requires w.Order < h.Order < k.Order
    ensures SortByOrder([w, h, k]) == [w, h, k]
  {
    SortSorted([w, h, k]);
  }

  /** Two categories under the root with three tasks under the first one between them: the
      root lists the categories in order. */
  lemma OutlineRoot(i: Item, w: Item, h: Item, k: Item, p: Item)
    requires i.ParentItemID == RootID && p.ParentItemID == RootID && i.Order < p.Order
    requires w.ParentItemID == 1 && h.ParentItemID == 1 && k.ParentItemID == 1
    ensures Listing(Store(6, [i, w, h, k, p]), RootID) == [i, p]
  {
    RootKids5(i, w, h, k, p);
    SortSorted([i, p]);
  }

  /** The same layout lists the three tasks, in rising order, under the first category. */
  lemma OutlineTasks(i: Item, w: Item, h: Item, k: Item, p: Item)
    requires i.ParentItemID == RootID && p.ParentItemID == RootID && w.Order < h.Order < k.Order
    requires w.ParentItemID == 1 && h.ParentItemID == 1 && k.ParentItemID == 1
    ensures Listing(Store(6, [i, w, h, k, p]), 1) == [w, h, k]
  {
    TaskKids5(i, w, h, k, p);
    SortedTasks(w, h, k);
  }

  /** The seeded store lists Inbox then Projects under the root, and Welcome, Press ? and
      Use j/k in that order under Inbox. */
  lemma SeededListings(now: Time)
    ensures Listing(SeededStore(now), RootID) == [InboxRecord(now), ProjectsRecord(now)]
    ensures Listing(SeededStore(now), 1) == [WelcomeRecord(now), HelpRecord(now), KeysRecord(now)]
  {
    var i, w, h, k, p := InboxRecord(now), WelcomeRecord(now), HelpRecord(now), KeysRecord(now), ProjectsRecord(now);
    OutlineRoot(i, w, h, k, p);
    OutlineTasks(i, w, h, k, p);
  }

  /** `AddTemplate` on a new memory store returns no error and leaves the seeded store. */
  method SeedMemory(now: Time) returns (store: Store, err: Option<Error>, calls: seq<Call>)
    ensures err == None && store == SeededStore(now) && calls == SeedCalls(now)
    ensures WellFormed(store)
    ensures Listing(store, RootID) == [InboxRecord(now), ProjectsRecord(now)]
    ensures Listing(store, 1) == [WelcomeRecord(now), HelpRecord(now), KeysRecord(now)]
  {
    TemplateSeedsMemory(now);
    SeededWellFormed(now);
    SeededListings(now);
    store, err, calls := AddTemplate(MemoryStorage(now), EmptyStore, now);
  }
}
