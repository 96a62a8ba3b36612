/** The due-date phrases both parsers accept (`_parseDue` in `use/template.go` and
    `parseDue` in `cui/controller.go`, two copies of the same table). */
module Due {
  import opened Base
  import opened Strs
  import opened Entity

  /** How far after now a phrase puts the due date, once trimmed: today or tomorrow;
      `None` for a phrase neither parser knows. */
  function Offset(s: string): (r: Option<int>)
    ensures r == Some(0) <==> TrimSpace(s) == "" || TrimSpace(s) == "today"
    ensures r == Some(Day) <==> TrimSpace(s) == "tom" || TrimSpace(s) == "tomorrow"
    ensures r.None? <==> TrimSpace(s) !in {"", "today", "tom", "tomorrow"}
  {
    var t := TrimSpace(s);
    if t == "" || t == "today" then Some(0)
    else if t == "tom" || t == "tomorrow" then Some(Day)
    else None
  }
}
