/**
 * The history drawer of the diagram editor: the list of saved versions of a
 * diagram, newest first, each numbered and labelled with how long ago it was
 * saved, and a restore button that hands the version's code back to the
 * editor and closes the drawer.
 *
 * The backend query is a parameter (its reply), and so is the elapsed time
 * of each version (`now - created_at`, in milliseconds). The per-entry
 * preview renderer and its render queue are not modelled.
 */
module HistoryDrawer {
  import opened Model

  // ------------------------------------------------------------ relative time

  const MinuteMs := 60000
  const HourMs := 3600000
  const DayMs := 86400000

  /** `formatRelativeTime`'s outcome; `AbsoluteDate` falls back to `formatDate`. */
  datatype Label = JustNow | MinutesAgo(count: int) | HoursAgo(count: int) | DaysAgo(count: int) | AbsoluteDate

  /**
   * `formatRelativeTime` for an elapsed time in milliseconds. `Math.floor` of
   * a quotient by a positive divisor is Dafny's `/`, negative times included.
   */
  function RelativeLabel(diffMs: int): (l: Label)
    ensures l.MinutesAgo? ==> 1 <= l.count < 60
    ensures l.HoursAgo? ==> 1 <= l.count < 24
    ensures l.DaysAgo? ==> 1 <= l.count < 7
  {
    var diffMins := diffMs / MinuteMs;
    var diffHours := diffMs / HourMs;
    var diffDays := diffMs / DayMs;
    if diffMins < 1 then JustNow
    else if diffMins < 60 then MinutesAgo(diffMins)
    else if diffHours < 24 then HoursAgo(diffHours)
    else if diffDays < 7 then DaysAgo(diffDays)
    else AbsoluteDate
  }

  /**
   * The label in terms of the elapsed time: under a minute (or in the future)
   * "just now"; then whole minutes below an hour, whole hours below a day,
   * whole days below a week; after that the absolute date. Each count is the
   * number of whole units elapsed.
   */
  lemma RelativeLabelThresholds(diffMs: int)
    ensures RelativeLabel(diffMs) == JustNow <==> diffMs < MinuteMs
    ensures RelativeLabel(diffMs).MinutesAgo? <==> MinuteMs <= diffMs < HourMs
    ensures RelativeLabel(diffMs).HoursAgo? <==> HourMs <= diffMs < DayMs
    ensures RelativeLabel(diffMs).DaysAgo? <==> DayMs <= diffMs < 7 * DayMs
    ensures RelativeLabel(diffMs) == AbsoluteDate <==> 7 * DayMs <= diffMs
    ensures RelativeLabel(diffMs).MinutesAgo? ==>
      var n := RelativeLabel(diffMs).count; 1 <= n < 60 && n * MinuteMs <= diffMs < (n + 1) * MinuteMs
    ensures RelativeLabel(diffMs).HoursAgo? ==>
      var n := RelativeLabel(diffMs).count; 1 <= n < 24 && n * HourMs <= diffMs < (n + 1) * HourMs
    ensures RelativeLabel(diffMs).DaysAgo? ==>
      var n := RelativeLabel(diffMs).count; 1 <= n < 7 && n * DayMs <= diffMs < (n + 1) * DayMs
  {
    FloorBelow(diffMs, MinuteMs, 1);
    FloorBelow(diffMs, MinuteMs, 60);
    FloorBelow(diffMs, HourMs, 24);
    FloorBelow(diffMs, DayMs, 7);
    FloorBounds(diffMs, MinuteMs);
    FloorBounds(diffMs, HourMs);
    FloorBounds(diffMs, DayMs);
  }

  /** `floor(x / d) < k` exactly when `x < k * d`. */
  lemma FloorBelow(x: int, d: int, k: int)
    requires d > 0
    ensures x / d < k <==> x < k * d
  {
    FloorBounds(x, d);
    if x / d < k {
      assert (x / d + 1) * d <= k * d by { MulMonotone(x / d + 1, k, d); }
    } else {
      assert k * d <= (x / d) * d by { MulMonotone(k, x / d, d); }
    }
  }

  /** `floor(x / d) * d <= x < (floor(x / d) + 1) * d` */
  lemma FloorBounds(x: int, d: int)
    requires d > 0
    ensures (x / d) * d <= x < (x / d + 1) * d
  {
    assert x == (x / d) * d + x % d;
  }

  lemma MulMonotone(a: int, b: int, d: int)
    requires a <= b && d > 0
    ensures a * d <= b * d
  {
    assert b * d - a * d == (b - a) * d;
  }

  /** Three sample ages: 30 seconds, two hours and three days. */
  lemma SampleLabels()
    ensures RelativeLabel(30000) == JustNow
    ensures RelativeLabel(-5000) == JustNow
    ensures RelativeLabel(2 * HourMs) == HoursAgo(2)
    ensures RelativeLabel(3 * DayMs + 1) == DaysAgo(3)
  {
  }

  // ------------------------------------------------------------ the timeline

  /** What one entry of the timeline shows. */
  datatype Row = Row(number: int, connector: bool, title: string, code: string)

  /** `item.user_prompt || t('editor.manualSave')`: a missing or empty prompt shows as a manual save. */
  function PromptTitle(userPrompt: Option<string>, manualSave: string): (title: string)
    ensures userPrompt.Some? && userPrompt.value != [] ==> title == userPrompt.value
    ensures !(userPrompt.Some? && userPrompt.value != []) ==> title == manualSave
  {
    if userPrompt.Some? && userPrompt.value != [] then userPrompt.value else manualSave
  }

  /** The rows the drawer lists for the loaded history, newest (first) to oldest. */
  function Timeline(history: seq<DiagramHistory>, manualSave: string): (rows: seq<Row>)
    ensures |rows| == |history|
    ensures forall i :: 0 <= i < |history| ==>
      rows[i].code == history[i].mermaidCode && rows[i].title == PromptTitle(history[i].userPrompt, manualSave)
  {
    seq(|history|, i requires 0 <= i < |history| =>
      Row(|history| - i, i < |history| - 1, PromptTitle(history[i].userPrompt, manualSave), history[i].mermaidCode))
  }

  /**
   * The numbers count down from the number of versions to 1, one per entry
   * and all different, and only the oldest entry has no connector below it.
   */
  lemma TimelineNumbering(history: seq<DiagramHistory>, manualSave: string)
    requires history != []
    ensures var rows := Timeline(history, manualSave);
      rows[0].number == |history| && rows[|rows| - 1].number == 1 &&
      (forall i, j :: 0 <= i < j < |rows| ==> rows[i].number > rows[j].number) &&
      (forall i :: 0 <= i < |rows| ==> (rows[i].connector <==> rows[i].number > 1))
  {
  }

  // ------------------------------------------------------------ the drawer

  /** What the restore button reports to the editor, in order. */
  datatype Callback = Restore(code: string) | Close

  class Drawer {
    var history: seq<DiagramHistory>
    var loading: bool

    constructor ()
      ensures history == [] && !loading
    {
      history := [];
      loading := false;
    }

    /**
     * `loadHistory` with the reply of the query (the 50 newest versions of the
     * diagram): the list is replaced by the rows, or emptied when there are
     * none; an error is only logged and leaves the list; loading ends in every case.
     */
    method LoadHistory(reply: Reply<seq<DiagramHistory>>)
      modifies this
      ensures !loading
      ensures reply.Failed? ==> history == old(history)
      ensures reply.Answered? ==> history == Or(reply.data, [])
    {
      loading := true;
      match reply {
        case Failed(_) =>
        case Answered(data) =>
          history := Or(data, []);
      }
      loading := false;
    }

    /** The effect on opening: the history is loaded only when open for a diagram. */
    method OnOpen(isOpen: bool, diagramId: string, reply: Reply<seq<DiagramHistory>>)
      modifies this
      ensures isOpen && diagramId != [] ==>
        !loading && history == (if reply.Failed? then old(history) else Or(reply.data, []))
      ensures !(isOpen && diagramId != []) ==> history == old(history) && loading == old(loading)
    {
      if isOpen && diagramId != [] {
        LoadHistory(reply);
      }
    }

    /** The restore button of entry `i`: the entry's code goes to the editor, then the drawer closes. */
    method HandleRestore(i: int) returns (calls: seq<Callback>)
      requires 0 <= i < |history|
      ensures calls == [Restore(history[i].mermaidCode), Close]
    {
      calls := [Restore(history[i].mermaidCode)];
      calls := calls + [Close];
    }
  }
}
