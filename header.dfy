/**
 * The selection logic of the DAG details breadcrumb header (DAG / Run / Task / Map Index).
 *
 * The header reads the current selection (task id, run id, map index), looks the run up
 * in the grid's run list and takes the task group from a lookup it cannot see. From those
 * it decides whether the selection is stale and must be corrected, and it derives the
 * breadcrumb levels, their labels and what clicking each one selects.
 */
module Header {
  import opened JsStrings

  /** The kind of trigger that created a run; only handed to the run-type icon. */
  datatype RunType = Manual | Scheduled | Backfill | DatasetTriggered

  /** A run of the DAG, as the grid data lists it. */
  datatype DagRun = DagRun(runId: string, runType: RunType)

  /** The task group that the task lookup resolved the selected task id to; the header reads only whether it is mapped. */
  datatype TaskGroup = TaskGroup(isMapped: bool)

  /** The shared selection, or the partial selection handed to `onSelect`: absent fields are `None`. */
  datatype Selection = Selection(taskId: Option<string>, runId: Option<string>, mapIndex: Option<int>)

  /** The empty selection. */
  const NoSelection := Selection(None, None, None)

  /**
   * What the header asks of the selection store: `clearSelection()`, `onSelect(partial)`,
   * or nothing at all.
   */
  datatype Action = Clear | Select(partial: Selection) | NoOp

  /** Everything the header reads: the DAG id, the selection, the grid data and the fetched task instance. */
  datatype HeaderInputs = HeaderInputs(
    dagId: string,
    selected: Selection,
    dagRuns: seq<DagRun>,
    ordering: seq<string>,
    // the task group that the (unseen) task lookup returned for `selected.taskId`
    group: Option<TaskGroup>,
    // `renderedMapIndex` of the fetched task instance; `None` while pending, on error, or when absent
    renderedMapIndex: Option<string>)

  // ---------------------------------------------------------------------------
  // Run lookup

  /** Some run in `runs` has the id `id`. */
  ghost predicate RunExists(runs: seq<DagRun>, id: string) {
    exists i :: 0 <= i < |runs| && runs[i].runId == id
  }

  /**
   * `dagRuns.find((r) => r.runId === runId)`: the first run whose id is the selected run id.
   * An `undefined` run id equals no run's id.
   */
  function FindRun(runs: seq<DagRun>, runId: Option<string>): (r: Option<DagRun>)
    ensures r.Some? <==> runId.Some? && RunExists(runs, runId.value)
    ensures r.Some? ==> exists i :: 0 <= i < |runs| && runs[i] == r.value && r.value.runId == runId.value
                                   && forall j :: 0 <= j < i ==> runs[j].runId != runId.value
  {
    if |runs| == 0 then None
    else if runId == Some(runs[0].runId) then Some(runs[0])
    else
      var r := FindRun(runs[1..], runId);
      assert runId.Some? && RunExists(runs, runId.value) ==> RunExists(runs[1..], runId.value) by {
        if runId.Some? && RunExists(runs, runId.value) {
          var i :| 0 <= i < |runs| && runs[i].runId == runId.value;
          assert runs[1..][i - 1] == runs[i];
        }
      }
      assert r.Some? ==> exists i :: 0 <= i < |runs| && runs[i] == r.value && r.value.runId == runId.value
                                   && forall j :: 0 <= j < i ==> runs[j].runId != runId.value by {
        if r.Some? {
          var i :| 0 <= i < |runs[1..]| && runs[1..][i] == r.value && r.value.runId == runId.value
                   && forall j :: 0 <= j < i ==> runs[1..][j].runId != runId.value;
          assert runs[i + 1] == r.value;
          forall j | 0 <= j < i + 1 ensures runs[j].runId != runId.value {
            if j > 0 { assert runs[j] == runs[1..][j - 1]; }
          }
        }
      }
      r
  }

  // ---------------------------------------------------------------------------
  // Correcting a stale selection

  /**
   * The correction the header's effect issues for `sel`: clear everything when both the
   * selected run and the selected task are stale, otherwise narrow to the task alone
   * whenever the selected run is stale, and otherwise leave the selection as it is.
   * `group` is what the task lookup returned for `sel.taskId`.
   */
  function Reconcile(sel: Selection, runs: seq<DagRun>, group: Option<TaskGroup>): (a: Action)
    ensures a == Clear <==>
      Truthy(sel.runId) && !RunExists(runs, sel.runId.value) && Truthy(sel.taskId) && group.None?
    ensures a.Select? <==>
      Truthy(sel.runId) && !RunExists(runs, sel.runId.value) && (!Truthy(sel.taskId) || group.Some?)
    ensures a.Select? ==> a.partial.taskId == sel.taskId && a.partial.runId.None? && a.partial.mapIndex.None?
    ensures a == NoOp <==> !Truthy(sel.runId) || RunExists(runs, sel.runId.value)
  {
    var dagRun := FindRun(runs, sel.runId);
    if Truthy(sel.runId) && dagRun.None? && Truthy(sel.taskId) && group.None? then Clear
    else if Truthy(sel.runId) && dagRun.None? then Select(Selection(sel.taskId, None, None))
    else NoOp
  }

  /**
   * Every correction drops the run id, so a selection made of what a narrowing asks for,
   * like the empty selection a clearing leaves, is never corrected again, whatever the
   * task lookup returns for it.
   */
  lemma CorrectionSettles(sel: Selection, runs: seq<DagRun>, group: Option<TaskGroup>, group': Option<TaskGroup>)
    ensures Reconcile(sel, runs, group).Select? ==>
      Reconcile(Reconcile(sel, runs, group).partial, runs, group') == NoOp
    ensures Reconcile(NoSelection, runs, group') == NoOp
  {
  }

  // ---------------------------------------------------------------------------
  // The run label

  /** The run id carries one of the four run-type markers, anywhere in it. */
  ghost predicate HasRunTypeMarker(runId: string) {
    Contains(runId, "manual__") || Contains(runId, "scheduled__")
    || Contains(runId, "backfill__") || Contains(runId, "dataset_triggered__")
  }

  /** What the run breadcrumb shows after the icon: a formatted time, or the run id itself. */
  datatype RunName =
    | FormattedTime(dagRun: DagRun, ordering: seq<string>)  // the time component, given the run and the ordering
    | Literal(runId: string)

  /** The run breadcrumb's value: the run-type icon followed by the run name. */
  datatype RunLabel = RunLabel(icon: RunType, name: RunName)

  /**
   * `runLabel`: present only for a resolved run and a non-empty run id; a formatted time
   * when the run id contains a run-type marker, the run id itself otherwise.
   */
  function RunLabelOf(dagRun: Option<DagRun>, runId: Option<string>, ordering: seq<string>): (l: Option<RunLabel>)
    ensures l.Some? <==> dagRun.Some? && Truthy(runId)
    ensures l.Some? ==> l.value.icon == dagRun.value.runType
    ensures l.Some? ==> (l.value.name.FormattedTime? <==> HasRunTypeMarker(runId.value))
    ensures l.Some? && l.value.name.FormattedTime? ==> l.value.name == FormattedTime(dagRun.value, ordering)
    ensures l.Some? && l.value.name.Literal? ==> l.value.name.runId == runId.value
  {
    if dagRun.Some? && Truthy(runId) then
      var id := runId.value;
      var runName :=
        if Includes(id, "manual__") || Includes(id, "scheduled__")
           || Includes(id, "backfill__") || Includes(id, "dataset_triggered__")
        then FormattedTime(dagRun.value, ordering)
        else Literal(id);
      Some(RunLabel(dagRun.value.runType, runName))
    else None
  }

  // ---------------------------------------------------------------------------
  // The task name

  /** Some `.` in `t` sits after its first character. */
  ghost predicate DotAfterStart(t: string) {
    exists j :: 0 < j < |t| && t[j] == '.'
  }

  /**
   * `taskName`: the part of the task id after its last `.`. JavaScript truthiness makes
   * an id without a `.` (last index -1) and an id whose only `.` leads (last index 0)
   * come back whole; a falsy task id comes back as it is.
   */
  function TaskName(taskId: Option<string>): (n: Option<string>)
    ensures !Truthy(taskId) ==> n == taskId
    ensures Truthy(taskId) && !DotAfterStart(taskId.value) ==> n == taskId
    ensures Truthy(taskId) && DotAfterStart(taskId.value) ==>
      n.Some? && '.' !in n.value && |n.value| < |taskId.value|
      && taskId.value == taskId.value[..|taskId.value| - |n.value| - 1] + "." + n.value
  {
    var lastIndex := if Truthy(taskId) then Some(LastIndexOf(taskId.value, '.')) else None;
    if Truthy(taskId) && lastIndex.value != 0 then
      LastDotSplit(taskId.value);
      Some(taskId.value[lastIndex.value + 1..])
    else taskId
  }

  /** The last `.` of `t` is after its first character exactly when some `.` is, and it splits `t` in two. */
  lemma LastDotSplit(t: string)
    ensures LastIndexOf(t, '.') > 0 <==> DotAfterStart(t)
    ensures LastIndexOf(t, '.') > 0 ==>
      var k := LastIndexOf(t, '.'); t == t[..k] + "." + t[k + 1..]
  {
    var k := LastIndexOf(t, '.');
    if DotAfterStart(t) {
      var j :| 0 < j < |t| && t[j] == '.';
      assert t[j] in t;
    }
    if k > 0 {
      assert t == t[..k] + [t[k]] + t[k + 1..];
    }
  }

  // ---------------------------------------------------------------------------
  // Depth flags

  /** The header's four depth flags. */
  datatype DepthFlags = DepthFlags(isDagDetails: bool, isRunDetails: bool, isTaskDetails: bool, isMappedTaskDetails: bool)

  /** How many of the four flags hold. */
  function FlagsHolding(f: DepthFlags): nat {
    (if f.isDagDetails then 1 else 0) + (if f.isRunDetails then 1 else 0)
    + (if f.isTaskDetails then 1 else 0) + (if f.isMappedTaskDetails then 1 else 0)
  }

  /**
   * The depth flags of a selection: at most one holds, and none holds exactly when a run
   * and a task are selected without a map index.
   */
  function Depth(sel: Selection): (f: DepthFlags)
    ensures FlagsHolding(f) <= 1
    ensures FlagsHolding(f) == 0 <==> Truthy(sel.runId) && Truthy(sel.taskId) && sel.mapIndex.None?
    ensures f.isDagDetails <==> !Truthy(sel.runId) && !Truthy(sel.taskId)
    ensures f.isRunDetails <==> Truthy(sel.runId) && !Truthy(sel.taskId)
    ensures f.isTaskDetails <==> !Truthy(sel.runId) && Truthy(sel.taskId)
    ensures f.isMappedTaskDetails <==> Truthy(sel.runId) && Truthy(sel.taskId) && sel.mapIndex.Some?
  {
    DepthFlags(
      !Truthy(sel.runId) && !Truthy(sel.taskId),
      Truthy(sel.runId) && !Truthy(sel.taskId),
      !Truthy(sel.runId) && Truthy(sel.taskId),
      Truthy(sel.runId) && Truthy(sel.taskId) && sel.mapIndex.Some?)
  }

  // ---------------------------------------------------------------------------
  // Breadcrumbs

  /** The breadcrumb levels, outermost first. */
  datatype Level = DagLevel | RunLevel | TaskLevel | MapIndexLevel

  /** The position of a level in the trail. */
  function Rank(l: Level): nat {
    match l
    case DagLevel => 0
    case RunLevel => 1
    case TaskLevel => 2
    case MapIndexLevel => 3
  }

  /** The text label of each level. */
  function LevelLabel(l: Level): string {
    match l
    case DagLevel => "DAG"
    case RunLevel => "Run"
    case TaskLevel => "Task"
    case MapIndexLevel => "Map Index"
  }

  /** What the Map Index breadcrumb shows: the rendered map index, or the raw number. */
  datatype MapIndexShown = Rendered(text: string) | Raw(index: int)

  /** The value a breadcrumb shows beside its label. */
  datatype CrumbValue =
    | DagIdValue(dagId: string)
    | RunValue(runLabel: Option<RunLabel>)
    | TaskValue(text: string)
    | MapIndexValue(shown: MapIndexShown)

  /** One breadcrumb: its level, label text, value and what clicking it asks of the store (`NoOp`: no click handler). */
  datatype Crumb = Crumb(level: Level, text: string, value: CrumbValue, onClick: Action)

  /** The task breadcrumb's text: the task name, followed by ` []` exactly when the task group is mapped. */
  function TaskCrumbText(taskName: string, group: Option<TaskGroup>): (v: string)
    ensures (group.Some? && group.value.isMapped) <==> v == taskName + " []"
    ensures !(group.Some? && group.value.isMapped) ==> v == taskName
    ensures |v| >= |taskName| && v[..|taskName|] == taskName
  {
    taskName + if group.Some? && group.value.isMapped then " []" else ""
  }

  /** The Map Index breadcrumb's value: `renderedMapIndex || mapIndex`. */
  function MapIndexShownOf(mapIndex: int, renderedMapIndex: Option<string>): (v: MapIndexShown)
    ensures v.Rendered? <==> Truthy(renderedMapIndex)
    ensures v.Rendered? ==> v.text == renderedMapIndex.value
    ensures v.Raw? ==> v.index == mapIndex
  {
    if Truthy(renderedMapIndex) then Rendered(renderedMapIndex.value) else Raw(mapIndex)
  }

  /** What clicking the task breadcrumb selects: keep the run only when a map index is selected. */
  function TaskClickTarget(sel: Selection): (a: Action)
    ensures a.Select? && a.partial.taskId == sel.taskId && a.partial.mapIndex.None?
    ensures sel.mapIndex.Some? ==> a.partial.runId == sel.runId
    ensures sel.mapIndex.None? ==> a.partial.runId.None?
  {
    if sel.mapIndex.Some? then Select(Selection(sel.taskId, sel.runId, None))
    else Select(Selection(sel.taskId, None, None))
  }

  /**
   * Whether the trail shows a level: the DAG always, the Run when a run id is set, the Task
   * when a task id is set, and the Map Index when a map index is defined (0 included).
   */
  predicate Shown(sel: Selection, l: Level) {
    match l
    case DagLevel => true
    case RunLevel => Truthy(sel.runId)
    case TaskLevel => Truthy(sel.taskId)
    case MapIndexLevel => sel.mapIndex.Some?
  }

  /** The levels the trail shows, outermost first, each once. */
  function Levels(sel: Selection): (ls: seq<Level>)
    ensures |ls| >= 1 && ls[0] == DagLevel
    ensures forall i, j :: 0 <= i < j < |ls| ==> Rank(ls[i]) < Rank(ls[j])
    ensures forall l :: l in ls <==> Shown(sel, l)
  {
    [DagLevel]
    + (if Truthy(sel.runId) then [RunLevel] else [])
    + (if Truthy(sel.taskId) then [TaskLevel] else [])
    + (if sel.mapIndex.Some? then [MapIndexLevel] else [])
  }

  /** The breadcrumb of one level, when that level is shown. */
  function CrumbFor(h: HeaderInputs, l: Level): (c: Crumb)
    requires Shown(h.selected, l)
    ensures c.level == l && c.text == LevelLabel(l)
    ensures c.onClick == NoOp <==> l == MapIndexLevel
    ensures l == DagLevel ==> c == Crumb(DagLevel, "DAG", DagIdValue(h.dagId), Clear)
    ensures l == RunLevel ==>
      c.onClick == Select(Selection(None, h.selected.runId, None))
      && c.value == RunValue(RunLabelOf(FindRun(h.dagRuns, h.selected.runId), h.selected.runId, h.ordering))
    ensures l == TaskLevel ==>
      TaskName(h.selected.taskId).Some?
      && c.onClick == TaskClickTarget(h.selected)
      && c.value == TaskValue(TaskCrumbText(TaskName(h.selected.taskId).value, h.group))
    ensures l == MapIndexLevel ==>
      c.value == MapIndexValue(MapIndexShownOf(h.selected.mapIndex.value, h.renderedMapIndex))
  {
    var sel := h.selected;
    match l
    case DagLevel => Crumb(DagLevel, LevelLabel(l), DagIdValue(h.dagId), Clear)
    case RunLevel =>
      Crumb(RunLevel, LevelLabel(l), RunValue(RunLabelOf(FindRun(h.dagRuns, sel.runId), sel.runId, h.ordering)),
            Select(Selection(None, sel.runId, None)))
    case TaskLevel =>
      Crumb(TaskLevel, LevelLabel(l), TaskValue(TaskCrumbText(TaskName(sel.taskId).value, h.group)), TaskClickTarget(sel))
    case MapIndexLevel =>
      Crumb(MapIndexLevel, LevelLabel(l), MapIndexValue(MapIndexShownOf(sel.mapIndex.value, h.renderedMapIndex)), NoOp)
  }

  /** The trail holds a breadcrumb of level `l`. */
  ghost predicate HasLevel(cs: seq<Crumb>, l: Level) {
    exists k :: 0 <= k < |cs| && cs[k].level == l
  }

  /**
   * The breadcrumb trail: the DAG first, then each shown level once, outermost first,
   * each with the breadcrumb that level's label, value and click handler make.
   */
  function Breadcrumbs(h: HeaderInputs): (cs: seq<Crumb>)
    ensures |cs| >= 1 && cs[0] == Crumb(DagLevel, "DAG", DagIdValue(h.dagId), Clear)
    ensures forall i, j :: 0 <= i < j < |cs| ==> Rank(cs[i].level) < Rank(cs[j].level)
    ensures forall l :: HasLevel(cs, l) <==> Shown(h.selected, l)
    ensures forall k :: 0 <= k < |cs| ==> Shown(h.selected, cs[k].level) && cs[k] == CrumbFor(h, cs[k].level)
  {
    var ls := Levels(h.selected);
    var cs := seq(|ls|, k requires 0 <= k < |ls| => CrumbFor(h, ls[k]));
    assert forall k :: 0 <= k < |cs| ==> cs[k].level == ls[k];
    TrailFollowsLevels(h.selected, ls, cs);
    cs
  }

  /** A trail whose breadcrumbs carry, one for one, the shown levels in order shows exactly those levels, in order. */
  lemma TrailFollowsLevels(sel: Selection, ls: seq<Level>, cs: seq<Crumb>)
    requires forall l :: l in ls <==> Shown(sel, l)
    requires forall i, j :: 0 <= i < j < |ls| ==> Rank(ls[i]) < Rank(ls[j])
    requires |cs| == |ls| && forall k :: 0 <= k < |ls| ==> cs[k].level == ls[k]
    ensures forall i, j :: 0 <= i < j < |cs| ==> Rank(cs[i].level) < Rank(cs[j].level)
    ensures forall l :: HasLevel(cs, l) <==> Shown(sel, l)
    ensures forall k :: 0 <= k < |cs| ==> Shown(sel, cs[k].level)
  {
    forall l ensures HasLevel(cs, l) <==> Shown(sel, l) {
      if Shown(sel, l) {
        var k :| 0 <= k < |ls| && ls[k] == l;
        assert cs[k].level == l;
      }
      if HasLevel(cs, l) {
        var k :| 0 <= k < |cs| && cs[k].level == l;
        assert ls[k] in ls;
      }
    }
    forall k | 0 <= k < |cs| ensures Shown(sel, cs[k].level) {
      assert ls[k] in ls;
    }
  }

  // ---------------------------------------------------------------------------
  // The calls the header makes on the selection store

  /** The calls an action makes on the store: none for `NoOp`, one otherwise. */
  function Emitted(a: Action): (calls: seq<Action>)
    ensures NoOp !in calls
    ensures |calls| <= 1
    ensures a != NoOp ==> calls == [a]
  {
    if a == NoOp then [] else [a]
  }

  /**
   * The selection store as the header sees it: a sink for `clearSelection()` and
   * `onSelect(partial)` calls, recorded in the order they are made.
   */
  class SelectionCalls {
    var made: seq<Action>

    constructor ()
      ensures made == []
    {
      made := [];
    }

    /** `clearSelection()`. */
    method ClearSelection()
      modifies this
      ensures made == old(made) + [Clear]
    {
      made := made + [Clear];
    }

    /** `onSelect(partial)`. */
    method OnSelect(partial: Selection)
      modifies this
      ensures made == old(made) + [Select(partial)]
    {
      made := made + [Select(partial)];
    }

    /**
     * One run of the header's correction effect: looks the selected run up and calls
     * `clearSelection` or `onSelect({ taskId })` when the selection is stale.
     */
    method CorrectionEffect(sel: Selection, runs: seq<DagRun>, group: Option<TaskGroup>)
      modifies this
      ensures made == old(made) + Emitted(Reconcile(sel, runs, group))
    {
      var dagRun := FindRun(runs, sel.runId);
      if Truthy(sel.runId) && dagRun.None? && Truthy(sel.taskId) && group.None? {
        ClearSelection();
      } else if Truthy(sel.runId) && dagRun.None? {
        OnSelect(Selection(sel.taskId, None, None));
      }
    }

    /** A click on a breadcrumb: runs its click handler, if it has one. */
    method Click(c: Crumb)
      modifies this
      ensures made == old(made) + Emitted(c.onClick)
    {
      match c.onClick
      case Clear => ClearSelection();
      case Select(partial) => OnSelect(partial);
      case NoOp =>
    }
  }
}
