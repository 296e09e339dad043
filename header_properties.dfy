/**
 * Properties of the breadcrumb header that relate several of its parts, and concrete
 * cases of its behaviour.
 */
module HeaderProperties {
  import opened JsStrings
  import opened Header

  // ---------------------------------------------------------------------------
  // Run lookup and run label together

  /**
   * A selected run id that no run has still gets its Run breadcrumb, but that breadcrumb
   * has no label to show.
   */
  lemma StaleRunShowsEmptyLabel(h: HeaderInputs)
    requires Truthy(h.selected.runId) && !RunExists(h.dagRuns, h.selected.runId.value)
    ensures var cs := Breadcrumbs(h);
      exists k :: 0 <= k < |cs| && cs[k].level == RunLevel && cs[k].value == RunValue(None)
  {
    var cs := Breadcrumbs(h);
    assert HasLevel(cs, RunLevel);
    var k :| 0 <= k < |cs| && cs[k].level == RunLevel;
    assert cs[k] == CrumbFor(h, RunLevel);
  }

  /**
   * A selected run id that some run has always gets a label, with the icon of the first
   * such run; when the id carries no run-type marker the label is the id itself.
   */
  lemma {:induction false} ResolvedRunLabel(runs: seq<DagRun>, runId: string, ordering: seq<string>)
    requires runId != "" && RunExists(runs, runId)
    ensures var l := RunLabelOf(FindRun(runs, Some(runId)), Some(runId), ordering);
      l.Some?
      && (exists i :: 0 <= i < |runs| && runs[i].runId == runId && l.value.icon == runs[i].runType
                     && forall j :: 0 <= j < i ==> runs[j].runId != runId)
      && (!HasRunTypeMarker(runId) ==> l.value.name == Literal(runId))
  {
    var r := FindRun(runs, Some(runId));
    var i :| 0 <= i < |runs| && runs[i] == r.value && r.value.runId == runId
             && forall j :: 0 <= j < i ==> runs[j].runId != runId;
    assert runs[i].runType == r.value.runType;
  }

  // ---------------------------------------------------------------------------
  // The shape of the trail

  /** The deepest level shown: Map Index, else Task, else Run, else DAG. */
  function DeepestShown(sel: Selection): (l: Level)
    ensures Shown(sel, l)
    ensures forall m :: Shown(sel, m) ==> Rank(m) <= Rank(l)
  {
    if sel.mapIndex.Some? then MapIndexLevel
    else if Truthy(sel.taskId) then TaskLevel
    else if Truthy(sel.runId) then RunLevel
    else DagLevel
  }

  /** The last breadcrumb is the one of the deepest level the selection reaches. */
  lemma LastCrumbIsDeepest(h: HeaderInputs)
    ensures var cs := Breadcrumbs(h);
      cs[|cs| - 1].level == DeepestShown(h.selected)
      && cs[|cs| - 1] == CrumbFor(h, DeepestShown(h.selected))
  {
    var cs := Breadcrumbs(h);
    var d := DeepestShown(h.selected);
    assert HasLevel(cs, d);
    var k :| 0 <= k < |cs| && cs[k].level == d;
    var last := cs[|cs| - 1].level;
    assert Shown(h.selected, last);
    assert Rank(last) <= Rank(d);
    if k < |cs| - 1 {
      assert false;
    }
  }

  /**
   * A selected task without a map index makes the Task breadcrumb the last one, and it
   * still has a click handler: it selects the task alone.
   */
  lemma LastTaskCrumbIsClickable(h: HeaderInputs)
    requires Truthy(h.selected.taskId) && h.selected.mapIndex.None?
    ensures var cs := Breadcrumbs(h);
      cs[|cs| - 1].level == TaskLevel
      && cs[|cs| - 1].onClick == Select(Selection(h.selected.taskId, None, None))
  {
    LastCrumbIsDeepest(h);
  }

  /**
   * The Map Index breadcrumb is the only one without a click handler: every other
   * breadcrumb asks the store for something.
   */
  lemma OnlyMapIndexIsInert(h: HeaderInputs, k: nat)
    requires k < |Breadcrumbs(h)|
    ensures Breadcrumbs(h)[k].onClick == NoOp <==> Breadcrumbs(h)[k].level == MapIndexLevel
  {
  }

  /** Clicking any breadcrumb never selects a map index. */
  lemma ClicksNeverSelectMapIndex(h: HeaderInputs, k: nat)
    requires k < |Breadcrumbs(h)|
    ensures Breadcrumbs(h)[k].onClick.Select? ==> Breadcrumbs(h)[k].onClick.partial.mapIndex.None?
  {
  }

  // ---------------------------------------------------------------------------
  // Concrete cases

  /** A stale run with a stale task clears the selection; a stale run alone keeps only the task. */
  lemma ReconcileCases(runs: seq<DagRun>)
    requires forall i :: 0 <= i < |runs| ==> runs[i].runId != "manual__x"
    ensures Reconcile(Selection(Some("t1"), Some("manual__x"), Some(3)), runs, None) == Clear
    ensures Reconcile(Selection(None, Some("manual__x"), None), runs, None) == Select(NoSelection)
    ensures Reconcile(Selection(Some("t1"), Some("manual__x"), Some(3)), runs, Some(TaskGroup(true)))
            == Select(Selection(Some("t1"), None, None))
    ensures Reconcile(Selection(Some("t1"), Some(""), None), runs, None) == NoOp
  {
  }

  /**
   * A selected task id that does not resolve is left alone unless the selected run is
   * stale too: the effect only acts on a truthy run id that no run has.
   */
  lemma StaleTaskAloneIsKept(sel: Selection, runs: seq<DagRun>)
    requires Truthy(sel.taskId)
    requires !Truthy(sel.runId) || RunExists(runs, sel.runId.value)
    ensures Reconcile(sel, runs, None) == NoOp
  {
  }

  /** The task name of a task id in a group is its last segment. */
  lemma TaskNameOfGroupedId()
    ensures TaskName(Some("group1.task2")) == Some("task2")
  {
    var t := "group1.task2";
    assert t[7..] == "task2";
    assert LastIndexOf(t, '.') == 6 by {
      assert t[6] == '.' && '.' !in t[7..];
    }
  }

  /** The task name of a task id in nested groups is its last segment. */
  lemma TaskNameOfNestedId()
    ensures TaskName(Some("a.b.c")) == Some("c")
  {
    var t := "a.b.c";
    assert t[4..] == "c";
    assert LastIndexOf(t, '.') == 3 by {
      assert t[3] == '.' && '.' !in t[4..];
    }
  }

  /** A task id without a `.`, or whose only `.` leads, is its own task name. */
  lemma TaskNameOfUndottedId()
    ensures TaskName(Some("task1")) == Some("task1")
    ensures TaskName(Some(".hidden")) == Some(".hidden")
    ensures TaskName(Some("")) == Some("")
    ensures TaskName(None) == None
  {
    assert '.' !in "task1";
    var t := ".hidden";
    assert t[1..] == "hidden";
    assert LastIndexOf(t, '.') == 0 by {
      assert t[0] == '.' && '.' !in t[1..];
    }
  }

  /** A run id with a run-type marker at its start or after a custom prefix gets a formatted time. */
  lemma RunTypeMarkerAnywhere()
    ensures HasRunTypeMarker("manual__2023-01-01T00:00:00")
    ensures HasRunTypeMarker("custom_backfill__1")
  {
    assert OccursAt("manual__2023-01-01T00:00:00", "manual__", 0);
    assert OccursAt("custom_backfill__1", "backfill__", 7);
  }

  /** Every run-type marker holds a `_`, so a run id without one is shown literally. */
  lemma NoUnderscoreNoMarker(runId: string)
    requires '_' !in runId
    ensures !HasRunTypeMarker(runId)
  {
    var markers := ["manual__", "scheduled__", "backfill__", "dataset_triggered__"];
    forall m | m in markers ensures !Contains(runId, m) {
      assert m[|m| - 1] == '_';
      if Contains(runId, m) { ContainsKeepsChars(runId, m, '_'); }
    }
    assert markers[0] in markers && markers[1] in markers && markers[2] in markers && markers[3] in markers;
  }

  /** `my-custom-run-id` carries no run-type marker. */
  lemma CustomRunIdIsLiteral()
    ensures !HasRunTypeMarker("my-custom-run-id")
  {
    NoUnderscoreNoMarker("my-custom-run-id");
  }

  /** A map index of 0 is shown, as the raw number when no rendered map index is available. */
  lemma MapIndexZeroIsShown(h: HeaderInputs)
    requires h.selected.mapIndex == Some(0)
    requires h.renderedMapIndex == None || h.renderedMapIndex == Some("")
    ensures var cs := Breadcrumbs(h);
      exists k :: 0 <= k < |cs| && cs[k] == Crumb(MapIndexLevel, "Map Index", MapIndexValue(Raw(0)), NoOp)
  {
    var cs := Breadcrumbs(h);
    assert HasLevel(cs, MapIndexLevel);
    var k :| 0 <= k < |cs| && cs[k].level == MapIndexLevel;
    assert MapIndexShownOf(0, h.renderedMapIndex) == Raw(0);
    assert cs[k] == CrumbFor(h, MapIndexLevel);
  }

  /** A run and a task selected without a map index leave every depth flag false. */
  lemma RunAndTaskWithoutMapIndexHasNoFlag()
    ensures Depth(Selection(Some("t1"), Some("r1"), None)) == DepthFlags(false, false, false, false)
  {
  }
}
