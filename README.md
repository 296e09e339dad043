# Breadcrumb header of the Airflow DAG details view, modelled in Dafny

The `Header` component of Airflow's grid view draws the breadcrumb trail
DAG / Run / Task / Map Index for the current selection (a task id, a run id and a
map index, each of which may be absent). Besides rendering, it holds a small
amount of selection logic, which this project models and proves things about:

- **Run lookup.** It finds the first run in the grid data whose id is the selected run id.
- **Stale-selection correction.** An effect clears the selection when both the
  selected run and the selected task no longer resolve. It narrows the selection to
  the task alone when only the run is stale.
- **Run label.** A resolved run with a non-empty id gets a label: a formatted time when
  the id contains one of the run-type markers `manual__`, `scheduled__`, `backfill__`
  or `dataset_triggered__`, and the id itself otherwise.
- **Task name.** This is the part of the task id after its last `.`. JavaScript
  truthiness keeps ids without a `.`, and ids whose only `.` is the first character, whole.
- **Depth flags.** These are `isDagDetails`, `isRunDetails`, `isTaskDetails` and `isMappedTaskDetails`.
- **The trail.** It covers which levels appear, in which order, what each shows
  (the mapped-task suffix ` []`, the rendered map index or the raw one) and what
  clicking each selects.

Files:

- `js_strings.dfy` (module `JsStrings`) holds the JavaScript semantics the component
  relies on: `undefined` as `None`, string truthiness (`undefined` and `""` are falsy),
  `lastIndexOf` and `includes`, each proved against an independent definition.
- `header.dfy` (module `Header`) holds the component's data, the run lookup, the
  correction, the labels, the depth flags and the trail. The class `SelectionCalls`
  records the `clearSelection`/`onSelect` calls the effect and the click handlers make.
- `header_properties.dfy` (module `HeaderProperties`) holds lemmas relating several
  parts, and concrete cases of its behaviour.

Three behaviours of the code are worth knowing, and the model follows the code in each:

- The run-type markers are matched with `includes` (Header.tsx:74-77), so a marker
  counts wherever it occurs in the run id, not only as a prefix.
  `RunTypeMarkerAnywhere` shows `custom_backfill__1` being recognised.
- The DAG, Run and Task breadcrumbs always have an `onClick` (Header.tsx:103, 112 and
  122), and the Map Index breadcrumb has none (Header.tsx:138). So the deepest
  breadcrumb keeps its click handler unless it is Map Index
  (`OnlyMapIndexIsInert`, `LastTaskCrumbIsClickable`).
- The comment at Header.tsx:61 says the selection is removed when the run id and/or the
  task id cannot be found, but the effect at Header.tsx:63-66 only acts on a stale run id.
  A task id that does not resolve is kept when the run resolves or no run is selected
  (`StaleTaskAloneIsKept`).

Inputs that come from code outside this file are parameters:

- the task group that `getTask` returns for the selected task id (`HeaderInputs.group`);
- the fetched task instance's `renderedMapIndex`;
- the DAG id read from the page metadata;
- the run list and ordering from the grid data.

## Model

| member | source | states |
|---|---|---|
| `JsStrings.LastIndexOf` | airflow/www/static/js/dag/details/Header.tsx:90 | the result is -1 exactly when the character is absent, and otherwise an index holding it with no occurrence after it |
| `JsStrings.Includes` | airflow/www/static/js/dag/details/Header.tsx:74-77 | `includes` is true exactly when the pattern occurs at some position of the string |
| `Header.FindRun` | airflow/www/static/js/dag/details/Header.tsx:57 | a run is found exactly when the run id is set and some run has it; the run found is the first with that id |
| `Header.Reconcile` | airflow/www/static/js/dag/details/Header.tsx:57-68 | clear exactly when run id and task id are truthy, no run has the run id and no group resolved; narrow to `{taskId}` (no run id, no map index) exactly when the run id is truthy and stale and the task resolved or is falsy; no correction exactly when the run id is falsy or some run has it |
| `Header.CorrectionSettles` | airflow/www/static/js/dag/details/Header.tsx:62-68 | a narrowing drops the run id, so the selection it asks for would not be corrected again, whatever the task lookup returns; neither would the empty selection a clearing leaves |
| `Header.RunLabelOf` | airflow/www/static/js/dag/details/Header.tsx:70-88 | a label exists exactly when the run resolved and the run id is non-empty; its icon is the run's type; it is the formatted time exactly when the id contains one of the four markers anywhere, and the literal id otherwise |
| `Header.TaskName` | airflow/www/static/js/dag/details/Header.tsx:90-92 | with a `.` after the first character the name is the dot-free suffix after the last `.`; otherwise (no `.`, or only a leading one) the id itself; a falsy id comes back unchanged |
| `Header.Depth` | airflow/www/static/js/dag/details/Header.tsx:94-97 | each flag holds exactly under its own truthiness condition; at most one holds, and none holds exactly when run id and task id are truthy and the map index is undefined |
| `Header.TaskCrumbText` | airflow/www/static/js/dag/details/Header.tsx:131 | the task value is the task name followed by ` []` exactly when the resolved group is mapped, and the task name alone otherwise |
| `Header.MapIndexShownOf` | airflow/www/static/js/dag/details/Header.tsx:143 | the rendered map index is shown exactly when it is a non-empty string; otherwise the raw map index |
| `Header.TaskClickTarget` | airflow/www/static/js/dag/details/Header.tsx:122-126 | clicking Task selects `{runId, taskId}` when a map index is defined and `{taskId}` otherwise, never a map index |
| `Header.Levels` | airflow/www/static/js/dag/details/Header.tsx:101-147 | the DAG level comes first; each level appears at most once and in DAG, Run, Task, Map Index order; Run, Task and Map Index appear exactly when run id is truthy, task id is truthy and map index is defined (0 included) |
| `Header.CrumbFor` | airflow/www/static/js/dag/details/Header.tsx:101-147 | each level's label text, value and click target: DAG clears, Run selects `{runId}`, Task as in `TaskClickTarget`, Map Index has no click handler |
| `Header.Breadcrumbs` | airflow/www/static/js/dag/details/Header.tsx:99-148 | the trail starts with the DAG breadcrumb, is strictly ordered by depth, holds a level exactly when that level is shown, and each breadcrumb is its level's |
| `Header.SelectionCalls.ClearSelection` | airflow/www/static/js/dag/details/Header.tsx:46 | a `clearSelection()` call is recorded after the earlier calls |
| `Header.SelectionCalls.OnSelect` | airflow/www/static/js/dag/details/Header.tsx:45 | an `onSelect(partial)` call is recorded after the earlier calls |
| `Header.SelectionCalls.CorrectionEffect` | airflow/www/static/js/dag/details/Header.tsx:62-68 | one run of the effect makes exactly the call `Reconcile` decides, or none |
| `Header.SelectionCalls.Click` | airflow/www/static/js/dag/details/Header.tsx:103-126 | a click makes exactly the breadcrumb's click call, or none for Map Index |
| `HeaderProperties.StaleRunShowsEmptyLabel` | airflow/www/static/js/dag/details/Header.tsx:57-115 | a truthy run id that no run has still gets a Run breadcrumb, whose value has no label |
| `HeaderProperties.ResolvedRunLabel` | airflow/www/static/js/dag/details/Header.tsx:57-88 | a non-empty run id that some run has always gets a label, with the icon of the first such run, and the literal id when no marker occurs |
| `HeaderProperties.LastCrumbIsDeepest` | airflow/www/static/js/dag/details/Header.tsx:99-148 | the last breadcrumb is the deepest level shown: Map Index, else Task, else Run, else DAG |
| `HeaderProperties.LastTaskCrumbIsClickable` | airflow/www/static/js/dag/details/Header.tsx:119-126 | with a task and no map index, Task is the last breadcrumb and clicking it selects `{taskId}` |
| `HeaderProperties.OnlyMapIndexIsInert` | airflow/www/static/js/dag/details/Header.tsx:101-147 | a breadcrumb has no click handler exactly when it is the Map Index one |
| `HeaderProperties.ClicksNeverSelectMapIndex` | airflow/www/static/js/dag/details/Header.tsx:103-126 | no click handler selects a map index |
| `HeaderProperties.ReconcileCases` | airflow/www/static/js/dag/details/Header.tsx:62-68 | a stale run with a stale task clears; a stale run with no task or a resolved task narrows to `{taskId}`; an empty run id is never corrected |
| `HeaderProperties.StaleTaskAloneIsKept` | airflow/www/static/js/dag/details/Header.tsx:61-68 | a truthy task id that does not resolve is not corrected when the run id is falsy or some run has it, although the comment at line 61 speaks of a task that can't be found |
| `HeaderProperties.TaskNameOfGroupedId` | airflow/www/static/js/dag/details/Header.tsx:90-92 | `group1.task2` is named `task2` |
| `HeaderProperties.TaskNameOfNestedId` | airflow/www/static/js/dag/details/Header.tsx:90-92 | `a.b.c` is named `c` |
| `HeaderProperties.TaskNameOfUndottedId` | airflow/www/static/js/dag/details/Header.tsx:90-92 | `task1`, `.hidden` and the empty id are their own names, and an undefined id has none |
| `HeaderProperties.RunTypeMarkerAnywhere` | airflow/www/static/js/dag/details/Header.tsx:73-77 | `manual__2023-01-01T00:00:00` and `custom_backfill__1` (marker after a custom prefix) both get a formatted time |
| `HeaderProperties.NoUnderscoreNoMarker` | airflow/www/static/js/dag/details/Header.tsx:73-81 | every marker holds `_`, so any run id without `_` is shown literally |
| `HeaderProperties.CustomRunIdIsLiteral` | airflow/www/static/js/dag/details/Header.tsx:73-81 | `my-custom-run-id` carries no marker and is shown literally |
| `HeaderProperties.MapIndexZeroIsShown` | airflow/www/static/js/dag/details/Header.tsx:136-143 | map index 0 gets a Map Index breadcrumb, showing the raw 0 when no non-empty rendered index is available |
| `HeaderProperties.RunAndTaskWithoutMapIndexHasNoFlag` | airflow/www/static/js/dag/details/Header.tsx:94-97 | a run and a task without a map index leave all four depth flags false |

## Left out

- Rendering (Chakra `Breadcrumb` components, `Text` separators) is not modelled; it is layout with no behaviour.
- The `isCurrentPage` and `_hover` styling props are not modelled, for the same reason.
- `useEffect` scheduling is not modelled. The effect is one evaluation per input change (`Reconcile`, `SelectionCalls.CorrectionEffect`).
- The re-render cycle is not modelled; it is framework timing.
- `useSelection` is modelled only through the calls the header makes on it (`SelectionCalls`). How `onSelect` merges a partial selection into the store, and what `clearSelection` resets, are not part of this model.
- `useGridData` and `useTaskInstance` are data fetching. Their results are inputs.
- The arguments handed to `useTaskInstance` (`runId || ""`, `enabled: mapIndex !== undefined`) are not modelled, because the fetch itself is outside the model.
- `getMetaValue("dag_id")` is a page read; the DAG id is an input string.
- `getTask` is not part of this model; its result for the selected task id is an input, `HeaderInputs.group`.
- `getDagRunLabel`, `Time`, `RunTypeIcon` and `BreadcrumbText` are not part of this model. A formatted time is the value `FormattedTime(run, ordering)`, and the icon is the run's type.
- A map index is a JavaScript number. The model takes it as an unbounded integer, which is exact for the integer indices the store holds.
