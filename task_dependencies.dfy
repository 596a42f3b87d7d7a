/**
 * The dependency block of a task's detail view: the tasks it is blocked by
 * and the tasks it blocks, the choice of tasks that can still be linked, and
 * what adding or removing a link does to the block's state.
 */
module TaskDependencies {
  import opened Wrappers
  import opened ClientModel

  /** A linked task as the dependency endpoint lists it. */
  datatype Dep = Dep(id: int, title: string, status: string, priority: string)

  datatype Deps = Deps(blockedBy: seq<Dep>, blocking: seq<Dep>)

  /**
   * The block's state. The selection is None while the picker shows its
   * empty entry; otherwise it is the id of the chosen option (the picker's
   * values are task ids, so `Number(selectedTaskId)` is that id).
   */
  datatype View = View(deps: Deps, loading: bool, adding: bool, selected: Option<int>, error: string)

  /** The state a freshly mounted block starts in. */
  const Initial := View(Deps([], []), true, false, None, "")

  function Ids(ds: seq<Dep>): (r: set<int>)
    ensures forall d :: d in ds ==> d.id in r
    ensures forall x :: x in r ==> exists d :: d in ds && d.id == x
  {
    set d | d in ds :: d.id
  }

  /** The task itself and every task already linked to it in either direction. */
  function LinkedIds(taskId: int, deps: Deps): (r: set<int>)
    ensures taskId in r
    ensures forall x :: x in r <==> x == taskId || x in Ids(deps.blockedBy) || x in Ids(deps.blocking)
  {
    {taskId} + Ids(deps.blockedBy) + Ids(deps.blocking)
  }

  function CanLink(linked: set<int>, t: ApiTask): bool {
    t.id !in linked && !t.completed
  }

  /** The tasks the picker offers, in the order of the task list. */
  function LinkableOptions(allTasks: seq<ApiTask>, taskId: int, deps: Deps): seq<ApiTask> {
    var linked := LinkedIds(taskId, deps);
    Filter(allTasks, t => CanLink(linked, t))
  }

  /**
   * A task is offered exactly when it is in the list, is not the task itself,
   * is not yet linked either way, and is not completed; the offers keep the
   * list's order.
   */
  lemma LinkableMeaning(allTasks: seq<ApiTask>, taskId: int, deps: Deps)
    ensures var r := LinkableOptions(allTasks, taskId, deps);
      SubseqOf(r, allTasks)
      && forall t :: t in r <==>
           t in allTasks && t.id != taskId && !t.completed
           && (forall d :: d in deps.blockedBy ==> d.id != t.id)
           && (forall d :: d in deps.blocking ==> d.id != t.id)
  {
    var linked := LinkedIds(taskId, deps);
    FilterIsSubseq(allTasks, t => CanLink(linked, t));
    FilterMembers(allTasks, t => CanLink(linked, t));
  }

  /** With nothing linked, every open task other than the task itself is offered. */
  lemma NothingLinkedOffersOpenTasks(allTasks: seq<ApiTask>, taskId: int)
    requires forall t :: t in allTasks ==> t.id != taskId && !t.completed
    ensures LinkableOptions(allTasks, taskId, Deps([], [])) == allTasks
  {
    var linked := LinkedIds(taskId, Deps([], []));
    FilterAll(allTasks, t => CanLink(linked, t));
  }

  /** Which picture the block draws. */
  datatype Shape = Nothing | Collapsed | Expanded

  /** Nothing while loading; a one-line link button while nothing is linked and the picker is closed. */
  function ShapeOf(v: View): (s: Shape)
    ensures s == Nothing <==> v.loading
    ensures s == Collapsed <==> !v.loading && v.deps.blockedBy == [] && v.deps.blocking == [] && !v.adding
  {
    if v.loading then Nothing
    else if |v.deps.blockedBy| == 0 && |v.deps.blocking| == 0 && !v.adding then Collapsed
    else Expanded
  }

  /**
   * What a call to the dependency API came back with: success, or an error
   * carrying its message (empty when the error had none).
   */
  datatype Outcome = Done | Failed(message: string)

  /** A request sent to the server: link `task` to `dependsOn`. */
  datatype AddRequest = AddRequest(task: int, dependsOn: int)

  /** What a handler did: the block's new state, the request it sent, and whether it reloaded the links. */
  datatype Step = Step(view: View, sent: Option<AddRequest>, reload: bool)

  function MessageOr(e: string, fallback: string): (m: string)
    ensures e != "" ==> m == e
    ensures e == "" ==> m == fallback
  {
    if e != "" then e else fallback
  }

  /**
   * The link button's handler. Without a selection it does nothing. With
   * one it clears the error and asks the server to link the task to the
   * selected one; on success the picker closes, the selection empties and
   * the links reload; on failure the message (or a fixed one) is shown.
   */
  function AddDependency(v: View, taskId: int, outcome: Outcome): (s: Step)
    ensures v.selected.None? ==> s == Step(v, None, false)
    ensures v.selected.Some? ==> s.sent == Some(AddRequest(taskId, v.selected.value))
    ensures v.selected.Some? && outcome.Done? ==>
      s.view == v.(selected := None, adding := false, error := "") && s.reload
    ensures v.selected.Some? && outcome.Failed? ==>
      s.view == v.(error := MessageOr(outcome.message, "Could not add dependency")) && s.view.error != "" && !s.reload
  {
    if v.selected.None? then Step(v, None, false)
    else
      var cleared := v.(error := "");
      var req := Some(AddRequest(taskId, v.selected.value));
      match outcome
      case Done => Step(cleared.(selected := None, adding := false), req, true)
      case Failed(e) => Step(cleared.(error := MessageOr(e, "Could not add dependency")), req, false)
  }

  /**
   * The remove button's handler: on success the links reload, on failure the
   * message (or a fixed one) is shown; unlike adding it does not clear an
   * earlier error first.
   */
  function RemoveDependency(v: View, outcome: Outcome): (s: Step)
    ensures s.sent == None
    ensures outcome.Done? ==> s.view == v && s.reload
    ensures outcome.Failed? ==> s.view == v.(error := MessageOr(outcome.message, "Could not remove dependency")) && !s.reload
  {
    match outcome
    case Done => Step(v, None, true)
    case Failed(e) => Step(v.(error := MessageOr(e, "Could not remove dependency")), None, false)
  }

  /**
   * Loading the links: skipped without a task id or team; otherwise the links
   * are replaced by what the server sent, kept when the call failed, and the
   * block stops loading either way.
   */
  function LoadDeps(v: View, taskId: int, teamId: int, fetched: Option<Deps>): (r: View)
    ensures taskId == 0 || teamId == 0 ==> r == v
    ensures taskId != 0 && teamId != 0 ==> !r.loading && r.adding == v.adding && r.selected == v.selected && r.error == v.error
    ensures taskId != 0 && teamId != 0 ==> r.deps == fetched.GetOr(v.deps)
  {
    if taskId == 0 || teamId == 0 then v
    else v.(deps := fetched.GetOr(v.deps), loading := false)
  }

  /**
   * Once a successful add has reloaded links that contain the new one, the
   * picker no longer offers the task that was just linked.
   */
  lemma AddedTaskLeavesPicker(v: View, allTasks: seq<ApiTask>, taskId: int, teamId: int, reloaded: Deps)
    requires v.selected.Some? && taskId != 0 && teamId != 0
    requires exists d :: (d in reloaded.blockedBy || d in reloaded.blocking) && d.id == v.selected.value
    ensures var s := AddDependency(v, taskId, Done);
      var after := LoadDeps(s.view, taskId, teamId, Some(reloaded));
      after.selected.None? && !after.adding
      && forall t :: t in LinkableOptions(allTasks, taskId, after.deps) ==> t.id != v.selected.value
  {
    var after := LoadDeps(AddDependency(v, taskId, Done).view, taskId, teamId, Some(reloaded));
    assert after.deps == reloaded;
    LinkableMeaning(allTasks, taskId, reloaded);
  }
}
