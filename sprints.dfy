/**
 * The sprint routes: create (admins only, goals default to none), the PATCH
 * of name, status and goals, the idempotent add and remove of a sprint's
 * tasks, and the task and completed counts of the listing. A string field of
 * the request body is the empty string when it is absent, since absent and
 * empty are both falsy to the route.
 */
module SprintRoutes {
  import opened Wrappers
  import opened Store
  import Sql

  /** POST body: name, startDate and endDate as sent, goals None when absent. */
  datatype SprintInput = SprintInput(name: string, startDate: string, endDate: string, goals: Option<seq<string>>)

  function NewSprint(team: int, user: int, input: SprintInput): (sp: Sprint)
    ensures sp.teamId == team && sp.createdBy == user && sp.name == input.name
    ensures sp.startDate == input.startDate && sp.endDate == input.endDate
    ensures sp.goals == (if input.goals.Some? then input.goals.value else [])
    ensures sp.status.None?
  {
    Sprint(team, input.name, input.startDate, input.endDate, input.goals.GetOr([]), None, user)
  }

  method Create(s: Store, user: int, team: int, input: SprintInput) returns (r: Reply<(int, Sprint)>)
    requires s.Valid()
    modifies s`sprints, s`nextSprintId
    ensures s.Valid()
    ensures !old(s.IsAdmin(user, team)) ==> r == Fail(403, "Team admin access required")
    ensures (old(s.IsAdmin(user, team)) && (input.name == [] || input.startDate == [] || input.endDate == []))
            ==> r == Fail(400, "Name, start date, and end date required")
    ensures r.Fail? ==> s.sprints == old(s.sprints) && s.nextSprintId == old(s.nextSprintId)
    ensures r.Ok? <==> old(s.IsAdmin(user, team)) && input.name != [] && input.startDate != [] && input.endDate != []
    ensures r.Ok? ==> r.value.0 == old(s.nextSprintId) && r.value.0 !in old(s.sprints)
    ensures r.Ok? ==> r.value.1 == NewSprint(team, user, input) && s.nextSprintId == r.value.0 + 1
    ensures r.Ok? ==> s.sprints == old(s.sprints)[r.value.0 := r.value.1]
  {
    if !s.IsAdmin(user, team) {
      return Fail(403, "Team admin access required");
    }
    if input.name == [] || input.startDate == [] || input.endDate == [] {
      return Fail(400, "Name, start date, and end date required");
    }
    var id := s.nextSprintId;
    var sp := NewSprint(team, user, input);
    s.sprints := s.sprints[id := sp];
    s.nextSprintId := id + 1;
    r := Ok((id, sp));
  }

  /** PATCH body: name and status are "" when absent; goals None when absent (any array is truthy). */
  datatype SprintPatch = SprintPatch(name: string, status: string, goals: Option<seq<string>>)

  /** The (column, value) pairs of the truthy fields, in the order the route tests them. */
  function PatchFields(p: SprintPatch): seq<(string, Sql.Value)> {
    Sql.Opt(p.name != [], "name", Sql.StrV(p.name))
    + Sql.Opt(p.status != [], "status", Sql.StrV(p.status))
    + Sql.Opt(p.goals.Some?, "goals", Sql.ListV(p.goals.GetOr([])))
  }

  lemma PatchFieldsEmpty(p: SprintPatch)
    ensures PatchFields(p) == [] <==> p.name == [] && p.status == [] && p.goals.None?
  {
    if p.name != [] {
      assert PatchFields(p)[0].0 == "name";
    } else if p.status != [] {
      assert PatchFields(p)[0].0 == "status";
    }
  }

  /**
   * The SET items, parameters and WHERE clause of the PATCH: item k reads
   * `column = $(k+1)` bound to that column's value, and the sprint id and team
   * id are bound to the last two placeholders.
   */
  method BuildUpdate(p: SprintPatch, id: int, team: int) returns (updates: seq<string>, values: seq<Sql.Value>, where: string)
    ensures |updates| == |PatchFields(p)| && |values| == |updates| + 2
    ensures forall k :: 0 <= k < |updates| ==>
      updates[k] == Sql.SetItem(PatchFields(p)[k].0, k + 1) && Sql.Bound(values, k + 1) == PatchFields(p)[k].1
    ensures where == Sql.WhereIdTeam(|updates| + 1)
    ensures Sql.Bound(values, |updates| + 1) == Sql.IntV(id) && Sql.Bound(values, |updates| + 2) == Sql.IntV(team)
  {
    var idx;
    updates, values, idx := [], [], 1;
    updates, values, idx := Sql.AddField(updates, values, idx, [], p.name != [], "name", Sql.StrV(p.name));
    ghost var fs := Sql.Opt(p.name != [], "name", Sql.StrV(p.name));
    assert [] + fs == fs;
    updates, values, idx := Sql.AddField(updates, values, idx, fs, p.status != [], "status", Sql.StrV(p.status));
    fs := fs + Sql.Opt(p.status != [], "status", Sql.StrV(p.status));
    updates, values, idx := Sql.AddField(updates, values, idx, fs, p.goals.Some?, "goals", Sql.ListV(p.goals.GetOr([])));
    fs := fs + Sql.Opt(p.goals.Some?, "goals", Sql.ListV(p.goals.GetOr([])));
    assert fs == PatchFields(p);
    values, where := Sql.Finish(updates, values, idx, fs, id, team);
  }

  /** Runs one SET item on a sprint row; a value of the wrong kind leaves the column alone. */
  function Assign(sp: Sprint, column: string, v: Sql.Value): Sprint {
    match v
      case StrV(x) =>
        if column == "name" then sp.(name := x)
        else if column == "status" then sp.(status := Some(x))
        else sp
      case ListV(x) => if column == "goals" then sp.(goals := x) else sp
      case _ => sp
  }

  /** The sprint after the PATCH: each truthy field takes its new value, every other column keeps its own. */
  function ApplyPatch(sp: Sprint, p: SprintPatch): (r: Sprint)
    ensures r.name == (if p.name != [] then p.name else sp.name)
    ensures r.status == (if p.status != [] then Some(p.status) else sp.status)
    ensures r.goals == p.goals.GetOr(sp.goals)
    ensures r.teamId == sp.teamId && r.startDate == sp.startDate && r.endDate == sp.endDate
    ensures r.createdBy == sp.createdBy
  {
    sp.(name := if p.name != [] then p.name else sp.name,
        status := if p.status != [] then Some(p.status) else sp.status,
        goals := p.goals.GetOr(sp.goals))
  }

  /** The SET list the builder emits, run on the row, updates it exactly as ApplyPatch describes. */
  lemma PatchFieldsMeaning(sp: Sprint, p: SprintPatch)
    ensures Sql.RunSet(sp, PatchFields(p), Assign) == ApplyPatch(sp, p)
  {
    var f1 := Sql.Opt(p.name != [], "name", Sql.StrV(p.name));
    var f2 := Sql.Opt(p.status != [], "status", Sql.StrV(p.status));
    var f3 := Sql.Opt(p.goals.Some?, "goals", Sql.ListV(p.goals.GetOr([])));
    var s1 := sp.(name := if p.name != [] then p.name else sp.name);
    assert Sql.RunSet(sp, f1, Assign) == s1 by {
      Sql.RunSetOpt(sp, p.name != [], "name", Sql.StrV(p.name), Assign);
    }
    var s2 := s1.(status := if p.status != [] then Some(p.status) else sp.status);
    assert Sql.RunSet(s1, f2, Assign) == s2 by {
      Sql.RunSetOpt(s1, p.status != [], "status", Sql.StrV(p.status), Assign);
    }
    assert Sql.RunSet(s2, f3, Assign) == ApplyPatch(sp, p) by {
      Sql.RunSetOpt(s2, p.goals.Some?, "goals", Sql.ListV(p.goals.GetOr([])), Assign);
    }
    Sql.RunSetAppend(sp, f1 + f2, f3, Assign);
    Sql.RunSetAppend(sp, f1, f2, Assign);
  }

  predicate SprintInTeam(s: Store, id: int, team: int)
    reads s
  {
    id in s.sprints && s.sprints[id].teamId == team
  }

  method Patch(s: Store, user: int, team: int, id: int, p: SprintPatch) returns (r: Reply<Sprint>)
    requires s.Valid()
    modifies s`sprints
    ensures s.Valid()
    ensures !old(s.IsAdmin(user, team)) ==> r == Fail(403, "Team admin access required")
    ensures old(s.IsAdmin(user, team)) && PatchFields(p) == [] ==> r == Fail(400, "No updates provided")
    ensures old(s.IsAdmin(user, team)) && PatchFields(p) != [] && !old(SprintInTeam(s, id, team))
            ==> r == Fail(404, "Sprint not found")
    ensures r.Fail? ==> s.sprints == old(s.sprints)
    ensures r.Ok? <==> old(s.IsAdmin(user, team)) && PatchFields(p) != [] && old(SprintInTeam(s, id, team))
    ensures r.Ok? ==> (r.value == ApplyPatch(old(s.sprints[id]), p)
                       && s.sprints == old(s.sprints)[id := r.value])
  {
    if !s.IsAdmin(user, team) {
      return Fail(403, "Team admin access required");
    }
    var updates, values, where := BuildUpdate(p, id, team);
    if |updates| == 0 {
      return Fail(400, "No updates provided");
    }
    if !SprintInTeam(s, id, team) {
      return Fail(404, "Sprint not found");
    }
    var sp := ApplyPatch(s.sprints[id], p);
    s.sprints := s.sprints[id := sp];
    r := Ok(sp);
  }

  predicate TaskInTeam(s: Store, task: int, team: int)
    reads s
  {
    task in s.tasks && s.tasks[task].teamId == team
  }

  /** Adds a task to a sprint; 0 stands for a missing or falsy taskId. The sprint itself is not looked up. */
  method AddTask(s: Store, team: int, sprint: int, task: int) returns (r: Reply<bool>)
    modifies s`sprintTasks
    ensures task == 0 ==> r == Fail(400, "Task ID required")
    ensures task != 0 && !TaskInTeam(s, task, team) ==> r == Fail(404, "Task not found in this team")
    ensures r.Ok? <==> task != 0 && TaskInTeam(s, task, team)
    ensures r.Fail? ==> s.sprintTasks == old(s.sprintTasks)
    ensures r.Ok? ==> r.value && s.sprintTasks == old(s.sprintTasks) + {(sprint, task)}
  {
    if task == 0 {
      return Fail(400, "Task ID required");
    }
    if !TaskInTeam(s, task, team) {
      return Fail(404, "Task not found in this team");
    }
    s.sprintTasks := s.sprintTasks + {(sprint, task)};
    r := Ok(true);
  }

  /** Removes a task from a sprint, with no check of any kind. */
  method RemoveTask(s: Store, sprint: int, task: int) returns (r: bool)
    modifies s`sprintTasks
    ensures r && s.sprintTasks == old(s.sprintTasks) - {(sprint, task)}
  {
    s.sprintTasks := s.sprintTasks - {(sprint, task)};
    r := true;
  }

  /** ON CONFLICT DO NOTHING: adding a pair that is already there changes nothing. */
  lemma AddIdempotent(st: set<(int, int)>, sprint: int, task: int)
    ensures (st + {(sprint, task)}) + {(sprint, task)} == st + {(sprint, task)}
    ensures (sprint, task) in st ==> st + {(sprint, task)} == st
  {
  }

  /** Removing twice is removing once, and removing an absent pair changes nothing. */
  lemma RemoveIdempotent(st: set<(int, int)>, sprint: int, task: int)
    ensures (st - {(sprint, task)}) - {(sprint, task)} == st - {(sprint, task)}
    ensures (sprint, task) !in st ==> st - {(sprint, task)} == st
  {
  }

  /** Removing right after adding leaves the set as it was whenever the pair was absent. */
  lemma RemoveUndoesAdd(st: set<(int, int)>, sprint: int, task: int)
    requires (sprint, task) !in st
    ensures (st + {(sprint, task)}) - {(sprint, task)} == st
  {
  }

  /** task_count: the sprint_tasks rows of the sprint. */
  function SprintRows(st: set<(int, int)>, sprint: int): (r: set<(int, int)>)
    ensures forall p :: p in r <==> p in st && p.0 == sprint
  {
    set p | p in st && p.0 == sprint
  }

  /** completed_count: those rows whose task exists and has status done. */
  function DoneRows(st: set<(int, int)>, tasks: map<int, Task>, sprint: int): (r: set<(int, int)>)
    ensures forall p :: p in r <==> p in st && p.0 == sprint && p.1 in tasks && tasks[p.1].status == "done"
  {
    set p | p in st && p.0 == sprint && p.1 in tasks && tasks[p.1].status == "done"
  }

  function TaskCount(st: set<(int, int)>, sprint: int): nat {
    |SprintRows(st, sprint)|
  }

  function CompletedCount(st: set<(int, int)>, tasks: map<int, Task>, sprint: int): nat {
    |DoneRows(st, tasks, sprint)|
  }

  /** completedCount never exceeds taskCount, and they agree exactly when every task of the sprint is done. */
  lemma CompletedAtMostTasks(st: set<(int, int)>, tasks: map<int, Task>, sprint: int)
    ensures CompletedCount(st, tasks, sprint) <= TaskCount(st, sprint)
    ensures CompletedCount(st, tasks, sprint) == TaskCount(st, sprint) <==>
            forall p :: p in SprintRows(st, sprint) ==> p.1 in tasks && tasks[p.1].status == "done"
  {
    var all := SprintRows(st, sprint);
    var done := DoneRows(st, tasks, sprint);
    var rest := all - done;
    assert all == done + rest && done * rest == {};
    assert |all| == |done| + |rest|;
    if done != all {
      var p :| p in all && p !in done;
      assert p in rest;
    }
  }
}
