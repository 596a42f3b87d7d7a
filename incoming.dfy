/**
 * The incoming webhook: an external service posts to a team's secret token
 * to create a task there. The token stands in for authentication; the body
 * is validated and normalised before the insert, and the activity entry
 * that follows is best effort.
 */
module IncomingWebhook {
  import opened Wrappers
  import opened Text
  import opened Store

  /** The request body; a string field that is absent or empty is "". */
  datatype Body = Body(
    action: string, title: string, priority: string, assignedTo: string,
    category: string, dueDate: Option<int>)

  /** The columns the insert returns. */
  datatype Created = Created(id: int, title: string, priority: string, status: string)

  predicate Accepts(team: Team, token: string) {
    team.incoming.Some? && team.incoming.value.token == token && team.incoming.value.enabled
  }

  /** The team whose enabled incoming webhook has this token, taking the lowest id when several do. */
  function TeamByToken(teams: seq<Team>, token: string): (r: Option<int>)
    ensures r.Some? ==> 0 < r.value <= |teams| && Accepts(teams[r.value - 1], token)
    ensures r.Some? ==> forall i :: 0 <= i < r.value - 1 ==> !Accepts(teams[i], token)
    ensures r.None? <==> forall i :: 0 <= i < |teams| ==> !Accepts(teams[i], token)
  {
    TeamByTokenFrom(teams, token, 1)
  }

  function TeamByTokenFrom(teams: seq<Team>, token: string, t: int): (r: Option<int>)
    requires t >= 1
    decreases |teams| + 1 - t
    ensures r.Some? ==> t <= r.value <= |teams| && Accepts(teams[r.value - 1], token)
    ensures r.Some? ==> forall i :: t - 1 <= i < r.value - 1 ==> !Accepts(teams[i], token)
    ensures r.None? <==> forall i :: t - 1 <= i < |teams| ==> !Accepts(teams[i], token)
  {
    if t > |teams| then None
    else if Accepts(teams[t - 1], token) then Some(t)
    else TeamByTokenFrom(teams, token, t + 1)
  }

  const ValidPriorities: seq<string> := ["P0", "P1", "P2", "P3"]

  /** A priority outside P0..P3, an absent one included, becomes P2. */
  function NormalisePriority(p: string): (r: string)
    ensures r in ValidPriorities
    ensures p in ValidPriorities ==> r == p
    ensures p !in ValidPriorities ==> r == "P2"
  {
    if p in ValidPriorities then p else "P2"
  }

  lemma NormalisePriorityIdempotent(p: string)
    ensures NormalisePriority(NormalisePriority(p)) == NormalisePriority(p)
  {
  }

  /** The assignee: the team member whose display name matches ignoring case, if any and if a name was given. */
  function Assignee(users: seq<User>, members: map<(int, int), Membership>, team: int, name: string): (r: Option<int>)
    ensures name == [] ==> r.None?
    ensures r.Some? ==> (0 < r.value <= |users| && (r.value, team) in members
      && LowerStr(users[r.value - 1].displayName) == LowerStr(name))
    ensures name != [] && r.None? ==> forall u :: 0 < u <= |users| && (u, team) in members ==>
      LowerStr(users[u - 1].displayName) != LowerStr(name)
  {
    if name == [] then None else FindMemberByName(users, members, team, name)
  }

  /**
   * The row inserted at time now: status todo, the creator is the resolved
   * assignee, and status_updated_at takes its column default, the insert time.
   */
  function IncomingTask(team: int, now: int, b: Body, assignee: Option<int>): (t: Task)
    ensures t.teamId == team && t.title == b.title && t.status == "todo" && !t.completed
    ensures t.priority == NormalisePriority(b.priority) && t.priority in ValidPriorities
    ensures t.assignedTo == assignee && t.createdBy == assignee
    ensures t.category.None? <==> b.category == []
    ensures t.statusUpdatedAt == Some(now) && t.completedBy.None? && t.completedAt.None?
  {
    Task(team, b.title, NormalisePriority(b.priority), "todo", false, None, None,
         assignee, assignee, None, None, Some(now),
         if b.category == [] then None else Some(b.category), b.dueDate)
  }

  /**
   * POST /:token at time now. `logFails` says whether the activity insert throws; the
   * response is the same either way.
   */
  method Receive(s: Store, token: string, now: int, b: Body, logFails: bool) returns (r: Reply<Created>)
    requires s.Valid()
    modifies s`tasks, s`nextTaskId, s`log
    ensures s.Valid()
    ensures TeamByToken(s.teams, token).None? ==> r == Fail(401, "Invalid or disabled webhook token")
    ensures TeamByToken(s.teams, token).Some? && b.action != "create_task" ==>
      r == Fail(400, "Unsupported action. Supported: create_task")
    ensures TeamByToken(s.teams, token).Some? && b.action == "create_task" && b.title == [] ==>
      r == Fail(400, "Title is required")
    ensures r.Fail? ==> s.tasks == old(s.tasks) && s.nextTaskId == old(s.nextTaskId) && s.log == old(s.log)
    ensures r.Ok? <==> TeamByToken(s.teams, token).Some? && b.action == "create_task" && b.title != []
    ensures r.Ok? ==>
      var team := TeamByToken(s.teams, token).value;
      var id := old(s.nextTaskId);
      && r.value == Created(id, b.title, NormalisePriority(b.priority), "todo")
      && id !in old(s.tasks)
      && s.tasks == old(s.tasks)[id := IncomingTask(team, now, b, Assignee(s.users, s.members, team, b.assignedTo))]
      && s.nextTaskId == id + 1
      && s.log == old(s.log) + (if logFails then [] else [Activity(None, team, TaskCreated, Some(id), Some(b.title), None, NoDetails)])
  {
    var found := TeamByToken(s.teams, token);
    if found.None? {
      return Fail(401, "Invalid or disabled webhook token");
    }
    var team := found.value;
    if b.action != "create_task" {
      return Fail(400, "Unsupported action. Supported: create_task");
    }
    if b.title == [] {
      return Fail(400, "Title is required");
    }
    var assignee := Assignee(s.users, s.members, team, b.assignedTo);
    var row := IncomingTask(team, now, b, assignee);
    var id := s.AddTask(row);
    if !logFails {
      s.log := s.log + [Activity(None, team, TaskCreated, Some(id), Some(b.title), None, NoDetails)];
    }
    r := Ok(Created(id, row.title, row.priority, row.status));
  }
}
