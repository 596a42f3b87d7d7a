/**
 * The database tables the route handlers read and write, as one mutable
 * object. Rows with a SERIAL id live in maps keyed by that id with a
 * next-id counter; users and teams are sequences whose id is the index plus
 * one; team_members is keyed by its unique (user, team) pair; activity_log
 * is append-only.
 */
module Store {
  import opened Wrappers
  import Text

  datatype Role = Admin | Member

  datatype User = User(displayName: string, superadmin: bool, telegramLink: Option<string>)

  datatype WebhookSettings = WebhookSettings(enabled: bool, url: string, events: Option<seq<string>>)
  datatype IncomingHook = IncomingHook(token: string, enabled: bool)

  datatype Team = Team(
    name: string, code: string, createdBy: int, collabEnabled: bool,
    webhooks: Option<WebhookSettings>, incoming: Option<IncomingHook>)

  /** One team_members row. */
  datatype Membership = Membership(
    role: Role, xp: int, todayXp: int, streak: int, tasksCompleted: int,
    lastCompleted: Option<int>)

  datatype Task = Task(
    teamId: int, title: string, priority: string, status: string,
    completed: bool, completedBy: Option<int>, completedAt: Option<int>,
    createdBy: Option<int>, assignedTo: Option<int>,
    blockerNote: Option<string>, blockerSince: Option<int>, statusUpdatedAt: Option<int>,
    category: Option<string>, dueDate: Option<int>)

  datatype Action =
    TaskCreated | TaskCompleted | TaskDeleted | TaskAssigned | LevelUp | TeamJoined | RoleChanged

  datatype Details =
    | NoDetails
    | LevelDetails(newLevel: int, rank: string)
    | JoinDetails(teamName: string)
    | RoleDetails(targetUserId: int, newRole: Role)

  datatype Activity = Activity(
    userId: Option<int>, teamId: int, action: Action, taskId: Option<int>,
    taskTitle: Option<string>, xpEarned: Option<int>, details: Details)

  /** The type and active columns are nullable: None is a NULL that a PATCH stored. */
  datatype Challenge = Challenge(
    teamId: Option<int>, title: string, description: Option<string>, xpReward: Option<int>,
    kind: Option<string>, active: Option<bool>, isGlobal: bool, createdBy: Option<int>)

  datatype Completion = Completion(challengeId: int, userId: int, teamId: int, day: int)

  datatype Sprint = Sprint(
    teamId: int, name: string, startDate: string, endDate: string, goals: seq<string>,
    status: Option<string>, createdBy: int)

  datatype Period = Weekly | Monthly

  datatype Snapshot = Snapshot(
    teamId: int, period: Period, periodStart: int, periodEnd: int,
    mvpUserId: Option<int>, mvpTasksCompleted: int, totalTasks: int, totalXp: int, teamSize: int)

  /**
   * The uniqueness a conflicting insert runs into. The table's constraints
   * are not part of the model; this takes them to be one snapshot per team,
   * period and period start.
   */
  predicate SameKey(a: Snapshot, b: Snapshot) {
    a.teamId == b.teamId && a.period == b.period && a.periodStart == b.periodStart
  }

  predicate Conflicts(snaps: seq<Snapshot>, x: Snapshot) {
    exists i :: 0 <= i < |snaps| && SameKey(snaps[i], x)
  }

  predicate KeysUnique(snaps: seq<Snapshot>) {
    forall i, j :: 0 <= i < j < |snaps| ==> !SameKey(snaps[i], snaps[j])
  }

  /** A fresh team_members row with the given role and zeroed statistics. */
  function NewMembership(role: Role): (m: Membership)
    ensures m.role == role && m.xp == 0 && m.streak == 0 && m.tasksCompleted == 0
    ensures m.todayXp == 0 && m.lastCompleted.None?
  {
    Membership(role, 0, 0, 0, 0, None)
  }

  /** The values the CHECK constraint on challenges.type admits. */
  const ChallengeTypes: set<string> := {"task", "social", "streak"}

  /** The keys of a SERIAL table below n, in ascending order. */
  function IdsBelow<T>(m: map<int, T>, n: int): (r: seq<int>)
    decreases n
    ensures forall k :: 0 <= k < |r| ==> 0 < r[k] < n && r[k] in m
    ensures forall id :: 0 < id < n && id in m ==> id in r
    ensures forall a, b :: 0 <= a < b < |r| ==> r[a] < r[b]
  {
    if n <= 1 then []
    else IdsBelow(m, n - 1) + (if n - 1 in m then [n - 1] else [])
  }

  datatype Row = Row(id: int, task: Task)

  /** The rows of a SERIAL table in ascending id order, ids 1 to n - 1. */
  function RowsBelow(tasks: map<int, Task>, n: int): (r: seq<Row>)
    decreases n
    ensures forall k :: 0 <= k < |r| ==> 0 < r[k].id < n && r[k].id in tasks && tasks[r[k].id] == r[k].task
    ensures forall id :: 0 < id < n && id in tasks ==> Row(id, tasks[id]) in r
    ensures forall a, b :: 0 <= a < b < |r| ==> r[a].id < r[b].id
  {
    if n <= 1 then []
    else
      var prefix := RowsBelow(tasks, n - 1);
      prefix + (if n - 1 in tasks then [Row(n - 1, tasks[n - 1])] else [])
  }

  /**
   * The first user (lowest id) in the team whose display name equals name
   * ignoring ASCII case: the LOWER(display_name) = LOWER($2) lookup.
   */
  function FindMemberByName(users: seq<User>, members: map<(int, int), Membership>, team: int, name: string): (r: Option<int>)
    ensures r.Some? ==> (0 < r.value <= |users| && (r.value, team) in members
                         && Text.LowerStr(users[r.value - 1].displayName) == Text.LowerStr(name))
    ensures r.Some? ==> forall u :: 0 < u < r.value && (u, team) in members ==>
      Text.LowerStr(users[u - 1].displayName) != Text.LowerStr(name)
    ensures r.None? <==> forall u :: 0 < u <= |users| && (u, team) in members ==>
      Text.LowerStr(users[u - 1].displayName) != Text.LowerStr(name)
  {
    FindNameFrom(users, members, team, Text.LowerStr(name), 1)
  }

  function FindNameFrom(users: seq<User>, members: map<(int, int), Membership>, team: int, lname: string, u: int): (r: Option<int>)
    requires u >= 1
    decreases |users| + 1 - u
    ensures r.Some? ==> (u <= r.value <= |users| && (r.value, team) in members
                         && Text.LowerStr(users[r.value - 1].displayName) == lname)
    ensures r.Some? ==> forall v :: u <= v < r.value && (v, team) in members ==>
      Text.LowerStr(users[v - 1].displayName) != lname
    ensures r.None? <==> forall v :: u <= v <= |users| && (v, team) in members ==>
      Text.LowerStr(users[v - 1].displayName) != lname
  {
    if u > |users| then None
    else if (u, team) in members && Text.LowerStr(users[u - 1].displayName) == lname then Some(u)
    else FindNameFrom(users, members, team, lname, u + 1)
  }

  /** The ids of the team's members in ascending id order. */
  function MembersOf(members: map<(int, int), Membership>, team: int, n: int): (r: seq<int>)
    decreases n
    ensures forall k :: 0 <= k < |r| ==> 0 < r[k] <= n && (r[k], team) in members
    ensures forall u :: 0 < u <= n && (u, team) in members ==> u in r
    ensures forall a, b :: 0 <= a < b < |r| ==> r[a] < r[b]
  {
    if n <= 0 then []
    else MembersOf(members, team, n - 1) + (if (n, team) in members then [n] else [])
  }

  function CountAdmins(members: map<(int, int), Membership>, team: int, n: int): (c: nat)
    decreases n
  {
    if n <= 0 then 0
    else CountAdmins(members, team, n - 1) + (if (n, team) in members && members[(n, team)].role == Admin then 1 else 0)
  }

  class Store {
    var users: seq<User>
    var teams: seq<Team>
    var members: map<(int, int), Membership>
    var tasks: map<int, Task>
    var nextTaskId: int
    var log: seq<Activity>
    var challenges: map<int, Challenge>
    var nextChallengeId: int
    var completions: seq<Completion>
    var sprints: map<int, Sprint>
    var nextSprintId: int
    var sprintTasks: set<(int, int)>
    var snapshots: seq<Snapshot>

    /**
     * SERIAL ids are positive and below their counters; memberships reference
     * existing rows; no two teams share a join code (teams.code is unique).
     */
    ghost predicate Valid()
      reads this
    {
      && TaskIdsValid()
      && 0 < nextChallengeId && (forall id :: id in challenges ==> 0 < id < nextChallengeId)
      && (forall id :: id in challenges ==> challenges[id].kind.None? || challenges[id].kind.value in ChallengeTypes)
      && 0 < nextSprintId && (forall id :: id in sprints ==> 0 < id < nextSprintId)
      && (forall k :: k in members ==> 0 < k.0 <= |users| && 0 < k.1 <= |teams|)
      && (forall i, j :: 0 <= i < j < |teams| ==> teams[i].code != teams[j].code)
    }

    constructor (users0: seq<User>)
      ensures Valid()
      ensures users == users0 && teams == [] && members == map[] && tasks == map[]
      ensures log == [] && challenges == map[] && completions == [] && sprints == map[]
      ensures sprintTasks == {} && snapshots == []
    {
      users := users0;
      teams := [];
      members := map[];
      tasks := map[];
      nextTaskId := 1;
      log := [];
      challenges := map[];
      nextChallengeId := 1;
      completions := [];
      sprints := map[];
      nextSprintId := 1;
      sprintTasks := {};
      snapshots := [];
    }

    /** The tasks SERIAL: every task id is positive and below the counter. */
    ghost predicate TaskIdsValid()
      reads this
    {
      0 < nextTaskId && forall id :: id in tasks ==> 0 < id < nextTaskId
    }

    /** INSERT INTO tasks ... RETURNING id: the row takes the next SERIAL id, which no row holds yet. */
    method AddTask(row: Task) returns (id: int)
      requires TaskIdsValid()
      modifies this`tasks, this`nextTaskId
      ensures TaskIdsValid()
      ensures id == old(nextTaskId) && id !in old(tasks) && nextTaskId == id + 1
      ensures tasks == old(tasks)[id := row]
    {
      id := nextTaskId;
      tasks := tasks[id := row];
      nextTaskId := id + 1;
    }

    function RoleOf(user: int, team: int): Option<Role>
      reads this
    {
      if (user, team) in members then Some(members[(user, team)].role) else None
    }

    predicate IsAdmin(user: int, team: int)
      reads this
    {
      (user, team) in members && members[(user, team)].role == Admin
    }
  }
}
