/**
 * The Telegram bot commands that touch tasks: /tasks, /status, /assign and
 * the /confirm and /cancel pair over the chat-keyed map of AI-parsed tasks
 * awaiting confirmation. Telegram user ids arrive as strings; each user row
 * keeps the id it was linked with.
 */
module Telegram {
  import opened Wrappers
  import opened Store
  import Text
  import StableSort
  import TaskRoutes

  /** findUser: the first user linked to this Telegram id. */
  function FindUser(users: seq<User>, tgId: string): (r: Option<int>)
    ensures r.Some? ==> 0 < r.value <= |users| && users[r.value - 1].telegramLink == Some(tgId)
    ensures r.None? <==> forall i :: 0 <= i < |users| ==> users[i].telegramLink != Some(tgId)
  {
    FindUserFrom(users, tgId, 1)
  }

  function FindUserFrom(users: seq<User>, tgId: string, u: int): (r: Option<int>)
    requires u >= 1
    decreases |users| + 1 - u
    ensures r.Some? ==> u <= r.value <= |users| && users[r.value - 1].telegramLink == Some(tgId)
    ensures r.None? <==> forall i :: u - 1 <= i < |users| ==> users[i].telegramLink != Some(tgId)
  {
    if u > |users| then None
    else if users[u - 1].telegramLink == Some(tgId) then Some(u)
    else FindUserFrom(users, tgId, u + 1)
  }

  /** findUserTeam: one team the user belongs to, taken here as the lowest team id. */
  function FirstTeam(members: map<(int, int), Membership>, user: int, nTeams: int): (r: Option<int>)
    ensures r.Some? ==> 0 < r.value <= nTeams && (user, r.value) in members
    ensures r.Some? ==> forall t :: 0 < t < r.value ==> (user, t) !in members
    ensures r.None? <==> forall t :: 0 < t <= nTeams ==> (user, t) !in members
  {
    FirstTeamFrom(members, user, nTeams, 1)
  }

  function FirstTeamFrom(members: map<(int, int), Membership>, user: int, nTeams: int, t: int): (r: Option<int>)
    requires t >= 1
    decreases nTeams + 1 - t
    ensures r.Some? ==> t <= r.value <= nTeams && (user, r.value) in members
    ensures r.Some? ==> forall v :: t <= v < r.value ==> (user, v) !in members
    ensures r.None? <==> forall v :: t <= v <= nTeams ==> (user, v) !in members
  {
    if t > nTeams then None
    else if (user, t) in members then Some(t)
    else FirstTeamFrom(members, user, nTeams, t + 1)
  }

  datatype BotReply =
    | NotLinked
    | NoTeam
    | TaskList(rows: seq<Row>)
    | NoPendingWork
    | StatusUsage
    | InvalidStatus
    | TaskNotFound
    | StatusUpdated(taskId: int, status: string)
    | StatusError
    | AssignUsage
    | TaskCreatedReply(taskId: int, title: string)
    | NothingToConfirm
    | CreatedTasks(lines: seq<(int, string)>)
    | Cancelled
    | NothingToCancel

  // ---------------------------------------------------------------- /tasks

  /** The ORDER BY CASE priority of the task queries: P0, P1, P2, then everything else. */
  function PriorityRank(p: string): (k: int)
    ensures 0 <= k <= 3
    ensures k < 3 <==> p in {"P0", "P1", "P2"}
  {
    if p == "P0" then 0 else if p == "P1" then 1 else if p == "P2" then 2 else 3
  }

  function UrgencyKey(r: Row): real {
    -(PriorityRank(r.task.priority) as real)
  }

  /** An open task of the team that is the user's or nobody's. */
  predicate Listable(t: Task, user: int, team: int) {
    t.teamId == team && (t.assignedTo == Some(user) || t.assignedTo.None?) && t.status != "done" && !t.completed
  }

  function ListableRows(rows: seq<Row>, user: int, team: int): (r: seq<Row>)
    ensures forall x :: x in r <==> x in rows && Listable(x.task, user, team)
    ensures |r| <= |rows|
  {
    if rows == [] then []
    else (if Listable(rows[0].task, user, team) then [rows[0]] else []) + ListableRows(rows[1..], user, team)
  }

  /**
   * The /tasks listing: the 15 most urgent listable tasks (all of them when
   * there are fewer), most urgent priority first; no listable task left out
   * is more urgent than one shown.
   */
  function TaskListing(tasks: map<int, Task>, next: int, user: int, team: int): (r: seq<Row>)
    ensures var open := ListableRows(RowsBelow(tasks, next), user, team);
      && |r| == (if |open| < 15 then |open| else 15)
      && multiset(r) <= multiset(open)
      && (forall x, i :: x in open && x !in r && 0 <= i < |r| ==>
            PriorityRank(r[i].task.priority) <= PriorityRank(x.task.priority))
    ensures forall x :: x in r ==> x.id in tasks && tasks[x.id] == x.task && Listable(x.task, user, team)
    ensures forall i, j :: 0 <= i < j < |r| ==> PriorityRank(r[i].task.priority) <= PriorityRank(r[j].task.priority)
    ensures |ListableRows(RowsBelow(tasks, next), user, team)| <= 15 ==>
              multiset(r) == multiset(ListableRows(RowsBelow(tasks, next), user, team))
  {
    var open := ListableRows(RowsBelow(tasks, next), user, team);
    StableSort.TopOf(open, UrgencyKey, 15);
    StableSort.TopIsBest(open, UrgencyKey, 15);
    var r := StableSort.Take(StableSort.SortDesc(open, UrgencyKey), 15);
    assert |StableSort.SortDesc(open, UrgencyKey)| == |open| by {
      assert |multiset(StableSort.SortDesc(open, UrgencyKey))| == |multiset(open)|;
    }
    forall x, i | x in open && x !in r && 0 <= i < |r|
      ensures PriorityRank(r[i].task.priority) <= PriorityRank(x.task.priority)
    {
      assert UrgencyKey(r[i]) >= UrgencyKey(x);
    }
    r
  }

  method TasksCommand(s: Store, tgId: string) returns (reply: BotReply)
    ensures FindUser(s.users, tgId).None? ==> reply == NotLinked
    ensures FindUser(s.users, tgId).Some? && FirstTeam(s.members, FindUser(s.users, tgId).value, |s.teams|).None?
            ==> reply == NoTeam
    ensures reply.TaskList? ==> reply.rows != []
    ensures reply.TaskList? || reply == NoPendingWork ==>
      && FindUser(s.users, tgId).Some?
      && FirstTeam(s.members, FindUser(s.users, tgId).value, |s.teams|).Some?
      && var listing := TaskListing(s.tasks, s.nextTaskId, FindUser(s.users, tgId).value,
                                    FirstTeam(s.members, FindUser(s.users, tgId).value, |s.teams|).value);
         (reply == NoPendingWork <==> listing == []) && (reply.TaskList? ==> reply.rows == listing)
  {
    var user := FindUser(s.users, tgId);
    if user.None? {
      return NotLinked;
    }
    var team := FirstTeam(s.members, user.value, |s.teams|);
    if team.None? {
      return NoTeam;
    }
    var rows := TaskListing(s.tasks, s.nextTaskId, user.value, team.value);
    if rows == [] {
      return NoPendingWork;
    }
    reply := TaskList(rows);
  }

  // ---------------------------------------------------------------- /status

  const ValidStatuses: set<string> := {"todo", "in_progress", "blocked", "in_review", "done"}

  /**
   * The task after /status as the code runs: status and its timestamp are
   * set, the blocker is cleared unless the new status is blocked, and done
   * sets the completion fields. For any other status the completion fields
   * keep their values, because the query meant to clear them fails.
   */
  function ApplyStatus(t: Task, status: string, user: int, now: int): (r: Task)
    ensures r.status == status && r.statusUpdatedAt == Some(now)
    ensures status == "blocked" ==> r.blockerNote == t.blockerNote && r.blockerSince == t.blockerSince
    ensures status != "blocked" ==> r.blockerNote.None? && r.blockerSince.None?
    ensures status == "done" ==> r.completed && r.completedBy == Some(user) && r.completedAt == Some(now)
    ensures status != "done" ==> r.completed == t.completed && r.completedBy == t.completedBy && r.completedAt == t.completedAt
    ensures r.(status := t.status, statusUpdatedAt := t.statusUpdatedAt, blockerNote := t.blockerNote,
               blockerSince := t.blockerSince, completed := t.completed, completedBy := t.completedBy,
               completedAt := t.completedAt) == t
  {
    var t1 := t.(status := status, statusUpdatedAt := Some(now));
    var t2 := if status == "blocked" then t1 else t1.(blockerNote := None, blockerSince := None);
    if status == "done" then TaskRoutes.MarkCompleted(t2, user, now) else t2
  }

  /** The /status update as evidently intended: any status other than done clears the completion fields. */
  function ApplyStatusIntended(t: Task, status: string, user: int, now: int): (r: Task)
    ensures r.status == status && r.statusUpdatedAt == Some(now)
    ensures status == "blocked" ==> r.blockerNote == t.blockerNote && r.blockerSince == t.blockerSince
    ensures status != "blocked" ==> r.blockerNote.None? && r.blockerSince.None?
  {
    var t2 := ApplyStatus(t, status, user, now);
    if status == "done" then t2 else TaskRoutes.ClearCompletion(t2)
  }

  /** The intended update keeps the legacy completed flag in step with the status. */
  lemma IntendedStatusKeepsFlagInSync(t: Task, status: string, user: int, now: int)
    ensures ApplyStatusIntended(t, status, user, now).completed <==> status == "done"
    ensures ApplyStatusIntended(t, status, user, now).completedBy.Some? <==> status == "done"
  {
  }

  /** As written, moving a completed task back to todo leaves it marked completed. */
  lemma StatusLeavesStaleCompletion()
    ensures var t := Task(1, "Ship", "P1", "done", true, Some(7), Some(1000), Some(7), None,
                          None, None, None, None, None);
            var r := ApplyStatus(t, "todo", 7, 2000);
            r.status == "todo" && r.completed && r.completedBy == Some(7)
  {
  }

  /**
   * /status taskId status, with the command's words already parsed: a taskId
   * of 0 stands for a missing or unparsable id, an empty status for a
   * missing one.
   */
  method StatusCommand(s: Store, tgId: string, taskId: int, status: string, now: int) returns (reply: BotReply)
    modifies s`tasks
    ensures FindUser(s.users, tgId).None? ==> reply == NotLinked
    ensures FindUser(s.users, tgId).Some? && (taskId == 0 || status == []) ==> reply == StatusUsage
    ensures FindUser(s.users, tgId).Some? && taskId != 0 && status != [] && status !in ValidStatuses
            ==> reply == InvalidStatus
    ensures reply != StatusError && !reply.StatusUpdated? ==> s.tasks == old(s.tasks)
    ensures reply == StatusError || reply.StatusUpdated? ==>
      && FindUser(s.users, tgId).Some? && taskId != 0 && status in ValidStatuses
      && var user := FindUser(s.users, tgId).value;
         var team := FirstTeam(s.members, user, |s.teams|);
         && team.Some? && taskId in old(s.tasks) && old(s.tasks[taskId]).teamId == team.value
         && s.tasks == old(s.tasks)[taskId := ApplyStatus(old(s.tasks[taskId]), status, user, now)]
         && (reply == StatusUpdated(taskId, status) <==> status == "done")
    ensures FindUser(s.users, tgId).Some? && taskId != 0 && status in ValidStatuses
            && FirstTeam(s.members, FindUser(s.users, tgId).value, |s.teams|).None?
            ==> reply == NoTeam
    ensures FindUser(s.users, tgId).Some? && taskId != 0 && status in ValidStatuses
            && FirstTeam(s.members, FindUser(s.users, tgId).value, |s.teams|).Some?
            && !(taskId in old(s.tasks)
                 && old(s.tasks[taskId]).teamId == FirstTeam(s.members, FindUser(s.users, tgId).value, |s.teams|).value)
            ==> reply == TaskNotFound
  {
    var user := FindUser(s.users, tgId);
    if user.None? {
      return NotLinked;
    }
    if taskId == 0 || status == [] {
      return StatusUsage;
    }
    if status !in ValidStatuses {
      return InvalidStatus;
    }
    var team := FirstTeam(s.members, user.value, |s.teams|);
    if team.None? {
      return NoTeam;
    }
    if !(taskId in s.tasks && s.tasks[taskId].teamId == team.value) {
      return TaskNotFound;
    }
    var t := s.tasks[taskId];
    var t1 := t.(status := status, statusUpdatedAt := Some(now));
    if status != "blocked" {
      t1 := t1.(blockerNote := None, blockerSince := None);
    }
    s.tasks := s.tasks[taskId := t1];
    if status == "done" {
      s.tasks := s.tasks[taskId := TaskRoutes.MarkCompleted(t1, user.value, now)];
      reply := StatusUpdated(taskId, status);
    } else {
      // The clearing query binds its second placeholder with one parameter and is rejected.
      reply := StatusError;
    }
  }

  // ---------------------------------------------------------------- /assign

  /** text.split(' ').slice(1).join(' '): everything after the first space. */
  function AfterFirstSpace(text: string): (r: string)
    ensures ' ' !in text ==> r == []
    ensures ' ' in text ==> exists i :: 0 <= i < |text| && text[i] == ' ' && ' ' !in text[..i] && r == text[i + 1..]
  {
    if text == [] then []
    else if text[0] == ' ' then text[1..]
    else
      var r := AfterFirstSpace(text[1..]);
      FirstSpaceShift(text, r);
      r
  }

  /** A first space found after a leading non-space is the first space of the whole text. */
  lemma FirstSpaceShift(text: string, r: string)
    requires text != [] && text[0] != ' '
    requires ' ' in text[1..] ==> exists i :: 0 <= i < |text[1..]| && text[1..][i] == ' ' && ' ' !in text[1..][..i] && r == text[1..][i + 1..]
    ensures ' ' in text ==> ' ' in text[1..]
    ensures ' ' in text[1..] ==> exists i :: 0 <= i < |text| && text[i] == ' ' && ' ' !in text[..i] && r == text[i + 1..]
  {
    assert text == [text[0]] + text[1..];
    if ' ' in text[1..] {
      var i :| 0 <= i < |text[1..]| && text[1..][i] == ' ' && ' ' !in text[1..][..i] && r == text[1..][i + 1..];
      assert text[..i + 1] == [text[0]] + text[1..][..i];
      assert text[i + 1] == ' ' && text[i + 2..] == text[1..][i + 1..];
    }
  }

  function AssignTitle(text: string): string {
    Text.Trim(AfterFirstSpace(text))
  }

  function BotTask(team: int, title: string, priority: string, assignedTo: Option<int>,
                   user: int, dueDate: Option<int>): (t: Task)
    ensures t.teamId == team && t.title == title && t.priority == priority && t.status == "todo"
    ensures !t.completed && t.createdBy == Some(user) && t.assignedTo == assignedTo && t.dueDate == dueDate
  {
    Task(team, title, priority, "todo", false, None, None, Some(user), assignedTo,
         None, None, None, None, dueDate)
  }

  method AssignCommand(s: Store, tgId: string, text: string) returns (reply: BotReply)
    requires s.Valid()
    modifies s`tasks, s`nextTaskId, s`log
    ensures s.Valid()
    ensures FindUser(s.users, tgId).None? ==> reply == NotLinked
    ensures FindUser(s.users, tgId).Some? && AssignTitle(text) == [] ==> reply == AssignUsage
    ensures !reply.TaskCreatedReply? ==>
      s.tasks == old(s.tasks) && s.nextTaskId == old(s.nextTaskId) && s.log == old(s.log)
    ensures reply.TaskCreatedReply? ==>
      && FindUser(s.users, tgId).Some? && AssignTitle(text) != []
      && var user := FindUser(s.users, tgId).value;
         var team := FirstTeam(s.members, user, |s.teams|);
         && team.Some?
         && reply == TaskCreatedReply(old(s.nextTaskId), AssignTitle(text))
         && old(s.nextTaskId) !in old(s.tasks)
         && s.tasks == old(s.tasks)[old(s.nextTaskId) := BotTask(team.value, AssignTitle(text), "P2", None, user, None)]
         && s.nextTaskId == old(s.nextTaskId) + 1
         && s.log == old(s.log) + [Activity(Some(user), team.value, TaskCreated, Some(old(s.nextTaskId)),
                                            Some(AssignTitle(text)), None, NoDetails)]
    ensures FindUser(s.users, tgId).Some? && AssignTitle(text) != []
            && FirstTeam(s.members, FindUser(s.users, tgId).value, |s.teams|).Some?
            ==> reply.TaskCreatedReply?
  {
    var user := FindUser(s.users, tgId);
    if user.None? {
      return NotLinked;
    }
    var title := AssignTitle(text);
    if title == [] {
      return AssignUsage;
    }
    var team := FirstTeam(s.members, user.value, |s.teams|);
    if team.None? {
      return NoTeam;
    }
    reply := CreateAssigned(s, user.value, team.value, title);
  }

  /** The INSERT behind /assign: a P2 task assigned to nobody, then its task_created entry. */
  method CreateAssigned(s: Store, user: int, team: int, title: string) returns (reply: BotReply)
    requires s.Valid()
    modifies s`tasks, s`nextTaskId, s`log
    ensures s.Valid()
    ensures reply == TaskCreatedReply(old(s.nextTaskId), title) && old(s.nextTaskId) !in old(s.tasks)
    ensures s.tasks == old(s.tasks)[old(s.nextTaskId) := BotTask(team, title, "P2", None, user, None)]
    ensures s.nextTaskId == old(s.nextTaskId) + 1
    ensures s.log == old(s.log) + [Activity(Some(user), team, TaskCreated, Some(old(s.nextTaskId)), Some(title), None, NoDetails)]
  {
    var id := s.AddTask(BotTask(team, title, "P2", None, user, None));
    s.log := s.log + [Activity(Some(user), team, TaskCreated, Some(id), Some(title), None, NoDetails)];
    reply := TaskCreatedReply(id, title);
  }

  // ------------------------------------------------------- /confirm, /cancel

  /** One task as the AI parser proposed it; empty strings stand for absent fields. */
  datatype ParsedTask = ParsedTask(title: string, priority: string, assignedTo: string, dueDate: Option<int>)

  /** A pendingTasks entry: the proposing user, the proposed tasks and the clock reading when they were stored. */
  datatype Pending = Pending(userId: int, tasks: seq<ParsedTask>, stamp: int)

  /** The assignee of a confirmed task: a case-insensitive name match among the team's members. */
  function Assignee(users: seq<User>, members: map<(int, int), Membership>, team: int, p: ParsedTask): Option<int> {
    if p.assignedTo == [] then None else FindMemberByName(users, members, team, p.assignedTo)
  }

  function ConfirmedTask(users: seq<User>, members: map<(int, int), Membership>, team: int, user: int, p: ParsedTask): Task {
    BotTask(team, p.title, TaskRoutes.OrDefault(p.priority, "P2"), Assignee(users, members, team, p), user, p.dueDate)
  }

  function ConfirmEntry(user: int, team: int, id: int, p: ParsedTask): Activity {
    Activity(Some(user), team, TaskCreated, Some(id), Some(p.title), None, NoDetails)
  }

  /** The rows /confirm inserts, in the order of the pending list. */
  function ConfirmedTasks(users: seq<User>, members: map<(int, int), Membership>, team: int, user: int,
                          ps: seq<ParsedTask>): (ts: seq<Task>)
    ensures |ts| == |ps|
  {
    seq(|ps|, k requires 0 <= k < |ps| => ConfirmedTask(users, members, team, user, ps[k]))
  }

  function ConfirmEntries(user: int, team: int, n0: int, ps: seq<ParsedTask>): (es: seq<Activity>)
    ensures |es| == |ps|
  {
    seq(|ps|, k requires 0 <= k < |ps| => ConfirmEntry(user, team, n0 + k, ps[k]))
  }

  /** The rows ts under the consecutive ids n0, n0 + 1, ... */
  function Numbered(n0: int, ts: seq<Task>): map<int, Task> {
    if ts == [] then map[]
    else Numbered(n0, ts[..|ts| - 1])[n0 + |ts| - 1 := ts[|ts| - 1]]
  }

  lemma {:induction false} NumberedAt(n0: int, ts: seq<Task>, id: int)
    ensures id in Numbered(n0, ts) <==> n0 <= id < n0 + |ts|
    ensures n0 <= id < n0 + |ts| ==> Numbered(n0, ts)[id] == ts[id - n0]
  {
    if ts != [] {
      var init := ts[..|ts| - 1];
      NumberedAt(n0, init, id);
      if id != n0 + |ts| - 1 && n0 <= id < n0 + |ts| {
        assert ts[id - n0] == init[id - n0];
      }
    }
  }

  predicate Below(tasks: map<int, Task>, n0: int) {
    forall id :: id in tasks ==> id < n0
  }

  /** tasks with ts inserted under the consecutive fresh ids n0, n0 + 1, ... */
  function Placed(tasks: map<int, Task>, n0: int, ts: seq<Task>): (r: map<int, Task>)
    requires Below(tasks, n0)
  {
    tasks + Numbered(n0, ts)
  }

  /** Placing one more row extends the map by that row alone. */
  lemma PlacedSnoc(tasks: map<int, Task>, n0: int, ts: seq<Task>, row: Task)
    requires Below(tasks, n0)
    ensures Placed(tasks, n0, ts + [row]) == Placed(tasks, n0, ts)[n0 + |ts| := row]
  {
    var a := Placed(tasks, n0, ts + [row]);
    var b := Placed(tasks, n0, ts)[n0 + |ts| := row];
    forall id | id in a ensures id in b && a[id] == b[id] {
      NumberedAt(n0, ts + [row], id);
      NumberedAt(n0, ts, id);
    }
    forall id | id in b ensures id in a {
      NumberedAt(n0, ts + [row], id);
      NumberedAt(n0, ts, id);
    }
  }

  /** The rows Placed adds sit under their own ids; the earlier rows are kept. */
  lemma PlacedFacts(tasks: map<int, Task>, n0: int, ts: seq<Task>)
    requires Below(tasks, n0)
    ensures forall id :: id in Placed(tasks, n0, ts) <==> id in tasks || n0 <= id < n0 + |ts|
    ensures forall id :: id in tasks ==> Placed(tasks, n0, ts)[id] == tasks[id]
    ensures forall k :: 0 <= k < |ts| ==> Placed(tasks, n0, ts)[n0 + k] == ts[k]
  {
    forall id ensures id in Placed(tasks, n0, ts) <==> id in tasks || n0 <= id < n0 + |ts| {
      NumberedAt(n0, ts, id);
    }
    forall id | id in tasks ensures Placed(tasks, n0, ts)[id] == tasks[id] {
      NumberedAt(n0, ts, id);
    }
    forall k | 0 <= k < |ts| ensures Placed(tasks, n0, ts)[n0 + k] == ts[k] {
      NumberedAt(n0, ts, n0 + k);
    }
  }

  function UserOf(s: Store, tgId: string): Option<int>
    reads s
  {
    FindUser(s.users, tgId)
  }

  function TeamOf(s: Store, user: int): Option<int>
    reads s
  {
    FirstTeam(s.members, user, |s.teams|)
  }

  lemma ConfirmedTasksSnoc(users: seq<User>, members: map<(int, int), Membership>, team: int, user: int,
                           ps: seq<ParsedTask>, i: int)
    requires 0 <= i < |ps|
    ensures ConfirmedTasks(users, members, team, user, ps[..i + 1])
            == ConfirmedTasks(users, members, team, user, ps[..i]) + [ConfirmedTask(users, members, team, user, ps[i])]
  {
  }

  lemma ConfirmEntriesSnoc(user: int, team: int, n0: int, ps: seq<ParsedTask>, i: int)
    requires 0 <= i < |ps|
    ensures ConfirmEntries(user, team, n0, ps[..i + 1])
            == ConfirmEntries(user, team, n0, ps[..i]) + [ConfirmEntry(user, team, n0 + i, ps[i])]
  {
  }

  /** The reply lines of /confirm: each new task id with its title. */
  function CreatedLines(n0: int, ps: seq<ParsedTask>): (r: seq<(int, string)>)
    ensures |r| == |ps|
  {
    seq(|ps|, k requires 0 <= k < |ps| => (n0 + k, ps[k].title))
  }

  lemma CreatedLinesSnoc(n0: int, ps: seq<ParsedTask>, i: int)
    requires 0 <= i < |ps|
    ensures CreatedLines(n0, ps[..i + 1]) == CreatedLines(n0, ps[..i]) + [(n0 + i, ps[i].title)]
  {
  }

  /** One iteration of the /confirm loop: resolve the assignee, insert the row, log task_created. */
  method InsertParsed(s: Store, user: int, team: int, task: ParsedTask) returns (id: int)
    requires s.TaskIdsValid()
    modifies s`tasks, s`nextTaskId, s`log
    ensures s.TaskIdsValid()
    ensures id == old(s.nextTaskId) && s.nextTaskId == id + 1
    ensures s.tasks == old(s.tasks)[id := ConfirmedTask(s.users, s.members, team, user, task)]
    ensures s.log == old(s.log) + [ConfirmEntry(user, team, id, task)]
  {
    var assignedTo: Option<int> := None;
    if task.assignedTo != [] {
      assignedTo := FindMemberByName(s.users, s.members, team, task.assignedTo);
    }
    var row := BotTask(team, task.title, TaskRoutes.OrDefault(task.priority, "P2"), assignedTo, user, task.dueDate);
    id := s.AddTask(row);
    s.log := s.log + [ConfirmEntry(user, team, id, task)];
  }

  /** The store after the first i pending tasks of ps were inserted, starting from tasks0, log0 and id n0. */
  ghost predicate InsertedSoFar(s: Store, users: seq<User>, members: map<(int, int), Membership>, user: int, team: int,
                                ps: seq<ParsedTask>, i: int, tasks0: map<int, Task>, log0: seq<Activity>, n0: int)
    reads s
  {
    && 0 <= i <= |ps| && Below(tasks0, n0)
    && s.TaskIdsValid() && s.users == users && s.members == members
    && s.nextTaskId == n0 + i
    && s.tasks == Placed(tasks0, n0, ConfirmedTasks(users, members, team, user, ps[..i]))
    && s.log == log0 + ConfirmEntries(user, team, n0, ps[..i])
  }

  /** One pass of the /confirm loop: the i-th pending task is inserted and its reply line added. */
  method InsertNext(s: Store, users: seq<User>, members: map<(int, int), Membership>, user: int, team: int,
                    ps: seq<ParsedTask>, i: int, ghost tasks0: map<int, Task>, ghost log0: seq<Activity>, n0: int,
                    created: seq<(int, string)>)
    returns (created': seq<(int, string)>)
    requires i < |ps| && InsertedSoFar(s, users, members, user, team, ps, i, tasks0, log0, n0)
    requires created == CreatedLines(n0, ps[..i])
    modifies s`tasks, s`nextTaskId, s`log
    ensures InsertedSoFar(s, users, members, user, team, ps, i + 1, tasks0, log0, n0)
    ensures created' == CreatedLines(n0, ps[..i + 1])
  {
    ConfirmedTasksSnoc(users, members, team, user, ps, i);
    ConfirmEntriesSnoc(user, team, n0, ps, i);
    CreatedLinesSnoc(n0, ps, i);
    PlacedSnoc(tasks0, n0, ConfirmedTasks(users, members, team, user, ps[..i]),
               ConfirmedTask(users, members, team, user, ps[i]));
    var id := InsertParsed(s, user, team, ps[i]);
    created' := created + [(id, ps[i].title)];
  }

  /** The /confirm loop: one task row and one task_created entry per pending task, in order. */
  method InsertAll(s: Store, user: int, team: int, ps: seq<ParsedTask>) returns (created: seq<(int, string)>)
    requires s.Valid()
    modifies s`tasks, s`nextTaskId, s`log
    ensures s.Valid()
    ensures s.nextTaskId == old(s.nextTaskId) + |ps|
    ensures s.tasks == Placed(old(s.tasks), old(s.nextTaskId), ConfirmedTasks(s.users, s.members, team, user, ps))
    ensures s.log == old(s.log) + ConfirmEntries(user, team, old(s.nextTaskId), ps)
    ensures created == CreatedLines(old(s.nextTaskId), ps)
  {
    var users, members := s.users, s.members;
    var n0 := s.nextTaskId;
    ghost var tasks0 := s.tasks;
    ghost var log0 := s.log;
    created := [];
    var i := 0;
    assert ps[..0] == [];
    while i < |ps|
      invariant InsertedSoFar(s, users, members, user, team, ps, i, tasks0, log0, n0)
      invariant created == CreatedLines(n0, ps[..i])
    {
      created := InsertNext(s, users, members, user, team, ps, i, tasks0, log0, n0, created);
      i := i + 1;
    }
    assert ps[..i] == ps;
  }

  /** The delay of the expiry timer: five minutes, in milliseconds. */
  const ExpiryDelay: int := 5 * 60 * 1000

  /**
   * The test inside the expiry callback: the chat's entry is dropped when its
   * stamp equals the given value; every other entry is kept as it is.
   */
  function DropIfStamp(pending: map<string, Pending>, chat: string, value: int): (r: map<string, Pending>)
    ensures forall c :: c in r ==> c in pending && r[c] == pending[c]
    ensures forall c :: c != chat && c in pending ==> c in r
    ensures chat in r <==> chat in pending && pending[chat].stamp != value
  {
    if chat in pending && pending[chat].stamp == value then pending - {chat} else pending
  }

  /**
   * The timer as written, armed at armedAt: it compares the stamp with the
   * clock reading when it fires, ExpiryDelay later.
   */
  function TimerAsWritten(pending: map<string, Pending>, chat: string, armedAt: int): map<string, Pending> {
    DropIfStamp(pending, chat, armedAt + ExpiryDelay)
  }

  /**
   * As written, an entry stored at time t and left alone is still there after
   * its timer fires: the clock has moved on, so the stamp never matches.
   */
  lemma StashedEntryNeverExpires(pending: map<string, Pending>, chat: string, user: int, tasks: seq<ParsedTask>, t: int)
    ensures var p := pending[chat := Pending(user, tasks, t)];
      chat in TimerAsWritten(p, chat, t) && TimerAsWritten(p, chat, t) == p
  {
  }

  /**
   * The timer as evidently intended: it compares the stamp with the one it
   * was armed with, so it drops the entry unless a newer proposal replaced it.
   */
  function TimerIntended(pending: map<string, Pending>, chat: string, armedAt: int): map<string, Pending> {
    DropIfStamp(pending, chat, armedAt)
  }

  /**
   * The intended timer removes an entry nobody replaced, and spares an entry a
   * later proposal stored under the same chat.
   */
  lemma IntendedExpiryDropsOnlyStaleEntries(pending: map<string, Pending>, chat: string, user: int,
                                            tasks: seq<ParsedTask>, t: int, t2: int)
    requires t2 != t
    ensures TimerIntended(pending[chat := Pending(user, tasks, t)], chat, t) == pending - {chat}
    ensures var p := pending[chat := Pending(user, tasks, t2)];
      TimerIntended(p, chat, t) == p
  {
    assert pending[chat := Pending(user, tasks, t)] - {chat} == pending - {chat};
  }

  class Bot {
    /** pendingTasks, keyed by chat id. */
    var pending: map<string, Pending>

    constructor ()
      ensures pending == map[]
    {
      pending := map[];
    }

    /** What the natural-language handler stores once the parser has proposed some tasks. */
    method Stash(chat: string, user: int, tasks: seq<ParsedTask>, now: int)
      modifies this
      ensures tasks == [] ==> pending == old(pending)
      ensures tasks != [] ==> pending == old(pending)[chat := Pending(user, tasks, now)]
    {
      if tasks != [] {
        pending := pending[chat := Pending(user, tasks, now)];
      }
    }

    /** The expiry timer armed at armedAt firing, as written: the stamp is compared with the clock. */
    method Expire(chat: string, armedAt: int)
      modifies this
      ensures pending == TimerAsWritten(old(pending), chat, armedAt)
    {
      var now := armedAt + ExpiryDelay;
      if chat in pending && pending[chat].stamp == now {
        pending := pending - {chat};
      }
    }

    /** The pending entry /confirm accepts: present and owned by the linked user. */
    predicate Confirmable(s: Store, tgId: string, chat: string)
      reads this, s
    {
      UserOf(s, tgId).Some? && chat in pending && pending[chat].userId == UserOf(s, tgId).value
    }

    method Confirm(s: Store, tgId: string, chat: string) returns (reply: BotReply)
      requires s.Valid()
      modifies this, s`tasks, s`nextTaskId, s`log
      ensures s.Valid()
      ensures UserOf(s, tgId).None? ==> reply == NotLinked
      ensures UserOf(s, tgId).Some? && !old(Confirmable(s, tgId, chat)) ==> reply == NothingToConfirm
      ensures old(Confirmable(s, tgId, chat)) && TeamOf(s, UserOf(s, tgId).value).None? ==> reply == NoTeam
      ensures !reply.CreatedTasks? ==>
        pending == old(pending) && s.tasks == old(s.tasks) && s.nextTaskId == old(s.nextTaskId) && s.log == old(s.log)
      ensures reply.CreatedTasks? <==> old(Confirmable(s, tgId, chat)) && TeamOf(s, UserOf(s, tgId).value).Some?
      ensures reply.CreatedTasks? ==> pending == old(pending) - {chat}
      ensures reply.CreatedTasks? ==> s.nextTaskId == old(s.nextTaskId) + |old(pending)[chat].tasks|
      ensures reply.CreatedTasks? ==>
        s.tasks == Placed(old(s.tasks), old(s.nextTaskId),
                          ConfirmedTasks(s.users, s.members, TeamOf(s, UserOf(s, tgId).value).value,
                                         UserOf(s, tgId).value, old(pending)[chat].tasks))
      ensures reply.CreatedTasks? ==>
        s.log == old(s.log) + ConfirmEntries(UserOf(s, tgId).value, TeamOf(s, UserOf(s, tgId).value).value,
                                             old(s.nextTaskId), old(pending)[chat].tasks)
      ensures reply.CreatedTasks? ==> reply.lines == CreatedLines(old(s.nextTaskId), old(pending)[chat].tasks)
    {
      var user := FindUser(s.users, tgId);
      if user.None? {
        return NotLinked;
      }
      if chat !in pending || pending[chat].userId != user.value {
        return NothingToConfirm;
      }
      var p := pending[chat];
      var team := FirstTeam(s.members, user.value, |s.teams|);
      if team.None? {
        return NoTeam;
      }
      var created := InsertAll(s, user.value, team.value, p.tasks);
      pending := pending - {chat};
      reply := CreatedTasks(created);
    }

    method Cancel(chat: string) returns (reply: BotReply)
      modifies this
      ensures chat in old(pending) ==> reply == Cancelled && pending == old(pending) - {chat}
      ensures chat !in old(pending) ==> reply == NothingToCancel && pending == old(pending)
    {
      if chat in pending {
        pending := pending - {chat};
        reply := Cancelled;
      } else {
        reply := NothingToCancel;
      }
    }
  }
}
