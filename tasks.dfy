/**
 * The task routes: create, complete (with the member's XP, today-XP, streak
 * and level-up bookkeeping), uncomplete, delete and assign.
 */
module TaskRoutes {
  import opened Wrappers
  import opened Store
  import Config
  import RankScan

  /** XP_VALUES[priority] || 20: the experience a completed task awards. */
  function Earned(priority: string): (x: int)
    ensures Config.XpValue(priority).Some? ==> x == Config.XpValue(priority).value
    ensures Config.XpValue(priority).None? ==> x == 20
    ensures x in {10, 20, 30, 50}
  {
    Config.XpValue(priority).GetOr(20)
  }

  /**
   * The member row after a completion worth earned experience on day today:
   * the streak grows after a completion yesterday, stays after one today and
   * restarts at 1 otherwise; today's XP accumulates only within one day.
   */
  function ApplyCompletion(m: Membership, earned: int, today: int): (r: Membership)
    ensures r.role == m.role
    ensures r.xp == m.xp + earned
    ensures r.tasksCompleted == m.tasksCompleted + 1
    ensures r.lastCompleted == Some(today)
    ensures m.lastCompleted == Some(today - 1) ==> r.streak == m.streak + 1
    ensures m.lastCompleted == Some(today) ==> r.streak == m.streak && r.todayXp == m.todayXp + earned
    ensures m.lastCompleted != Some(today - 1) && m.lastCompleted != Some(today) ==> r.streak == 1
    ensures m.lastCompleted != Some(today) ==> r.todayXp == earned
  {
    var streak :=
      if m.lastCompleted == Some(today - 1) then m.streak + 1
      else if m.lastCompleted != Some(today) then 1
      else m.streak;
    var todayXp := if m.lastCompleted == Some(today) then m.todayXp + earned else earned;
    m.(xp := m.xp + earned, todayXp := todayXp, streak := streak,
       tasksCompleted := m.tasksCompleted + 1, lastCompleted := Some(today))
  }

  /** The statistics a member row keeps sensible: today's XP is part of the total. */
  predicate StatsSound(m: Membership) {
    0 <= m.todayXp <= m.xp && m.streak >= 0 && m.tasksCompleted >= 0
  }

  lemma CompletionKeepsStatsSound(m: Membership, earned: int, today: int)
    requires StatsSound(m) && earned >= 0
    ensures StatsSound(ApplyCompletion(m, earned, today))
  {
  }

  /** Completions on k consecutive days starting at day first, each worth earned. */
  function CompleteOnDays(m: Membership, earned: int, first: int, k: nat): Membership
    decreases k
  {
    if k == 0 then m else ApplyCompletion(CompleteOnDays(m, earned, first, k - 1), earned, first + k - 1)
  }

  /**
   * One completion a day for k days gives a streak of k, or k more than
   * before when the member also completed something the day before.
   */
  lemma {:induction false} ConsecutiveDaysStreak(m: Membership, earned: int, first: int, k: nat)
    requires k >= 1
    requires m.lastCompleted != Some(first)
    ensures CompleteOnDays(m, earned, first, k).streak
            == (if m.lastCompleted == Some(first - 1) then m.streak else 0) + k
    ensures CompleteOnDays(m, earned, first, k).xp == m.xp + k * earned
    ensures CompleteOnDays(m, earned, first, k).todayXp == earned
    ensures CompleteOnDays(m, earned, first, k).lastCompleted == Some(first + k - 1)
  {
    if k > 1 {
      ConsecutiveDaysStreak(m, earned, first, k - 1);
    }
  }

  /** Two completions on one day: the second keeps the streak and adds to today's XP. */
  lemma SameDayCompletions(m: Membership, e1: int, e2: int, today: int)
    ensures ApplyCompletion(ApplyCompletion(m, e1, today), e2, today).streak
            == ApplyCompletion(m, e1, today).streak
    ensures ApplyCompletion(ApplyCompletion(m, e1, today), e2, today).todayXp
            == ApplyCompletion(m, e1, today).todayXp + e2
    ensures ApplyCompletion(ApplyCompletion(m, e1, today), e2, today).xp == m.xp + e1 + e2
  {
  }

  predicate LeveledUp(oldXp: int, newXp: int) {
    Config.LevelFor(newXp).level > Config.LevelFor(oldXp).level
  }

  /** A completion levels up exactly when the new total reaches a threshold the old one was below. */
  lemma LevelUpIffThresholdCrossed(oldXp: int, newXp: int)
    requires 0 <= oldXp <= newXp
    ensures LeveledUp(oldXp, newXp) <==> exists k :: 0 <= k < |Config.Levels| && oldXp < Config.Levels[k].xp <= newXp
  {
    Config.LevelsAscending();
    var t := Config.Thresholds();
    assert RankScan.StrictlyAscending(t);
    RankScan.CrossedIff(t, oldXp, newXp);
    var i := RankScan.LastAtOrBelow(t, oldXp);
    var j := RankScan.LastAtOrBelow(t, newXp);
    assert LeveledUp(oldXp, newXp) <==> i < j by {
      assert Config.LevelFor(oldXp) == Config.Levels[i] && Config.LevelFor(newXp) == Config.Levels[j];
    }
  }

  /** The activity_log entries of one completion: task_completed, then level_up if any. */
  function CompletionEntries(user: int, team: int, taskId: int, title: string, oldXp: int, earned: int): (es: seq<Activity>)
    ensures 1 <= |es| <= 2
    ensures es[0] == Activity(Some(user), team, TaskCompleted, Some(taskId), Some(title), Some(earned), NoDetails)
    ensures |es| == 2 <==> LeveledUp(oldXp, oldXp + earned)
    ensures |es| == 2 ==> es[1] == Activity(Some(user), team, LevelUp, None, None, None,
                                            LevelDetails(Config.LevelFor(oldXp + earned).level,
                                                         Config.LevelFor(oldXp + earned).rank))
  {
    var done := Activity(Some(user), team, TaskCompleted, Some(taskId), Some(title), Some(earned), NoDetails);
    var newLevel := Config.LevelFor(oldXp + earned);
    if LeveledUp(oldXp, oldXp + earned) then
      [done, Activity(Some(user), team, LevelUp, None, None, None, LevelDetails(newLevel.level, newLevel.rank))]
    else [done]
  }

  /** The task after the complete route: only the three completion fields change. */
  function MarkCompleted(t: Task, user: int, now: int): (r: Task)
    ensures r.completed && r.completedBy == Some(user) && r.completedAt == Some(now)
    ensures r.(completed := t.completed, completedBy := t.completedBy, completedAt := t.completedAt) == t
  {
    t.(completed := true, completedBy := Some(user), completedAt := Some(now))
  }

  /** The task after the uncomplete route: the completion fields are cleared, nothing else. */
  function ClearCompletion(t: Task): (r: Task)
    ensures !r.completed && r.completedBy.None? && r.completedAt.None?
    ensures r.(completed := t.completed, completedBy := t.completedBy, completedAt := t.completedAt) == t
  {
    t.(completed := false, completedBy := None, completedAt := None)
  }

  /** Uncompleting a freshly completed task restores it exactly, status included. */
  lemma UncompleteUndoesComplete(t: Task, user: int, now: int)
    requires !t.completed && t.completedBy.None? && t.completedAt.None?
    ensures ClearCompletion(MarkCompleted(t, user, now)) == t
  {
  }

  /** Delete and assign are open to the task's creator and to team admins. */
  predicate CanManage(t: Task, user: int, role: Role) {
    t.createdBy == Some(user) || role == Admin
  }

  /** A JavaScript `value || null` on an optional id: a zero id counts as absent. */
  function OrNull(v: Option<int>): (r: Option<int>)
    ensures r.Some? <==> v.Some? && v.value != 0
    ensures r.Some? ==> r == v
  {
    if v.Some? && v.value != 0 then v else None
  }

  function OrDefault(v: string, default: string): (r: string)
    ensures v != [] ==> r == v
    ensures v == [] ==> r == default
  {
    if v == [] then default else v
  }

  predicate InTeam(s: Store, taskId: int, team: int)
    reads s
  {
    taskId in s.tasks && s.tasks[taskId].teamId == team
  }

  datatype NewTask = NewTask(
    title: string, priority: string, assignedTo: Option<int>,
    category: Option<string>, dueDate: Option<int>)

  /** A JavaScript `value || null` on an optional string: an empty string counts as absent. */
  function TextOrNull(v: Option<string>): (r: Option<string>)
    ensures r.Some? <==> v.Some? && v.value != []
    ensures r.Some? ==> r == v
  {
    if v.Some? && v.value != [] then v else None
  }

  /**
   * The row the create route inserts for user in team at time now:
   * status_updated_at takes its column default, the insert time.
   */
  function CreatedTask(team: int, user: int, now: int, input: NewTask): (t: Task)
    ensures t.teamId == team && t.title == input.title && !t.completed && t.status == "todo"
    ensures t.priority == OrDefault(input.priority, "P2") && t.createdBy == Some(user)
    ensures t.assignedTo == OrNull(input.assignedTo) && t.completedBy.None? && t.completedAt.None?
    ensures t.category == TextOrNull(input.category) && t.dueDate == input.dueDate
    ensures t.statusUpdatedAt == Some(now) && t.blockerNote.None? && t.blockerSince.None?
  {
    Task(team, input.title, OrDefault(input.priority, "P2"), "todo", false, None, None,
         Some(user), OrNull(input.assignedTo), None, None, Some(now), TextOrNull(input.category), input.dueDate)
  }

  method Create(s: Store, user: int, team: int, now: int, input: NewTask) returns (r: Reply<int>)
    requires s.Valid()
    modifies s`tasks, s`nextTaskId, s`log
    ensures s.Valid()
    ensures (user, team) !in s.members ==> r == Fail(403, "Not a member of this team")
    ensures (user, team) in s.members && input.title == [] ==> r == Fail(400, "Title required")
    ensures r.Fail? ==> s.tasks == old(s.tasks) && s.nextTaskId == old(s.nextTaskId) && s.log == old(s.log)
    ensures r.Ok? <==> (user, team) in s.members && input.title != []
    ensures r.Ok? ==>
      && r.value == old(s.nextTaskId) && r.value !in old(s.tasks)
      && s.tasks == old(s.tasks)[r.value := CreatedTask(team, user, now, input)]
      && s.nextTaskId == old(s.nextTaskId) + 1
      && s.log == old(s.log) + [Activity(Some(user), team, TaskCreated, Some(r.value), Some(input.title), None, NoDetails)]
  {
    if (user, team) !in s.members {
      return Fail(403, "Not a member of this team");
    }
    if input.title == [] {
      return Fail(400, "Title required");
    }
    var id := s.AddTask(CreatedTask(team, user, now, input));
    s.log := s.log + [Activity(Some(user), team, TaskCreated, Some(id), Some(input.title), None, NoDetails)];
    r := Ok(id);
  }

  datatype Completed = Completed(
    xpEarned: int, newXp: int, leveledUp: bool, newLevel: int, newRank: string, streak: int)

  /** The response of a successful completion, computed from the member row before it. */
  function Outcome(m: Membership, earned: int, today: int): (c: Completed)
    ensures c.xpEarned == earned && c.newXp == m.xp + earned
    ensures c.leveledUp <==> LeveledUp(m.xp, m.xp + earned)
    ensures c.newLevel == Config.LevelFor(m.xp + earned).level && c.newRank == Config.LevelFor(m.xp + earned).rank
    ensures c.streak == ApplyCompletion(m, earned, today).streak
  {
    var m2 := ApplyCompletion(m, earned, today);
    var level := Config.LevelFor(m2.xp);
    Completed(earned, m2.xp, LeveledUp(m.xp, m2.xp), level.level, level.rank, m2.streak)
  }

  method Complete(s: Store, user: int, team: int, taskId: int, today: int, now: int) returns (r: Reply<Completed>)
    modifies s`tasks, s`members, s`log
    ensures (user, team) !in old(s.members) ==> r == Fail(403, "Not a member of this team")
    ensures (user, team) in old(s.members) && !old(InTeam(s, taskId, team)) ==> r == Fail(404, "Task not found")
    ensures (user, team) in old(s.members) && old(InTeam(s, taskId, team)) && old(s.tasks[taskId].completed)
            ==> r == Fail(400, "Task already completed")
    ensures r.Fail? ==> s.tasks == old(s.tasks) && s.members == old(s.members) && s.log == old(s.log)
    ensures r.Ok? ==> (user, team) in old(s.members) && old(InTeam(s, taskId, team)) && !old(s.tasks[taskId].completed)
    ensures r.Ok? ==> s.tasks == old(s.tasks)[taskId := MarkCompleted(old(s.tasks[taskId]), user, now)]
    ensures r.Ok? ==> s.members == old(s.members)[(user, team) :=
              ApplyCompletion(old(s.members[(user, team)]), Earned(old(s.tasks[taskId].priority)), today)]
    ensures r.Ok? ==> s.log == old(s.log) + CompletionEntries(user, team, taskId, old(s.tasks[taskId].title),
              old(s.members[(user, team)].xp), Earned(old(s.tasks[taskId].priority)))
    ensures r.Ok? ==> r.value == Outcome(old(s.members[(user, team)]), Earned(old(s.tasks[taskId].priority)), today)
  {
    if (user, team) !in s.members {
      return Fail(403, "Not a member of this team");
    }
    if !InTeam(s, taskId, team) {
      return Fail(404, "Task not found");
    }
    var t := s.tasks[taskId];
    if t.completed {
      return Fail(400, "Task already completed");
    }
    var earned := Earned(t.priority);
    var m := s.members[(user, team)];
    var m2 := ApplyCompletion(m, earned, today);
    var oldLevel := Config.LevelFor(m.xp);
    var newLevel := Config.LevelFor(m2.xp);
    s.tasks := s.tasks[taskId := MarkCompleted(t, user, now)];
    s.members := s.members[(user, team) := m2];
    var done := Activity(Some(user), team, TaskCompleted, Some(taskId), Some(t.title), Some(earned), NoDetails);
    assert CompletionEntries(user, team, taskId, t.title, m.xp, earned)
        == if newLevel.level > oldLevel.level
           then [done, Activity(Some(user), team, LevelUp, None, None, None, LevelDetails(newLevel.level, newLevel.rank))]
           else [done];
    if newLevel.level > oldLevel.level {
      s.log := s.log + [done, Activity(Some(user), team, LevelUp, None, None, None,
                                       LevelDetails(newLevel.level, newLevel.rank))];
    } else {
      s.log := s.log + [done];
    }
    r := Ok(Completed(earned, m2.xp, newLevel.level > oldLevel.level, newLevel.level, newLevel.rank, m2.streak));
  }

  /** Uncomplete: the frame leaves member rows and the log alone, so XP is never taken back. */
  method Uncomplete(s: Store, user: int, team: int, taskId: int) returns (r: Reply<bool>)
    modifies s`tasks
    ensures (user, team) !in old(s.members) ==> r == Fail(403, "Not a member of this team") && s.tasks == old(s.tasks)
    ensures (user, team) in old(s.members) ==> r == Ok(true)
    ensures (user, team) in old(s.members) && old(InTeam(s, taskId, team))
            ==> s.tasks == old(s.tasks)[taskId := ClearCompletion(old(s.tasks[taskId]))]
    ensures !old(InTeam(s, taskId, team)) ==> s.tasks == old(s.tasks)
  {
    if (user, team) !in s.members {
      return Fail(403, "Not a member of this team");
    }
    if InTeam(s, taskId, team) {
      s.tasks := s.tasks[taskId := ClearCompletion(s.tasks[taskId])];
    }
    r := Ok(true);
  }

  method Delete(s: Store, user: int, team: int, taskId: int) returns (r: Reply<bool>)
    modifies s`tasks, s`log
    ensures (user, team) !in old(s.members) ==> r == Fail(403, "Not a member of this team")
    ensures (user, team) in old(s.members) && !old(InTeam(s, taskId, team)) ==> r == Fail(404, "Task not found")
    ensures (user, team) in old(s.members) && old(InTeam(s, taskId, team))
            && !CanManage(old(s.tasks[taskId]), user, old(s.members[(user, team)].role))
            ==> r == Fail(403, "Only task creator or admin can delete")
    ensures r.Fail? ==> s.tasks == old(s.tasks) && s.log == old(s.log)
    ensures r.Ok? ==>
      && (user, team) in old(s.members) && old(InTeam(s, taskId, team))
      && CanManage(old(s.tasks[taskId]), user, old(s.members[(user, team)].role))
      && s.tasks == old(s.tasks) - {taskId}
      && s.log == old(s.log) + [Activity(Some(user), team, TaskDeleted, None, Some(old(s.tasks[taskId].title)), None, NoDetails)]
  {
    if (user, team) !in s.members {
      return Fail(403, "Not a member of this team");
    }
    if !InTeam(s, taskId, team) {
      return Fail(404, "Task not found");
    }
    var t := s.tasks[taskId];
    if !CanManage(t, user, s.members[(user, team)].role) {
      return Fail(403, "Only task creator or admin can delete");
    }
    s.tasks := s.tasks - {taskId};
    s.log := s.log + [Activity(Some(user), team, TaskDeleted, None, Some(t.title), None, NoDetails)];
    r := Ok(true);
  }

  datatype Assigned = Assigned(taskId: int, assignedTo: Option<int>, assignedToName: Option<string>)

  method Assign(s: Store, user: int, team: int, taskId: int, assignedTo: Option<int>) returns (r: Reply<Assigned>)
    modifies s`tasks, s`log
    ensures (user, team) !in old(s.members) ==> r == Fail(403, "Not a member of this team")
    ensures (user, team) in old(s.members) && !old(InTeam(s, taskId, team)) ==> r == Fail(404, "Task not found")
    ensures (user, team) in old(s.members) && old(InTeam(s, taskId, team))
            && !CanManage(old(s.tasks[taskId]), user, old(s.members[(user, team)].role))
            ==> r == Fail(403, "Only task creator or admin can assign")
    ensures r.Fail? ==> s.tasks == old(s.tasks) && s.log == old(s.log)
    ensures r.Ok? ==>
      && (user, team) in old(s.members) && old(InTeam(s, taskId, team))
      && CanManage(old(s.tasks[taskId]), user, old(s.members[(user, team)].role))
      && s.tasks == old(s.tasks)[taskId := old(s.tasks[taskId]).(assignedTo := OrNull(assignedTo))]
      && s.log == old(s.log) + [Activity(Some(user), team, TaskAssigned, Some(taskId), Some(old(s.tasks[taskId].title)), None, NoDetails)]
      && r.value.assignedTo == OrNull(assignedTo)
      && (r.value.assignedToName.Some? <==> OrNull(assignedTo).Some? && 0 < assignedTo.value <= |s.users|)
  {
    if (user, team) !in s.members {
      return Fail(403, "Not a member of this team");
    }
    if !InTeam(s, taskId, team) {
      return Fail(404, "Task not found");
    }
    var t := s.tasks[taskId];
    if !CanManage(t, user, s.members[(user, team)].role) {
      return Fail(403, "Only task creator or admin can assign");
    }
    var name: Option<string> := None;
    var a := OrNull(assignedTo);
    if a.Some? && 0 < a.value <= |s.users| {
      name := Some(s.users[a.value - 1].displayName);
    }
    s.tasks := s.tasks[taskId := t.(assignedTo := a)];
    s.log := s.log + [Activity(Some(user), team, TaskAssigned, Some(taskId), Some(t.title), None, NoDetails)];
    r := Ok(Assigned(taskId, a, name));
  }
}
