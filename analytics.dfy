/**
 * The analytics routes: the weekly and monthly leaderboards with their MVP,
 * the manual snapshot, and the activity feed. A member's period count is
 * the number of completed tasks assigned to them whose completion instant
 * lies in the period; the join does not restrict those tasks to the team.
 */
module Analytics {
  import opened Wrappers
  import opened Store
  import opened StableSort
  import Calendar

  /** One row of the period query. */
  datatype MemberRow = MemberRow(id: int, name: string, xp: int, tasksCompleted: int, periodTasks: nat)

  predicate CountsIn(t: Task, u: int, start: int, end: int) {
    t.completed && t.assignedTo == Some(u) && t.completedAt.Some? && start <= t.completedAt.value <= end
  }

  /** COUNT(t.id) FILTER (WHERE completed AND completed_at BETWEEN start AND end). */
  function PeriodTasks(tasks: map<int, Task>, u: int, start: int, end: int): nat {
    |set id | id in tasks && CountsIn(tasks[id], u, start, end)|
  }

  /** The rows of the team's members, in user-id order. */
  function MemberRows(users: seq<User>, members: map<(int, int), Membership>, tasks: map<int, Task>,
                      team: int, start: int, end: int): (r: seq<MemberRow>)
    ensures forall i :: 0 <= i < |r| ==> 0 < r[i].id <= |users| && (r[i].id, team) in members
    ensures forall u :: 0 < u <= |users| && (u, team) in members ==> exists i :: 0 <= i < |r| && r[i].id == u
  {
    var ids := MembersOf(members, team, |users|);
    var r := seq(|ids|, i requires 0 <= i < |ids| =>
      MemberRow(ids[i], users[ids[i] - 1].displayName, members[(ids[i], team)].xp,
                members[(ids[i], team)].tasksCompleted, PeriodTasks(tasks, ids[i], start, end)));
    assert forall u :: 0 < u <= |users| && (u, team) in members ==> r[IndexOf(ids, u)].id == u;
    r
  }

  function IndexOf(ids: seq<int>, u: int): (i: int)
    requires u in ids
    ensures 0 <= i < |ids| && ids[i] == u
  {
    if ids[0] == u then 0 else 1 + IndexOf(ids[1..], u)
  }

  function XpKey(m: MemberRow): real { m.xp as real }
  function TasksKey(m: MemberRow): real { m.periodTasks as real }
  function Xp(m: MemberRow): int { m.xp }
  function Tasks(m: MemberRow): int { m.periodTasks }

  /**
   * ORDER BY tm.xp DESC followed by the stable in-place sort on the period
   * count (the leaderboards), which is also ORDER BY period_tasks DESC,
   * tm.xp DESC (the snapshots). Rows equal on both keys stay in user-id
   * order, where SQL leaves their order open.
   */
  function Ranked(rows: seq<MemberRow>): seq<MemberRow> {
    SortDesc(SortDesc(rows, XpKey), TasksKey)
  }

  /** The ranking is ordered by period count, then xp, and holds exactly the input rows. */
  lemma RankedOrder(rows: seq<MemberRow>)
    ensures SortedLex(Ranked(rows), TasksKey, XpKey)
    ensures multiset(Ranked(rows)) == multiset(rows) && |Ranked(rows)| == |rows|
    ensures Sum(Ranked(rows), Tasks) == Sum(rows, Tasks) && Sum(Ranked(rows), Xp) == Sum(rows, Xp)
  {
    SortDescLex(SortDesc(rows, XpKey), TasksKey, XpKey);
    SumSortDesc(rows, XpKey, Tasks);
    SumSortDesc(SortDesc(rows, XpKey), TasksKey, Tasks);
    SumSortDesc(rows, XpKey, Xp);
    SumSortDesc(SortDesc(rows, XpKey), TasksKey, Xp);
  }

  /** sorted[0], or null when the team has no members. */
  function First(sorted: seq<MemberRow>): Option<MemberRow> {
    if sorted == [] then None else Some(sorted[0])
  }

  /** The MVP has the highest period count, and the highest xp among those tied with it. */
  lemma MvpIsBest(rows: seq<MemberRow>)
    ensures First(Ranked(rows)).None? <==> rows == []
    ensures First(Ranked(rows)).Some? ==> First(Ranked(rows)).value in rows
    ensures First(Ranked(rows)).Some? ==> forall m :: m in rows ==>
      m.periodTasks < First(Ranked(rows)).value.periodTasks
      || (m.periodTasks == First(Ranked(rows)).value.periodTasks && m.xp <= First(Ranked(rows)).value.xp)
  {
    RankedOrder(rows);
    var r := Ranked(rows);
    if r != [] {
      assert r[0] in multiset(rows);
      forall m | m in rows
        ensures m.periodTasks < r[0].periodTasks || (m.periodTasks == r[0].periodTasks && m.xp <= r[0].xp)
      {
        assert m in multiset(r);
        var j :| 0 <= j < |r| && r[j] == m;
        if j > 0 {
          assert TasksKey(r[0]) > TasksKey(r[j]) || (TasksKey(r[0]) == TasksKey(r[j]) && XpKey(r[0]) >= XpKey(r[j]));
        }
      }
    } else {
      assert |rows| == 0;
    }
  }

  datatype Standing = Standing(row: MemberRow, rank: int)

  /** result.rows.map((m, i) => ({ ..., rank: i + 1 })). */
  function Standings(sorted: seq<MemberRow>): (r: seq<Standing>)
    ensures |r| == |sorted|
    ensures forall i :: 0 <= i < |r| ==> r[i] == Standing(sorted[i], i + 1)
  {
    seq(|sorted|, i requires 0 <= i < |sorted| => Standing(sorted[i], i + 1))
  }

  /** Ranks run 1, 2, ... down the ordering: a better rank never has a lower period count. */
  lemma StandingsOrdered(rows: seq<MemberRow>)
    ensures forall i, j :: 0 <= i < j < |Standings(Ranked(rows))| ==>
      Standings(Ranked(rows))[i].rank < Standings(Ranked(rows))[j].rank
      && Standings(Ranked(rows))[i].row.periodTasks >= Standings(Ranked(rows))[j].row.periodTasks
  {
    RankedOrder(rows);
    var r := Ranked(rows);
    forall i, j | 0 <= i < j < |r| ensures r[i].periodTasks >= r[j].periodTasks {
      assert TasksKey(r[i]) >= TasksKey(r[j]);
    }
  }

  datatype Board = Board(start: int, end: int, members: seq<Standing>, mvp: Option<MemberRow>)

  /** GET weekly: any signed-in user may read it; there is no membership check. */
  method WeeklyBoard(s: Store, team: int, now: int) returns (b: Board)
    ensures Calendar.IsWeekOf(now, b.start, b.end)
    ensures b.members == Standings(Ranked(MemberRows(s.users, s.members, s.tasks, team, b.start, b.end)))
    ensures b.mvp == First(Ranked(MemberRows(s.users, s.members, s.tasks, team, b.start, b.end)))
  {
    var start, end := Calendar.WeekBounds(now);
    var sorted := Ranked(MemberRows(s.users, s.members, s.tasks, team, start, end));
    b := Board(start, end, Standings(sorted), First(sorted));
  }

  /** GET monthly, the same ranking over the calendar month of today. */
  method MonthlyBoard(s: Store, team: int, today: Calendar.Civil) returns (b: Board)
    requires 0 <= today.month < 12
    ensures Calendar.IsMonthOf(today, b.start, b.end)
    ensures b.members == Standings(Ranked(MemberRows(s.users, s.members, s.tasks, team, b.start, b.end)))
    ensures b.mvp == First(Ranked(MemberRows(s.users, s.members, s.tasks, team, b.start, b.end)))
  {
    var start, end := Calendar.MonthBounds(today);
    var sorted := Ranked(MemberRows(s.users, s.members, s.tasks, team, start, end));
    b := Board(start, end, Standings(sorted), First(sorted));
  }

  function ParsePeriod(p: string): Option<Period> {
    if p == "weekly" then Some(Weekly) else if p == "monthly" then Some(Monthly) else None
  }

  /** The analytics_snapshots row for ranked rows: mvp?.id || null and parseInt(mvp?.period_tasks) || 0. */
  function SnapshotOf(team: int, period: Period, start: int, end: int, sorted: seq<MemberRow>): Snapshot {
    Snapshot(team, period, start, end,
             if sorted != [] && sorted[0].id != 0 then Some(sorted[0].id) else None,
             if sorted != [] then sorted[0].periodTasks else 0,
             Sum(sorted, Tasks), Sum(sorted, Xp), |sorted|)
  }

  /** The totals are those of the members, whatever their order, and the MVP columns are the top row's. */
  lemma SnapshotTotals(team: int, period: Period, start: int, end: int, rows: seq<MemberRow>)
    ensures SnapshotOf(team, period, start, end, Ranked(rows)).totalTasks == Sum(rows, Tasks)
    ensures SnapshotOf(team, period, start, end, Ranked(rows)).totalXp == Sum(rows, Xp)
    ensures SnapshotOf(team, period, start, end, Ranked(rows)).teamSize == |rows|
    ensures rows == [] ==> SnapshotOf(team, period, start, end, Ranked(rows)).mvpUserId.None?
                           && SnapshotOf(team, period, start, end, Ranked(rows)).mvpTasksCompleted == 0
    ensures rows != [] ==> SnapshotOf(team, period, start, end, Ranked(rows)).mvpTasksCompleted
                           == First(Ranked(rows)).value.periodTasks
  {
    RankedOrder(rows);
  }

  /**
   * The snapshot's period: the current Monday-to-Sunday week, or the current
   * calendar month. now and today are one clock reading, as instant and as
   * UTC calendar date.
   */
  method PeriodBounds(p: Period, now: int, today: Calendar.Civil) returns (start: int, end: int)
    requires Calendar.ValidCivil(today) && Calendar.Instant(today) == now
    ensures p == Weekly ==> Calendar.IsWeekOf(now, start, end)
    ensures p == Monthly ==> Calendar.IsMonthOf(today, start, end)
    ensures start <= now <= end
  {
    if p == Weekly {
      start, end := Calendar.WeekBounds(now);
    } else {
      start, end := Calendar.MonthBounds(today);
    }
  }

  /**
   * Whether start is where the period holding now begins: the Monday of the
   * week, or day 1 of today's month.
   */
  ghost predicate StartsPeriod(p: Period, now: int, today: Calendar.Civil, start: int)
    requires 0 <= today.month < 12
  {
    if p == Weekly then Calendar.IsWeekOf(now, start, start + 7 * Calendar.DayMs - 1)
    else start == Calendar.DayNumber(today.year, today.month, 1) * Calendar.DayMs
  }

  /** A stored snapshot already has this team, period kind and period start. */
  ghost predicate SnapshotTaken(snaps: seq<Snapshot>, team: int, p: Period, now: int, today: Calendar.Civil)
    requires 0 <= today.month < 12
  {
    exists i :: 0 <= i < |snaps| && snaps[i].teamId == team && snaps[i].period == p
                && StartsPeriod(p, now, today, snaps[i].periodStart)
  }

  /**
   * The database's unique-violation message for a second snapshot of the
   * same team, period and start (the constraint's name is not modelled).
   */
  const DuplicateSnapshot := "duplicate key value violates unique constraint"

  /**
   * snap is team's snapshot of kind p for the period holding now: the week
   * of now or the month of today, built from the ranked member rows.
   */
  ghost predicate PeriodSnapshot(s: Store, snap: Snapshot, team: int, p: Period, now: int, today: Calendar.Civil)
    requires 0 <= today.month < 12
    reads s
  {
    && snap.teamId == team && snap.period == p && snap.periodStart <= now <= snap.periodEnd
    && (p == Weekly ==> Calendar.IsWeekOf(now, snap.periodStart, snap.periodEnd))
    && (p == Monthly ==> Calendar.IsMonthOf(today, snap.periodStart, snap.periodEnd))
    && snap == SnapshotOf(team, p, snap.periodStart, snap.periodEnd,
                          Ranked(MemberRows(s.users, s.members, s.tasks, team, snap.periodStart, snap.periodEnd)))
  }

  /** The snapshot of team over the period of kind p holding now, from the ranked member rows. */
  method BuildSnapshot(s: Store, team: int, p: Period, now: int, today: Calendar.Civil) returns (snap: Snapshot)
    requires Calendar.ValidCivil(today) && Calendar.Instant(today) == now
    ensures PeriodSnapshot(s, snap, team, p, now, today)
  {
    var start, end := PeriodBounds(p, now, today);
    var sorted := Ranked(MemberRows(s.users, s.members, s.tasks, team, start, end));
    snap := SnapshotOf(team, p, start, end, sorted);
  }

  /** The plain INSERT: it fails on a taken key and writes nothing, else it appends the row. */
  method InsertSnapshot(s: Store, snap: Snapshot) returns (r: Reply<Snapshot>)
    modifies s`snapshots
    ensures Conflicts(old(s.snapshots), snap) ==> r == Fail(500, DuplicateSnapshot) && s.snapshots == old(s.snapshots)
    ensures !Conflicts(old(s.snapshots), snap) ==> r == Ok(snap) && s.snapshots == old(s.snapshots) + [snap]
    ensures KeysUnique(old(s.snapshots)) ==> KeysUnique(s.snapshots)
  {
    if Conflicts(s.snapshots, snap) {
      return Fail(500, DuplicateSnapshot);
    }
    AppendKeepsKeysUnique(s.snapshots, snap);
    s.snapshots := s.snapshots + [snap];
    r := Ok(snap);
  }

  /**
   * POST snapshot: the period is checked before the caller's role; the plain
   * INSERT fails, and the error handler answers 500, when the period's
   * snapshot is already stored.
   */
  method TakeSnapshot(s: Store, user: int, team: int, period: string, now: int, today: Calendar.Civil)
    returns (r: Reply<Snapshot>)
    requires Calendar.ValidCivil(today) && Calendar.Instant(today) == now
    modifies s`snapshots
    ensures ParsePeriod(period).None? ==> r == Fail(400, "Period must be weekly or monthly")
    ensures ParsePeriod(period).Some? && !s.IsAdmin(user, team) ==> r == Fail(403, "Team admin access required")
    ensures ParsePeriod(period).Some? && s.IsAdmin(user, team)
            && SnapshotTaken(old(s.snapshots), team, ParsePeriod(period).value, now, today)
            ==> r == Fail(500, DuplicateSnapshot)
    ensures r.Fail? ==> s.snapshots == old(s.snapshots)
    ensures r.Ok? <==> ParsePeriod(period).Some? && s.IsAdmin(user, team)
                       && !SnapshotTaken(old(s.snapshots), team, ParsePeriod(period).value, now, today)
    ensures r.Ok? ==> s.snapshots == old(s.snapshots) + [r.value]
    ensures r.Ok? ==> !Conflicts(old(s.snapshots), r.value)
    ensures KeysUnique(old(s.snapshots)) ==> KeysUnique(s.snapshots)
    ensures r.Ok? ==> PeriodSnapshot(s, r.value, team, ParsePeriod(period).value, now, today)
  {
    var p := ParsePeriod(period);
    if p.None? {
      return Fail(400, "Period must be weekly or monthly");
    }
    if !s.IsAdmin(user, team) {
      return Fail(403, "Team admin access required");
    }
    var snap := BuildSnapshot(s, team, p.value, now, today);
    TakenIffConflicts(s.snapshots, snap, now, today);
    r := InsertSnapshot(s, snap);
  }

  /** The bounds PeriodBounds gives are the only period start holding now. */
  lemma StartsPeriodIsStart(p: Period, now: int, today: Calendar.Civil, start: int, end: int)
    requires 0 <= today.month < 12
    requires p == Weekly ==> Calendar.IsWeekOf(now, start, end)
    requires p == Monthly ==> Calendar.IsMonthOf(today, start, end)
    ensures forall x :: StartsPeriod(p, now, today, x) <==> x == start
  {
    forall x | StartsPeriod(p, now, today, x) && p == Weekly
      ensures x == start
    {
      Calendar.WeekOfUnique(now, x, x + 7 * Calendar.DayMs - 1, start, end);
    }
  }

  /** A snapshot over the period holding now conflicts exactly when that period's snapshot is taken. */
  lemma TakenIffConflicts(snaps: seq<Snapshot>, snap: Snapshot, now: int, today: Calendar.Civil)
    requires 0 <= today.month < 12
    requires snap.period == Weekly ==> Calendar.IsWeekOf(now, snap.periodStart, snap.periodEnd)
    requires snap.period == Monthly ==> Calendar.IsMonthOf(today, snap.periodStart, snap.periodEnd)
    ensures Conflicts(snaps, snap) <==> SnapshotTaken(snaps, snap.teamId, snap.period, now, today)
  {
    StartsPeriodIsStart(snap.period, now, today, snap.periodStart, snap.periodEnd);
  }

  /** Appending a snapshot whose key is new keeps the keys unique. */
  lemma AppendKeepsKeysUnique(snaps: seq<Snapshot>, x: Snapshot)
    requires !Conflicts(snaps, x)
    ensures KeysUnique(snaps) ==> KeysUnique(snaps + [x])
  {
    var r := snaps + [x];
    if KeysUnique(snaps) {
      forall i, j | 0 <= i < j < |r| ensures !SameKey(r[i], r[j]) {
        if j == |snaps| {
          assert r[i] == snaps[i];
        } else {
          assert r[i] == snaps[i] && r[j] == snaps[j];
        }
      }
    }
  }

  /** parseInt(req.query.limit) || 20, on parseInt's result (None for NaN). */
  function FeedLimit(parsed: Option<int>): (n: int)
    ensures parsed.None? || parsed == Some(0) ==> n == 20
    ensures parsed.Some? && parsed.value != 0 ==> n == parsed.value
  {
    if parsed.Some? && parsed.value != 0 then parsed.value else 20
  }

  /** The team's activity entries, oldest first. */
  function TeamLog(log: seq<Activity>, team: int): (r: seq<Activity>)
    ensures forall a :: a in r <==> a in log && a.teamId == team
    ensures |r| <= |log|
  {
    if log == [] then []
    else TeamLog(log[..|log| - 1], team) + (if log[|log| - 1].teamId == team then [log[|log| - 1]] else [])
  }

  function Reversed<T>(s: seq<T>): (r: seq<T>)
    ensures |r| == |s| && forall i :: 0 <= i < |s| ==> r[i] == s[|s| - 1 - i]
  {
    seq(|s|, i requires 0 <= i < |s| => s[|s| - 1 - i])
  }

  /** GET activity: ORDER BY created_at DESC LIMIT n over the team's entries. */
  method Feed(s: Store, user: int, team: int, limit: Option<int>) returns (r: Reply<seq<Activity>>)
    ensures (user, team) !in s.members ==> r == Fail(403, "Not a member of this team")
    ensures (user, team) in s.members && FeedLimit(limit) < 0 ==> r == Fail(500, "LIMIT must not be negative")
    ensures r.Ok? <==> (user, team) in s.members && FeedLimit(limit) >= 0
    ensures r.Ok? ==> r.value == Take(Reversed(TeamLog(s.log, team)), FeedLimit(limit))
  {
    var n := FeedLimit(limit);
    if (user, team) !in s.members {
      return Fail(403, "Not a member of this team");
    }
    if n < 0 {
      return Fail(500, "LIMIT must not be negative");
    }
    r := Ok(Take(Reversed(TeamLog(s.log, team)), n));
  }

  /** The feed holds at most n entries, all of the team, newest first. */
  lemma FeedContents(log: seq<Activity>, team: int, n: nat)
    ensures |Take(Reversed(TeamLog(log, team)), n)| <= n
    ensures forall a :: a in Take(Reversed(TeamLog(log, team)), n) ==> a in log && a.teamId == team
    ensures n > 0 && TeamLog(log, team) != [] ==>
      Take(Reversed(TeamLog(log, team)), n)[0] == TeamLog(log, team)[|TeamLog(log, team)| - 1]
    ensures n >= |TeamLog(log, team)| ==> |Take(Reversed(TeamLog(log, team)), n)| == |TeamLog(log, team)|
  {
    var t := TeamLog(log, team);
    var r := Take(Reversed(t), n);
    forall a | a in r ensures a in log && a.teamId == team {
      var i :| 0 <= i < |r| && r[i] == a;
      assert a == t[|t| - 1 - i];
      assert a in t;
    }
  }
}
