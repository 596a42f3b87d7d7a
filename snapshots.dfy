/**
 * The weekly snapshot job: for every team, in id order, rank the members
 * over this week and insert the snapshot row, skipping a row that conflicts
 * with one already stored. A team whose processing throws is logged and
 * skipped; the loop goes on with the next team. Which teams throw is a
 * parameter, since the database errors behind it are not modelled.
 */
module SnapshotJob {
  import opened Store
  import Calendar
  import Analytics

  /** INSERT ... ON CONFLICT DO NOTHING. */
  function InsertOrSkip(snaps: seq<Snapshot>, x: Snapshot): (r: seq<Snapshot>)
    ensures Conflicts(snaps, x) ==> r == snaps
    ensures !Conflicts(snaps, x) ==> r == snaps + [x]
  {
    if Conflicts(snaps, x) then snaps else snaps + [x]
  }

  function WeeklySnapshot(users: seq<User>, members: map<(int, int), Membership>, tasks: map<int, Task>,
                          team: int, start: int, end: int): Snapshot {
    Analytics.SnapshotOf(team, Weekly, start, end,
                         Analytics.Ranked(Analytics.MemberRows(users, members, tasks, team, start, end)))
  }

  /** The snapshot each team would get this week. */
  function WeekSnapshots(users: seq<User>, members: map<(int, int), Membership>, tasks: map<int, Task>,
                         start: int, end: int): int -> Snapshot {
    t => WeeklySnapshot(users, members, tasks, t, start, end)
  }

  /** The snapshots after the job has handled teams 1..n, team t offering snapOf(t). */
  function Job(snaps: seq<Snapshot>, n: int, fails: set<int>, snapOf: int -> Snapshot): seq<Snapshot>
    decreases n
  {
    if n <= 0 then snaps
    else
      var prev := Job(snaps, n - 1, fails, snapOf);
      if n in fails then prev else InsertOrSkip(prev, snapOf(n))
  }

  method Generate(s: Store, now: int, fails: set<int>) returns (start: int, end: int)
    modifies s`snapshots
    ensures Calendar.IsWeekOf(now, start, end)
    ensures s.snapshots == Job(old(s.snapshots), |s.teams|, fails, WeekSnapshots(s.users, s.members, s.tasks, start, end))
  {
    start, end := Calendar.WeekBounds(now);
    RunJob(s, |s.teams|, fails, WeekSnapshots(s.users, s.members, s.tasks, start, end));
  }

  /** The loop over teams 1..n; a failing team's try block ends before its insert. */
  method RunJob(s: Store, n: int, fails: set<int>, snapOf: int -> Snapshot)
    modifies s`snapshots
    ensures s.snapshots == Job(old(s.snapshots), n, fails, snapOf)
  {
    var team := 1;
    while team <= n
      invariant 1 <= team <= (if n < 1 then 1 else n + 1)
      invariant s.snapshots == Job(old(s.snapshots), team - 1, fails, snapOf)
    {
      if team !in fails {
        var snap := snapOf(team);
        if !Conflicts(s.snapshots, snap) {
          s.snapshots := s.snapshots + [snap];
        }
      }
      team := team + 1;
    }
  }

  /** Rows stored before the job are left exactly as they were. */
  lemma {:induction false} JobKeepsExisting(snaps: seq<Snapshot>, n: int, fails: set<int>, snapOf: int -> Snapshot)
    ensures |Job(snaps, n, fails, snapOf)| >= |snaps|
    ensures Job(snaps, n, fails, snapOf)[..|snaps|] == snaps
    decreases n
  {
    if n > 0 {
      JobKeepsExisting(snaps, n - 1, fails, snapOf);
    }
  }

  /** Every new row is the snapshot of a team 1..n that did not fail. */
  lemma {:induction false} JobAddsOnlyHealthy(snaps: seq<Snapshot>, n: int, fails: set<int>, snapOf: int -> Snapshot)
    ensures forall i :: |snaps| <= i < |Job(snaps, n, fails, snapOf)| ==>
      exists t :: 0 < t <= n && t !in fails && Job(snaps, n, fails, snapOf)[i] == snapOf(t)
    decreases n
  {
    if n > 0 {
      JobAddsOnlyHealthy(snaps, n - 1, fails, snapOf);
      var prev := Job(snaps, n - 1, fails, snapOf);
      var r := Job(snaps, n, fails, snapOf);
      forall i | |snaps| <= i < |r| ensures exists t :: 0 < t <= n && t !in fails && r[i] == snapOf(t) {
        if i < |prev| {
          assert r[i] == prev[i];
          var t :| 0 < t <= n - 1 && t !in fails && prev[i] == snapOf(t);
          assert 0 < t <= n && t !in fails && r[i] == snapOf(t);
        } else {
          assert n !in fails && r[i] == snapOf(n);
        }
      }
    } else {
      assert Job(snaps, n, fails, snapOf) == snaps;
    }
  }

  /** A failure in one team does not cost any other team its row: each healthy team ends up with one. */
  lemma {:induction false} JobCoversHealthy(snaps: seq<Snapshot>, n: int, fails: set<int>, snapOf: int -> Snapshot)
    ensures forall t :: 0 < t <= n && t !in fails ==> Conflicts(Job(snaps, n, fails, snapOf), snapOf(t))
    decreases n
  {
    if n > 0 {
      JobCoversHealthy(snaps, n - 1, fails, snapOf);
      var prev := Job(snaps, n - 1, fails, snapOf);
      var r := Job(snaps, n, fails, snapOf);
      assert |r| >= |prev| && r[..|prev|] == prev;
      forall t | 0 < t <= n && t !in fails ensures Conflicts(r, snapOf(t)) {
        var x := snapOf(t);
        if t < n || Conflicts(prev, x) {
          var i :| 0 <= i < |prev| && SameKey(prev[i], x);
          assert r[i] == prev[i];
        } else {
          assert r[|prev|] == x;
        }
      }
    }
  }

  /** ON CONFLICT DO NOTHING keeps the key unique: the job never stores a second snapshot for a team and week. */
  lemma {:induction false} JobKeepsKeysUnique(snaps: seq<Snapshot>, n: int, fails: set<int>, snapOf: int -> Snapshot)
    requires KeysUnique(snaps)
    ensures KeysUnique(Job(snaps, n, fails, snapOf))
    decreases n
  {
    if n > 0 {
      JobKeepsKeysUnique(snaps, n - 1, fails, snapOf);
      var prev := Job(snaps, n - 1, fails, snapOf);
      var x := snapOf(n);
      if n !in fails && !Conflicts(prev, x) {
        var r := prev + [x];
        forall i, j | 0 <= i < j < |r| ensures !SameKey(r[i], r[j]) {
          if j == |prev| {
            assert r[i] == prev[i] && r[j] == x;
          } else {
            assert r[i] == prev[i] && r[j] == prev[j];
          }
        }
      }
    }
  }
}
