/**
 * The team routes: create (superadmins only, the creator becomes admin),
 * join by id and code, join by code alone, role change with the sole-admin
 * guard, and member removal. Together the last two never leave a team that
 * has an admin without one.
 */
module TeamRoutes {
  import opened Wrappers
  import opened Store

  /** One upper-case hexadecimal digit. */
  function HexDigit(d: int): (c: char)
    requires 0 <= d < 16
    ensures '0' <= c <= '9' || 'A' <= c <= 'F'
  {
    if d < 10 then ('0' as int + d) as char else ('A' as int + d - 10) as char
  }

  function HexValue(c: char): int {
    if '0' <= c <= '9' then c as int - '0' as int
    else if 'A' <= c <= 'F' then c as int - 'A' as int + 10
    else 0
  }

  /** randomBytes(3).toString('hex').toUpperCase() on the three bytes drawn. */
  function TeamCode(b0: int, b1: int, b2: int): (code: string)
    requires 0 <= b0 < 256 && 0 <= b1 < 256 && 0 <= b2 < 256
    ensures |code| == 6
    ensures forall i :: 0 <= i < 6 ==> '0' <= code[i] <= '9' || 'A' <= code[i] <= 'F'
  {
    [HexDigit(b0 / 16), HexDigit(b0 % 16), HexDigit(b1 / 16), HexDigit(b1 % 16), HexDigit(b2 / 16), HexDigit(b2 % 16)]
  }

  /** Reads the three bytes back out of a team code. */
  function CodeBytes(code: string): (int, int, int)
    requires |code| == 6
  {
    (HexValue(code[0]) * 16 + HexValue(code[1]),
     HexValue(code[2]) * 16 + HexValue(code[3]),
     HexValue(code[4]) * 16 + HexValue(code[5]))
  }

  lemma HexRoundTrip(d: int)
    requires 0 <= d < 16
    ensures HexValue(HexDigit(d)) == d
  {
  }

  /** The code determines the bytes it was made from: distinct draws give distinct codes. */
  lemma TeamCodeRoundTrip(b0: int, b1: int, b2: int)
    requires 0 <= b0 < 256 && 0 <= b1 < 256 && 0 <= b2 < 256
    ensures CodeBytes(TeamCode(b0, b1, b2)) == (b0, b1, b2)
  {
    HexRoundTrip(b0 / 16); HexRoundTrip(b0 % 16);
    HexRoundTrip(b1 / 16); HexRoundTrip(b1 % 16);
    HexRoundTrip(b2 / 16); HexRoundTrip(b2 % 16);
  }

  /** The new team row; collaboration, webhooks and incoming hooks start off. */
  function NewTeam(name: string, code: string, user: int): Team {
    Team(name, code, user, false, None, None)
  }

  datatype Created = Created(id: int, name: string, code: string)

  /**
   * The error PostgreSQL raises when the drawn code is already taken: the
   * code column is unique (its default constraint name is teams_code_key),
   * the INSERT is not retried, and the error handler answers 500 with it.
   */
  const DuplicateCode := "duplicate key value violates unique constraint \"teams_code_key\""

  /**
   * POST /teams. The code comes from three random bytes, which are
   * parameters; a draw that repeats an existing code makes the INSERT fail.
   */
  method Create(s: Store, user: int, name: string, b0: int, b1: int, b2: int) returns (r: Reply<Created>)
    requires s.Valid() && 0 < user <= |s.users|
    requires 0 <= b0 < 256 && 0 <= b1 < 256 && 0 <= b2 < 256
    modifies s`teams, s`members
    ensures s.Valid()
    ensures name == [] ==> r == Fail(400, "Team name required")
    ensures name != [] && !s.users[user - 1].superadmin ==> r == Fail(403, "Only superadmins can create teams")
    ensures name != [] && s.users[user - 1].superadmin && TeamByCode(old(s.teams), TeamCode(b0, b1, b2)).Some? ==>
      r == Fail(500, DuplicateCode)
    ensures r.Fail? ==> s.teams == old(s.teams) && s.members == old(s.members)
    ensures r.Ok? <==> name != [] && s.users[user - 1].superadmin && TeamByCode(old(s.teams), TeamCode(b0, b1, b2)).None?
    ensures r.Ok? ==> r.value == Created(|old(s.teams)| + 1, name, TeamCode(b0, b1, b2))
    ensures r.Ok? ==> s.teams == old(s.teams) + [NewTeam(name, TeamCode(b0, b1, b2), user)]
    ensures r.Ok? ==> s.members == old(s.members)[(user, r.value.id) := NewMembership(Admin)]
    ensures r.Ok? ==> CountAdmins(s.members, r.value.id, |s.users|) >= 1
    ensures r.Ok? ==> TeamByCode(s.teams, r.value.code) == Some(r.value.id)
  {
    if name == [] {
      return Fail(400, "Team name required");
    }
    if !s.users[user - 1].superadmin {
      return Fail(403, "Only superadmins can create teams");
    }
    var code := TeamCode(b0, b1, b2);
    if TeamByCode(s.teams, code).Some? {
      return Fail(500, DuplicateCode);
    }
    ghost var before := s.teams;
    s.teams := s.teams + [NewTeam(name, code, user)];
    var id := |s.teams|;
    assert forall i :: 0 <= i < |before| ==> s.teams[i].code == before[i].code != code;
    assert s.teams[id - 1].code == code;
    s.members := s.members[(user, id) := NewMembership(Admin)];
    AdminCounted(s.members, id, |s.users|, user);
    r := Ok(Created(id, name, code));
  }

  /** A fresh member row carries the member role and zeroed statistics, so it adds no admin. */
  lemma {:induction false} JoinKeepsAdminCount(members: map<(int, int), Membership>, team: int, n: int, u: int)
    requires (u, team) !in members
    ensures CountAdmins(members[(u, team) := NewMembership(Member)], team, n) == CountAdmins(members, team, n)
  {
    CountAdminsSet(members, team, n, u, NewMembership(Member));
  }

  predicate TeamHasCode(s: Store, team: int, code: string)
    reads s
  {
    0 < team <= |s.teams| && s.teams[team - 1].code == code
  }

  method Join(s: Store, user: int, team: int, code: string) returns (r: Reply<int>)
    requires s.Valid() && 0 < user <= |s.users|
    modifies s`members, s`log
    ensures s.Valid()
    ensures !TeamHasCode(s, team, code) ==> r == Fail(404, "Team not found or invalid code")
    ensures TeamHasCode(s, team, code) && (user, team) in old(s.members) ==> r == Fail(400, "Already a member of this team")
    ensures r.Fail? ==> s.members == old(s.members) && s.log == old(s.log)
    ensures r.Ok? <==> TeamHasCode(s, team, code) && (user, team) !in old(s.members)
    ensures r.Ok? ==> r.value == team
    ensures r.Ok? ==> s.members == old(s.members)[(user, team) := NewMembership(Member)]
    ensures r.Ok? ==> s.log == old(s.log) + [Activity(Some(user), team, TeamJoined, None, None, None,
                                                          JoinDetails(s.teams[team - 1].name))]
    ensures CountAdmins(s.members, team, |s.users|) == old(CountAdmins(s.members, team, |s.users|))
  {
    if !TeamHasCode(s, team, code) {
      return Fail(404, "Team not found or invalid code");
    }
    if (user, team) in s.members {
      return Fail(400, "Already a member of this team");
    }
    JoinKeepsAdminCount(s.members, team, |s.users|, user);
    s.members := s.members[(user, team) := NewMembership(Member)];
    s.log := s.log + [Activity(Some(user), team, TeamJoined, None, None, None, JoinDetails(s.teams[team - 1].name))];
    r := Ok(team);
  }

  /** SELECT * FROM teams WHERE code = $1, first row: the lowest team id with that code. */
  function TeamByCode(teams: seq<Team>, code: string): (r: Option<int>)
    ensures r.Some? ==> 0 < r.value <= |teams| && teams[r.value - 1].code == code
    ensures r.Some? ==> forall i :: 0 <= i < r.value - 1 ==> teams[i].code != code
    ensures r.None? <==> forall i :: 0 <= i < |teams| ==> teams[i].code != code
  {
    TeamByCodeFrom(teams, code, 1)
  }

  function TeamByCodeFrom(teams: seq<Team>, code: string, t: int): (r: Option<int>)
    requires t >= 1
    decreases |teams| + 1 - t
    ensures r.Some? ==> t <= r.value <= |teams| && teams[r.value - 1].code == code
    ensures r.Some? ==> forall i :: t - 1 <= i < r.value - 1 ==> teams[i].code != code
    ensures r.None? <==> forall i :: t - 1 <= i < |teams| ==> teams[i].code != code
  {
    if t > |teams| then None
    else if teams[t - 1].code == code then Some(t)
    else TeamByCodeFrom(teams, code, t + 1)
  }

  /** Join by code alone: the same membership insert, and no activity entry. */
  method JoinCode(s: Store, user: int, code: string) returns (r: Reply<(int, string)>)
    requires s.Valid() && 0 < user <= |s.users|
    modifies s`members
    ensures s.Valid()
    ensures TeamByCode(s.teams, code).None? ==> r == Fail(404, "Invalid team code")
    ensures TeamByCode(s.teams, code).Some? && (user, TeamByCode(s.teams, code).value) in old(s.members)
            ==> r == Fail(400, "Already a member of this team")
    ensures r.Fail? ==> s.members == old(s.members)
    ensures r.Ok? ==> TeamByCode(s.teams, code).Some? && r.value.0 == TeamByCode(s.teams, code).value
    ensures r.Ok? ==> r.value.1 == s.teams[r.value.0 - 1].name && (user, r.value.0) !in old(s.members)
    ensures r.Ok? ==> s.members == old(s.members)[(user, r.value.0) := NewMembership(Member)]
    ensures forall t :: CountAdmins(s.members, t, |s.users|) == old(CountAdmins(s.members, t, |s.users|))
  {
    var team := TeamByCode(s.teams, code);
    if team.None? {
      return Fail(404, "Invalid team code");
    }
    var id := team.value;
    if (user, id) in s.members {
      return Fail(400, "Already a member of this team");
    }
    forall t ensures CountAdmins(s.members[(user, id) := NewMembership(Member)], t, |s.users|) == CountAdmins(s.members, t, |s.users|) {
      CountAdminsOtherTeam(s.members, t, |s.users|, user, id, NewMembership(Member));
    }
    s.members := s.members[(user, id) := NewMembership(Member)];
    r := Ok((id, s.teams[id - 1].name));
  }

  predicate IsAdminIn(members: map<(int, int), Membership>, u: int, team: int) {
    (u, team) in members && members[(u, team)].role == Admin
  }

  /** Changing one row changes the admin count by that row's contribution alone. */
  lemma {:induction false} CountAdminsSet(members: map<(int, int), Membership>, team: int, n: int, u: int, m: Membership)
    ensures CountAdmins(members[(u, team) := m], team, n)
            == CountAdmins(members, team, n)
               - (if 0 < u <= n && IsAdminIn(members, u, team) then 1 else 0)
               + (if 0 < u <= n && m.role == Admin then 1 else 0)
    decreases n
  {
    if n > 0 {
      CountAdminsSet(members, team, n - 1, u, m);
    }
  }

  lemma {:induction false} CountAdminsRemove(members: map<(int, int), Membership>, team: int, n: int, u: int)
    ensures CountAdmins(members - {(u, team)}, team, n)
            == CountAdmins(members, team, n) - (if 0 < u <= n && IsAdminIn(members, u, team) then 1 else 0)
    decreases n
  {
    if n > 0 {
      CountAdminsRemove(members, team, n - 1, u);
    }
  }

  /** A row of another team, or a member row replacing nothing, leaves a team's admin count alone. */
  lemma CountAdminsOtherTeam(members: map<(int, int), Membership>, team: int, n: int, u: int, t: int, m: Membership)
    requires (u, t) !in members && m.role == Member
    ensures CountAdmins(members[(u, t) := m], team, n) == CountAdmins(members, team, n)
  {
    if t == team {
      CountAdminsSet(members, team, n, u, m);
    } else {
      CountAdminsElsewhere(members, team, n, u, t, m);
    }
  }

  lemma {:induction false} CountAdminsElsewhere(members: map<(int, int), Membership>, team: int, n: int, u: int, t: int, m: Membership)
    requires t != team
    ensures CountAdmins(members[(u, t) := m], team, n) == CountAdmins(members, team, n)
    decreases n
  {
    if n > 0 {
      CountAdminsElsewhere(members, team, n - 1, u, t, m);
    }
  }

  /** An admin at or below n is counted. */
  lemma {:induction false} AdminCounted(members: map<(int, int), Membership>, team: int, n: int, u: int)
    requires 0 < u <= n && IsAdminIn(members, u, team)
    ensures CountAdmins(members, team, n) >= 1
    decreases n
  {
    if u < n {
      AdminCounted(members, team, n - 1, u);
    }
  }

  /** An admin other than u survives the loss of u's admin row. */
  lemma TwoAdminsLeaveOne(members: map<(int, int), Membership>, team: int, n: int, u: int, m: Membership)
    requires 0 < u <= n && CountAdmins(members, team, n) > 1
    ensures CountAdmins(members[(u, team) := m], team, n) >= 1
    ensures CountAdmins(members - {(u, team)}, team, n) >= 1
  {
    CountAdminsSet(members, team, n, u, m);
    CountAdminsRemove(members, team, n, u);
  }

  function ParseRole(role: string): Option<Role> {
    if role == "admin" then Some(Admin) else if role == "member" then Some(Member) else None
  }

  method ChangeRole(s: Store, actor: int, team: int, target: int, role: string) returns (r: Reply<Role>)
    requires s.Valid() && 0 < actor <= |s.users|
    modifies s`members, s`log
    ensures s.Valid()
    ensures ParseRole(role).None? ==> r == Fail(400, "Role must be admin or member")
    ensures ParseRole(role).Some? && !old(s.IsAdmin(actor, team)) ==> r == Fail(403, "Team admin access required")
    ensures (ParseRole(role).Some? && old(s.IsAdmin(actor, team)) && (target, team) !in old(s.members))
            ==> r == Fail(404, "User not in this team")
    ensures (ParseRole(role) == Some(Member) && old(s.IsAdmin(actor, team)) && target == actor
             && old(CountAdmins(s.members, team, |s.users|)) <= 1)
            ==> r == Fail(400, "Cannot demote yourself - you are the only admin")
    ensures r.Fail? ==> s.members == old(s.members) && s.log == old(s.log)
    ensures r.Ok? ==> ParseRole(role) == Some(r.value) && old(s.IsAdmin(actor, team)) && (target, team) in old(s.members)
    ensures r.Ok? ==> s.members == old(s.members)[(target, team) := old(s.members[(target, team)]).(role := r.value)]
    ensures r.Ok? ==> s.log == old(s.log) + [Activity(Some(actor), team, RoleChanged, None, None, None,
                                                          RoleDetails(target, r.value))]
    ensures r.Ok? ==> CountAdmins(s.members, team, |s.users|) >= 1
  {
    var newRole := ParseRole(role);
    if newRole.None? {
      return Fail(400, "Role must be admin or member");
    }
    if !s.IsAdmin(actor, team) {
      return Fail(403, "Team admin access required");
    }
    if (target, team) !in s.members {
      return Fail(404, "User not in this team");
    }
    ghost var before := s.members;
    var adminCount := CountAdmins(s.members, team, |s.users|);
    if target == actor && newRole.value == Member && adminCount <= 1 {
      return Fail(400, "Cannot demote yourself - you are the only admin");
    }
    var m := s.members[(target, team)].(role := newRole.value);
    s.members := s.members[(target, team) := m];
    s.log := s.log + [Activity(Some(actor), team, RoleChanged, None, None, None, RoleDetails(target, newRole.value))];
    AdminCounted(before, team, |s.users|, actor);
    CountAdminsSet(before, team, |s.users|, target, m);
    if target != actor {
      assert IsAdminIn(s.members, actor, team);
      AdminCounted(s.members, team, |s.users|, actor);
    }
    r := Ok(newRole.value);
  }

  method Remove(s: Store, actor: int, team: int, target: int) returns (r: Reply<int>)
    requires s.Valid() && 0 < actor <= |s.users|
    modifies s`members
    ensures s.Valid()
    ensures !old(s.IsAdmin(actor, team)) ==> r == Fail(403, "Team admin access required")
    ensures old(s.IsAdmin(actor, team)) && target == actor ==> r == Fail(400, "Cannot remove yourself")
    ensures (old(s.IsAdmin(actor, team)) && target != actor && (target, team) !in old(s.members))
            ==> r == Fail(404, "User not in this team")
    ensures r.Fail? ==> s.members == old(s.members)
    ensures r.Ok? <==> old(s.IsAdmin(actor, team)) && target != actor && (target, team) in old(s.members)
    ensures r.Ok? ==> r.value == target && s.members == old(s.members) - {(target, team)}
    ensures r.Ok? ==> s.IsAdmin(actor, team) && CountAdmins(s.members, team, |s.users|) >= 1
  {
    if !s.IsAdmin(actor, team) {
      return Fail(403, "Team admin access required");
    }
    if target == actor {
      return Fail(400, "Cannot remove yourself");
    }
    if (target, team) !in s.members {
      return Fail(404, "User not in this team");
    }
    s.members := s.members - {(target, team)};
    assert IsAdminIn(s.members, actor, team);
    AdminCounted(s.members, team, |s.users|, actor);
    r := Ok(target);
  }
}
