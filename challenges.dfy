/**
 * The challenge routes: today's list (every active team challenge followed
 * by up to three global challenges chosen by day of year), create with type
 * normalisation, the partial PATCH, delete and completion, which pays XP
 * like a task completion but leaves the streak alone.
 */
module ChallengeRoutes {
  import opened Wrappers
  import opened Store
  import Text
  import Sql
  import StableSort
  import TaskRoutes

  function Min(a: int, b: int): int {
    if a <= b then a else b
  }

  datatype Entry = Entry(id: int, challenge: Challenge)

  /** Which rows a listing query selects. */
  datatype Scope = TeamScope(team: int) | GlobalScope

  predicate InScope(c: Challenge, scope: Scope) {
    c.active == Some(true) && match scope
      case TeamScope(team) => c.teamId == Some(team)
      case GlobalScope => c.isGlobal
  }

  /** The rows among ids that a WHERE clause for scope keeps, in the order of ids. */
  function Select(ch: map<int, Challenge>, ids: seq<int>, scope: Scope): (r: seq<Entry>)
    requires forall k :: 0 <= k < |ids| ==> ids[k] in ch
    ensures |r| <= |ids|
    ensures forall e :: e in r ==> e.id in ids && e.id in ch && ch[e.id] == e.challenge && InScope(e.challenge, scope)
    ensures forall k :: 0 <= k < |ids| && InScope(ch[ids[k]], scope) ==> Entry(ids[k], ch[ids[k]]) in r
  {
    if ids == [] then []
    else
      var rest := Select(ch, ids[1..], scope);
      assert forall k :: 1 <= k < |ids| ==> ids[k] == ids[1..][k - 1];
      if InScope(ch[ids[0]], scope) then [Entry(ids[0], ch[ids[0]])] + rest else rest
  }

  predicate AscendingIds(es: seq<Entry>) {
    forall a, b :: 0 <= a < b < |es| ==> es[a].id < es[b].id
  }

  lemma ConsAscending(x: Entry, rest: seq<Entry>)
    requires AscendingIds(rest)
    requires forall e :: e in rest ==> x.id < e.id
    ensures AscendingIds([x] + rest)
  {
    var r := [x] + rest;
    forall a, b | 0 <= a < b < |r| ensures r[a].id < r[b].id {
      assert r[b] == rest[b - 1];
      if a > 0 {
        assert r[a] == rest[a - 1];
      }
    }
  }

  /** Select keeps the order of its ids: ascending ids give ascending entries. */
  lemma {:induction false} SelectAscending(ch: map<int, Challenge>, ids: seq<int>, scope: Scope)
    requires forall k :: 0 <= k < |ids| ==> ids[k] in ch
    requires forall a, b :: 0 <= a < b < |ids| ==> ids[a] < ids[b]
    ensures AscendingIds(Select(ch, ids, scope))
  {
    if ids != [] {
      var tail := ids[1..];
      SelectAscending(ch, tail, scope);
      var rest := Select(ch, tail, scope);
      if InScope(ch[ids[0]], scope) {
        forall e | e in rest ensures ids[0] < e.id {
          var k :| 0 <= k < |tail| && tail[k] == e.id;
          assert ids[k + 1] == e.id;
        }
        ConsAscending(Entry(ids[0], ch[ids[0]]), rest);
      }
    }
  }

  /**
   * ORDER BY c.type on the three admitted types: social, then streak, then
   * task; an ascending ORDER BY puts a NULL type after all of them.
   */
  function TypeKey(kind: Option<string>): real {
    match kind
      case None => 0.0
      case Some(k) => if k == "social" then 3.0 else if k == "streak" then 2.0 else if k == "task" then 1.0 else 0.0
  }

  /** The descending key orders the admitted types exactly as the SQL string order does, with NULL last. */
  lemma TypeKeyFollowsSqlOrder(a: string, b: string)
    requires a in ChallengeTypes && b in ChallengeTypes
    ensures TypeKey(Some(a)) > TypeKey(Some(b)) <==> Text.StrLess(a, b)
    ensures TypeKey(Some(a)) > TypeKey(None)
  {
    Text.StrLessIrreflexive(a);
    TypeOrder();
  }

  /** How ORDER BY ranks the three admitted type names against each other. */
  lemma TypeOrder()
    ensures Text.StrLess("social", "streak") && Text.StrLess("social", "task") && Text.StrLess("streak", "task")
    ensures !Text.StrLess("streak", "social") && !Text.StrLess("task", "social") && !Text.StrLess("task", "streak")
  {
    assert "social"[1..] == "ocial" && "streak"[1..] == "treak";
  }

  function EntryTypeKey(e: Entry): real {
    TypeKey(e.challenge.kind)
  }

  /** The negated id: descending on it is ascending on id, the creation order. */
  function EntryAge(e: Entry): real {
    -(e.id as real)
  }

  /** The team's active challenges, ORDER BY c.type, c.created_at. */
  function TeamPart(ch: map<int, Challenge>, n: int, team: int): seq<Entry> {
    StableSort.SortDesc(Select(ch, IdsBelow(ch, n), TeamScope(team)), EntryTypeKey)
  }

  /** The active global challenges, ORDER BY c.id. */
  function GlobalPool(ch: map<int, Challenge>, n: int): seq<Entry> {
    Select(ch, IdsBelow(ch, n), GlobalScope)
  }

  /** The team part holds every active challenge of the team once, ordered by type and then by age. */
  lemma TeamPartFacts(ch: map<int, Challenge>, n: int, team: int)
    ensures multiset(TeamPart(ch, n, team)) == multiset(Select(ch, IdsBelow(ch, n), TeamScope(team)))
    ensures StableSort.SortedLex(TeamPart(ch, n, team), EntryTypeKey, EntryAge)
    ensures forall e :: e in TeamPart(ch, n, team) <==>
      e.id in ch && ch[e.id] == e.challenge && e.challenge.teamId == Some(team) && e.challenge.active == Some(true) && 0 < e.id < n
  {
    var ids := IdsBelow(ch, n);
    var sel := Select(ch, ids, TeamScope(team));
    SelectAscending(ch, ids, TeamScope(team));
    StableSort.SortDescLex(sel, EntryTypeKey, EntryAge);
    var t := TeamPart(ch, n, team);
    forall e ensures e in t <==> e in sel {
      assert e in t <==> e in multiset(t);
      assert e in sel <==> e in multiset(sel);
    }
    forall e: Entry | e.id in ch && ch[e.id] == e.challenge && e.challenge.teamId == Some(team) && e.challenge.active == Some(true) && 0 < e.id < n
      ensures e in sel
    {
      var k :| 0 <= k < |ids| && ids[k] == e.id;
    }
  }

  /** k consecutive entries of pool starting at start, wrapping around. */
  function Rotation<T>(pool: seq<T>, start: int, k: nat): (r: seq<T>)
    requires |pool| > 0
    ensures |r| == k
  {
    seq(k, i requires 0 <= i < k => pool[(start + i) % |pool|])
  }

  /** Below 2n the remainder is the number itself or n less. */
  lemma SmallMod(x: int, n: int)
    requires n > 0 && 0 <= x < 2 * n
    ensures x % n == if x < n then x else x - n
  {
    if x < n {
      assert x == 0 * n + x;
    } else {
      assert x == 1 * n + (x - n);
    }
  }

  lemma ModDistinct(n: int, s: int, i: int, j: int)
    requires n > 0 && 0 <= s < n && 0 <= i < j < n
    ensures (s + i) % n != (s + j) % n
  {
    SmallMod(s + i, n);
    SmallMod(s + j, n);
  }

  /** A rotation of at most |pool| entries over distinct entries repeats none and draws only from pool. */
  lemma RotationDistinct<T>(pool: seq<T>, start: int, k: nat)
    requires 0 <= start < |pool| && k <= |pool|
    requires forall a, b :: 0 <= a < b < |pool| ==> pool[a] != pool[b]
    ensures forall a, b :: 0 <= a < b < k ==> Rotation(pool, start, k)[a] != Rotation(pool, start, k)[b]
    ensures forall x :: x in Rotation(pool, start, k) ==> x in pool
  {
    var r := Rotation(pool, start, k);
    forall a, b | 0 <= a < b < k ensures r[a] != r[b] {
      ModDistinct(|pool|, start, a, b);
      var x, y := (start + a) % |pool|, (start + b) % |pool|;
      if x < y { assert pool[x] != pool[y]; } else { assert pool[y] != pool[x]; }
    }
  }

  /** The daily rotation loop: min(3, n) globals from position dayOfYear mod n. */
  method DailyGlobals<T>(pool: seq<T>, dayOfYear: nat) returns (daily: seq<T>)
    ensures |daily| == Min(3, |pool|)
    ensures pool != [] ==> daily == Rotation(pool, dayOfYear % |pool|, Min(3, |pool|))
  {
    var count := Min(3, |pool|);
    daily := [];
    if |pool| > 0 {
      var start := dayOfYear % |pool|;
      var i := 0;
      while i < count
        invariant 0 <= i <= count
        invariant daily == Rotation(pool, start, i)
      {
        daily := daily + [pool[(start + i) % |pool|]];
        i := i + 1;
      }
    }
  }

  /** A challenge_completions row for this challenge and user dated today, in any team. */
  predicate CompletedOn(cs: seq<Completion>, id: int, user: int, today: int) {
    exists c :: c in cs && c.challengeId == id && c.userId == user && c.day == today
  }

  datatype Listed = Listed(entry: Entry, completedToday: bool)

  function Shown(es: seq<Entry>, cs: seq<Completion>, user: int, today: int): (r: seq<Listed>)
    ensures |r| == |es|
    ensures forall k :: 0 <= k < |es| ==> r[k].entry == es[k]
    ensures forall k :: 0 <= k < |es| ==> (r[k].completedToday <==> CompletedOn(cs, es[k].id, user, today))
  {
    seq(|es|, k requires 0 <= k < |es| => Listed(es[k], CompletedOn(cs, es[k].id, user, today)))
  }

  /** The daily globals: none from an empty pool. */
  function Daily<T>(pool: seq<T>, dayOfYear: nat): (r: seq<T>)
    ensures |r| == Min(3, |pool|)
  {
    if pool == [] then [] else Rotation(pool, dayOfYear % |pool|, Min(3, |pool|))
  }

  /** Today's globals are distinct active global challenges, min(3, n) of them. */
  lemma DailyFacts(ch: map<int, Challenge>, n: int, dayOfYear: nat)
    ensures |Daily(GlobalPool(ch, n), dayOfYear)| == Min(3, |GlobalPool(ch, n)|)
    ensures forall e :: e in Daily(GlobalPool(ch, n), dayOfYear) ==> e in GlobalPool(ch, n)
    ensures forall e :: e in Daily(GlobalPool(ch, n), dayOfYear) ==> e.challenge.isGlobal && e.challenge.active == Some(true)
    ensures forall a, b :: 0 <= a < b < |Daily(GlobalPool(ch, n), dayOfYear)| ==>
      Daily(GlobalPool(ch, n), dayOfYear)[a] != Daily(GlobalPool(ch, n), dayOfYear)[b]
  {
    var pool := GlobalPool(ch, n);
    if pool != [] {
      SelectAscending(ch, IdsBelow(ch, n), GlobalScope);
      RotationDistinct(pool, dayOfYear % |pool|, Min(3, |pool|));
    }
  }

  /**
   * GET: the team's active challenges by type and age, then today's globals,
   * each flagged with whether the caller completed it today.
   */
  method List(s: Store, user: int, team: int, today: int, dayOfYear: nat) returns (r: Reply<seq<Listed>>)
    ensures (user, team) !in s.members <==> r == Fail(403, "Not a member of this team")
    ensures r.Ok? ==> r.value == Shown(TeamPart(s.challenges, s.nextChallengeId, team)
                                       + Daily(GlobalPool(s.challenges, s.nextChallengeId), dayOfYear),
                                       s.completions, user, today)
  {
    if (user, team) !in s.members {
      return Fail(403, "Not a member of this team");
    }
    var teamRows := TeamPart(s.challenges, s.nextChallengeId, team);
    var pool := GlobalPool(s.challenges, s.nextChallengeId);
    var daily := DailyGlobals(pool, dayOfYear);
    r := Ok(Shown(teamRows + daily, s.completions, user, today));
  }

  /** The type a new challenge gets: the requested one when the CHECK admits it, else task. */
  function NormaliseType(kind: Option<string>): (t: string)
    ensures t in ChallengeTypes
    ensures kind.Some? && kind.value in ChallengeTypes ==> t == kind.value
    ensures kind.None? || kind.value !in ChallengeTypes ==> t == "task"
  {
    if kind.Some? && kind.value in ChallengeTypes then kind.value else "task"
  }

  /** `x || 20` on a reward: a missing or zero reward is worth 20. */
  function RewardOr20(x: Option<int>): (r: int)
    ensures x.Some? && x.value != 0 ==> r == x.value
    ensures x.None? || x.value == 0 ==> r == 20
    ensures r != 0
  {
    if x.Some? && x.value != 0 then x.value else 20
  }

  datatype ChallengeInput = ChallengeInput(
    title: string, description: Option<string>, xpReward: Option<int>, kind: Option<string>)

  function NewChallenge(team: int, user: int, input: ChallengeInput): (c: Challenge)
    ensures c.teamId == Some(team) && c.title == input.title && c.createdBy == Some(user)
    ensures c.kind == Some(NormaliseType(input.kind)) && c.xpReward == Some(RewardOr20(input.xpReward))
    ensures c.description == TaskRoutes.TextOrNull(input.description)
    ensures c.active == Some(true) && !c.isGlobal
  {
    Challenge(Some(team), input.title, TaskRoutes.TextOrNull(input.description), Some(RewardOr20(input.xpReward)),
              Some(NormaliseType(input.kind)), Some(true), false, Some(user))
  }

  method Create(s: Store, user: int, team: int, input: ChallengeInput) returns (r: Reply<Entry>)
    requires s.Valid()
    modifies s`challenges, s`nextChallengeId
    ensures s.Valid()
    ensures !old(s.IsAdmin(user, team)) ==> r == Fail(403, "Admin access required")
    ensures old(s.IsAdmin(user, team)) && input.title == [] ==> r == Fail(400, "Title required")
    ensures r.Fail? ==> s.challenges == old(s.challenges) && s.nextChallengeId == old(s.nextChallengeId)
    ensures r.Ok? <==> old(s.IsAdmin(user, team)) && input.title != []
    ensures r.Ok? ==>
      && r.value == Entry(old(s.nextChallengeId), NewChallenge(team, user, input))
      && r.value.id !in old(s.challenges)
      && s.challenges == old(s.challenges)[r.value.id := r.value.challenge]
      && s.nextChallengeId == old(s.nextChallengeId) + 1
  {
    if !s.IsAdmin(user, team) {
      return Fail(403, "Admin access required");
    }
    if input.title == [] {
      return Fail(400, "Title required");
    }
    var id := s.nextChallengeId;
    var c := NewChallenge(team, user, input);
    s.challenges := s.challenges[id := c];
    s.nextChallengeId := id + 1;
    r := Ok(Entry(id, c));
  }

  /**
   * The PATCH body: a field is None when it is undefined and Some(None) when
   * it is an explicit JSON null, which the route passes on to the UPDATE.
   */
  datatype ChallengePatch = ChallengePatch(
    title: Option<Option<string>>, description: Option<Option<string>>, xpReward: Option<Option<int>>,
    kind: Option<Option<string>>, active: Option<Option<bool>>)

  function NullOr(x: Option<string>): Sql.Value {
    if x.Some? then Sql.StrV(x.value) else Sql.NullV
  }

  function NullOrInt(x: Option<int>): Sql.Value {
    if x.Some? then Sql.IntV(x.value) else Sql.NullV
  }

  function NullOrBool(x: Option<bool>): Sql.Value {
    if x.Some? then Sql.BoolV(x.value) else Sql.NullV
  }

  /** The (column, value) pairs of the fields that are not undefined, in the order the route tests them. */
  function PatchFields(p: ChallengePatch): seq<(string, Sql.Value)> {
    Sql.Opt(p.title.Some?, "title", NullOr(p.title.GetOr(None)))
    + Sql.Opt(p.description.Some?, "description", NullOr(p.description.GetOr(None)))
    + Sql.Opt(p.xpReward.Some?, "xp_reward", NullOrInt(p.xpReward.GetOr(None)))
    + Sql.Opt(p.kind.Some?, "type", NullOr(p.kind.GetOr(None)))
    + Sql.Opt(p.active.Some?, "active", NullOrBool(p.active.GetOr(None)))
  }

  lemma PatchFieldsEmpty(p: ChallengePatch)
    ensures PatchFields(p) == [] <==>
      p.title.None? && p.description.None? && p.xpReward.None? && p.kind.None? && p.active.None?
  {
  }

  /**
   * The SET items, the bound parameters and the WHERE clause of the PATCH.
   * Item k reads `column = $(k+1)` and parameter k+1 is that column's value,
   * so every placeholder binds the value meant for it; the id and team id
   * are bound to the last two placeholders.
   */
  method BuildUpdate(p: ChallengePatch, id: int, team: int) returns (updates: seq<string>, values: seq<Sql.Value>, where: string)
    ensures |updates| == |PatchFields(p)| && |values| == |updates| + 2
    ensures forall k :: 0 <= k < |updates| ==>
      updates[k] == Sql.SetItem(PatchFields(p)[k].0, k + 1) && Sql.Bound(values, k + 1) == PatchFields(p)[k].1
    ensures where == Sql.WhereIdTeam(|updates| + 1)
    ensures Sql.Bound(values, |updates| + 1) == Sql.IntV(id) && Sql.Bound(values, |updates| + 2) == Sql.IntV(team)
  {
    var idx;
    updates, values, idx := [], [], 1;
    updates, values, idx := Sql.AddField(updates, values, idx, [], p.title.Some?, "title", NullOr(p.title.GetOr(None)));
    ghost var fs := Sql.Opt(p.title.Some?, "title", NullOr(p.title.GetOr(None)));
    assert [] + fs == fs;
    updates, values, idx := Sql.AddField(updates, values, idx, fs, p.description.Some?, "description",
                                     NullOr(p.description.GetOr(None)));
    fs := fs + Sql.Opt(p.description.Some?, "description", NullOr(p.description.GetOr(None)));
    updates, values, idx := Sql.AddField(updates, values, idx, fs, p.xpReward.Some?, "xp_reward",
                                     NullOrInt(p.xpReward.GetOr(None)));
    fs := fs + Sql.Opt(p.xpReward.Some?, "xp_reward", NullOrInt(p.xpReward.GetOr(None)));
    updates, values, idx := Sql.AddField(updates, values, idx, fs, p.kind.Some?, "type", NullOr(p.kind.GetOr(None)));
    fs := fs + Sql.Opt(p.kind.Some?, "type", NullOr(p.kind.GetOr(None)));
    updates, values, idx := Sql.AddField(updates, values, idx, fs, p.active.Some?, "active", NullOrBool(p.active.GetOr(None)));
    fs := fs + Sql.Opt(p.active.Some?, "active", NullOrBool(p.active.GetOr(None)));
    assert fs == PatchFields(p);
    values, where := Sql.Finish(updates, values, idx, fs, id, team);
  }

  /**
   * Runs one SET item on a row; a value of the wrong kind leaves the column
   * alone, and so does a NULL title, which the NOT NULL constraint refuses.
   */
  function Assign(c: Challenge, column: string, v: Sql.Value): Challenge {
    match v
      case StrV(x) =>
        if column == "title" then c.(title := x)
        else if column == "description" then c.(description := Some(x))
        else if column == "type" then c.(kind := Some(x))
        else c
      case NullV =>
        if column == "description" then c.(description := None)
        else if column == "xp_reward" then c.(xpReward := None)
        else if column == "type" then c.(kind := None)
        else if column == "active" then c.(active := None)
        else c
      case IntV(x) => if column == "xp_reward" then c.(xpReward := Some(x)) else c
      case BoolV(x) => if column == "active" then c.(active := Some(x)) else c
      case ListV(_) => c
  }

  /**
   * The challenge after the PATCH: each provided field takes its new value,
   * NULL included, and the others keep theirs. A null title never gets here.
   */
  function ApplyPatch(c: Challenge, p: ChallengePatch): (r: Challenge)
    ensures p.title.None? ==> r.title == c.title
    ensures p.title.Some? && p.title.value.Some? ==> r.title == p.title.value.value
    ensures r.description == p.description.GetOr(c.description)
    ensures r.xpReward == p.xpReward.GetOr(c.xpReward)
    ensures r.kind == p.kind.GetOr(c.kind)
    ensures r.active == p.active.GetOr(c.active)
    ensures r.teamId == c.teamId && r.isGlobal == c.isGlobal && r.createdBy == c.createdBy
  {
    c.(title := p.title.GetOr(None).GetOr(c.title), description := p.description.GetOr(c.description),
       xpReward := p.xpReward.GetOr(c.xpReward), kind := p.kind.GetOr(c.kind), active := p.active.GetOr(c.active))
  }

  /** Running the concatenated SET list is running its five parts one after the other. */
  lemma PatchFieldsInOrder(c: Challenge, f1: seq<(string, Sql.Value)>, f2: seq<(string, Sql.Value)>,
                           f3: seq<(string, Sql.Value)>, f4: seq<(string, Sql.Value)>, f5: seq<(string, Sql.Value)>)
    ensures Sql.RunSet(c, f1 + f2 + f3 + f4 + f5, Assign)
            == Sql.RunSet(Sql.RunSet(Sql.RunSet(Sql.RunSet(Sql.RunSet(c, f1, Assign), f2, Assign), f3, Assign), f4, Assign), f5, Assign)
  {
    Sql.RunSetAppend(c, f1 + f2 + f3 + f4, f5, Assign);
    Sql.RunSetAppend(c, f1 + f2 + f3, f4, Assign);
    Sql.RunSetAppend(c, f1 + f2, f3, Assign);
    Sql.RunSetAppend(c, f1, f2, Assign);
  }

  /** The SET list the builder emits, run on the row, updates it exactly as ApplyPatch describes. */
  lemma PatchFieldsMeaning(c: Challenge, p: ChallengePatch)
    ensures Sql.RunSet(c, PatchFields(p), Assign) == ApplyPatch(c, p)
  {
    var f1 := Sql.Opt(p.title.Some?, "title", NullOr(p.title.GetOr(None)));
    var f2 := Sql.Opt(p.description.Some?, "description", NullOr(p.description.GetOr(None)));
    var f3 := Sql.Opt(p.xpReward.Some?, "xp_reward", NullOrInt(p.xpReward.GetOr(None)));
    var f4 := Sql.Opt(p.kind.Some?, "type", NullOr(p.kind.GetOr(None)));
    var f5 := Sql.Opt(p.active.Some?, "active", NullOrBool(p.active.GetOr(None)));
    assert PatchFields(p) == f1 + f2 + f3 + f4 + f5;
    PatchFieldsInOrder(c, f1, f2, f3, f4, f5);
    var c1 := Sql.RunSet(c, f1, Assign);
    SetsTitle(c, p);
    var c2 := Sql.RunSet(c1, f2, Assign);
    SetsDescription(c1, p);
    var c3 := Sql.RunSet(c2, f3, Assign);
    SetsReward(c2, p);
    var c4 := Sql.RunSet(c3, f4, Assign);
    SetsKind(c3, p);
    SetsActive(c4, p);
  }

  lemma SetsTitle(c: Challenge, p: ChallengePatch)
    ensures Sql.RunSet(c, Sql.Opt(p.title.Some?, "title", NullOr(p.title.GetOr(None))), Assign)
            == c.(title := p.title.GetOr(None).GetOr(c.title))
  {
    Sql.RunSetOpt(c, p.title.Some?, "title", NullOr(p.title.GetOr(None)), Assign);
  }

  lemma SetsDescription(c: Challenge, p: ChallengePatch)
    ensures Sql.RunSet(c, Sql.Opt(p.description.Some?, "description", NullOr(p.description.GetOr(None))), Assign)
            == c.(description := p.description.GetOr(c.description))
  {
    Sql.RunSetOpt(c, p.description.Some?, "description", NullOr(p.description.GetOr(None)), Assign);
  }

  lemma SetsReward(c: Challenge, p: ChallengePatch)
    ensures Sql.RunSet(c, Sql.Opt(p.xpReward.Some?, "xp_reward", NullOrInt(p.xpReward.GetOr(None))), Assign)
            == c.(xpReward := p.xpReward.GetOr(c.xpReward))
  {
    Sql.RunSetOpt(c, p.xpReward.Some?, "xp_reward", NullOrInt(p.xpReward.GetOr(None)), Assign);
  }

  lemma SetsKind(c: Challenge, p: ChallengePatch)
    ensures Sql.RunSet(c, Sql.Opt(p.kind.Some?, "type", NullOr(p.kind.GetOr(None))), Assign)
            == c.(kind := p.kind.GetOr(c.kind))
  {
    Sql.RunSetOpt(c, p.kind.Some?, "type", NullOr(p.kind.GetOr(None)), Assign);
  }

  lemma SetsActive(c: Challenge, p: ChallengePatch)
    ensures Sql.RunSet(c, Sql.Opt(p.active.Some?, "active", NullOrBool(p.active.GetOr(None))), Assign)
            == c.(active := p.active.GetOr(c.active))
  {
    Sql.RunSetOpt(c, p.active.Some?, "active", NullOrBool(p.active.GetOr(None)), Assign);
  }

  /** The PostgreSQL error a NULL title raises; the error handler answers it with 500. */
  const NotNullViolation := "null value in column \"title\" of relation \"challenges\" violates not-null constraint"

  /** The PostgreSQL error the type CHECK raises; the error handler answers it with 500. */
  const CheckViolation := "new row for relation \"challenges\" violates check constraint \"challenges_type_check\""

  predicate ChallengeInTeam(s: Store, id: int, team: int)
    reads s
  {
    id in s.challenges && s.challenges[id].teamId == Some(team)
  }

  method Patch(s: Store, user: int, team: int, id: int, p: ChallengePatch) returns (r: Reply<bool>)
    requires s.Valid()
    modifies s`challenges
    ensures s.Valid()
    ensures !old(s.IsAdmin(user, team)) ==> r == Fail(403, "Admin access required")
    ensures old(s.IsAdmin(user, team)) && PatchFields(p) == [] ==> r == Fail(400, "No fields to update")
    ensures old(s.IsAdmin(user, team)) && PatchFields(p) != [] && !old(ChallengeInTeam(s, id, team))
            ==> r == Fail(404, "Challenge not found")
    ensures (old(s.IsAdmin(user, team)) && PatchFields(p) != [] && old(ChallengeInTeam(s, id, team))
             && p.title == Some(None)) ==> r == Fail(500, NotNullViolation)
    ensures (old(s.IsAdmin(user, team)) && PatchFields(p) != [] && old(ChallengeInTeam(s, id, team))
             && p.title != Some(None) && p.kind.Some? && p.kind.value.Some? && p.kind.value.value !in ChallengeTypes)
            ==> r == Fail(500, CheckViolation)
    ensures r.Ok? <==> old(s.IsAdmin(user, team)) && PatchFields(p) != [] && old(ChallengeInTeam(s, id, team))
                       && p.title != Some(None) && !(p.kind.Some? && p.kind.value.Some? && p.kind.value.value !in ChallengeTypes)
    ensures r.Fail? ==> s.challenges == old(s.challenges)
    ensures r.Ok? ==> (r.value && old(ChallengeInTeam(s, id, team))
                       && s.challenges == old(s.challenges)[id := ApplyPatch(old(s.challenges[id]), p)])
  {
    if !s.IsAdmin(user, team) {
      return Fail(403, "Admin access required");
    }
    var updates, values, where := BuildUpdate(p, id, team);
    if |updates| == 0 {
      return Fail(400, "No fields to update");
    }
    if !ChallengeInTeam(s, id, team) {
      return Fail(404, "Challenge not found");
    }
    if p.title == Some(None) {
      return Fail(500, NotNullViolation);
    }
    if p.kind.Some? && p.kind.value.Some? && p.kind.value.value !in ChallengeTypes {
      return Fail(500, CheckViolation);
    }
    s.challenges := s.challenges[id := ApplyPatch(s.challenges[id], p)];
    r := Ok(true);
  }

  /** The completions that survive ON DELETE CASCADE when challenge id goes. */
  function DropChallenge(cs: seq<Completion>, id: int): (r: seq<Completion>)
    ensures forall c :: c in r <==> c in cs && c.challengeId != id
    ensures |r| <= |cs|
  {
    if cs == [] then []
    else (if cs[0].challengeId == id then [] else [cs[0]]) + DropChallenge(cs[1..], id)
  }

  method Delete(s: Store, user: int, team: int, id: int) returns (r: Reply<bool>)
    requires s.Valid()
    modifies s`challenges, s`completions
    ensures s.Valid()
    ensures !old(s.IsAdmin(user, team)) ==> (r == Fail(403, "Admin access required")
                                             && s.challenges == old(s.challenges) && s.completions == old(s.completions))
    ensures old(s.IsAdmin(user, team)) ==> r == Ok(true)
    ensures old(s.IsAdmin(user, team)) && old(ChallengeInTeam(s, id, team)) ==>
      s.challenges == old(s.challenges) - {id} && s.completions == DropChallenge(old(s.completions), id)
    ensures !old(ChallengeInTeam(s, id, team)) ==> s.challenges == old(s.challenges) && s.completions == old(s.completions)
  {
    if !s.IsAdmin(user, team) {
      return Fail(403, "Admin access required");
    }
    if ChallengeInTeam(s, id, team) {
      s.challenges := s.challenges - {id};
      s.completions := DropChallenge(s.completions, id);
    }
    r := Ok(true);
  }

  /** The member row after a challenge reward: XP and today's XP as for a task, streak and count untouched. */
  function ApplyReward(m: Membership, reward: int, today: int): (r: Membership)
    ensures r.xp == m.xp + reward && r.lastCompleted == Some(today)
    ensures m.lastCompleted == Some(today) ==> r.todayXp == m.todayXp + reward
    ensures m.lastCompleted != Some(today) ==> r.todayXp == reward
    ensures r.streak == m.streak && r.tasksCompleted == m.tasksCompleted && r.role == m.role
  {
    m.(xp := m.xp + reward,
       todayXp := if m.lastCompleted == Some(today) then m.todayXp + reward else reward,
       lastCompleted := Some(today))
  }

  /** A challenge reward is a task completion's bookkeeping without the streak and task counter. */
  lemma RewardIsCompletionWithoutStreak(m: Membership, reward: int, today: int)
    ensures ApplyReward(m, reward, today)
            == TaskRoutes.ApplyCompletion(m, reward, today).(streak := m.streak, tasksCompleted := m.tasksCompleted)
  {
  }

  lemma RewardKeepsStatsSound(m: Membership, reward: int, today: int)
    requires TaskRoutes.StatsSound(m) && reward >= 0
    ensures TaskRoutes.StatsSound(ApplyReward(m, reward, today))
  {
  }

  method Complete(s: Store, user: int, team: int, id: int, today: int) returns (r: Reply<int>)
    modifies s`completions, s`members
    ensures (user, team) !in old(s.members) ==> r == Fail(403, "Not a member of this team")
    ensures (user, team) in old(s.members) && Completion(id, user, team, today) in old(s.completions)
            ==> r == Fail(400, "Already completed today")
    ensures ((user, team) in old(s.members) && Completion(id, user, team, today) !in old(s.completions)
             && id !in old(s.challenges)) ==> r == Fail(404, "Challenge not found")
    ensures r.Fail? ==> s.completions == old(s.completions) && s.members == old(s.members)
    ensures r.Ok? ==> (user, team) in old(s.members) && id in old(s.challenges)
    ensures r.Ok? ==> Completion(id, user, team, today) !in old(s.completions)
    ensures r.Ok? ==> r.value == RewardOr20(old(s.challenges[id].xpReward))
    ensures r.Ok? ==> s.completions == old(s.completions) + [Completion(id, user, team, today)]
    ensures r.Ok? ==> s.members == old(s.members)[(user, team) := ApplyReward(old(s.members[(user, team)]), r.value, today)]
    ensures r.Ok? ==> Completion(id, user, team, today) in s.completions
  {
    if (user, team) !in s.members {
      return Fail(403, "Not a member of this team");
    }
    if Completion(id, user, team, today) in s.completions {
      return Fail(400, "Already completed today");
    }
    if id !in s.challenges {
      return Fail(404, "Challenge not found");
    }
    var reward := RewardOr20(s.challenges[id].xpReward);
    s.completions := s.completions + [Completion(id, user, team, today)];
    s.members := s.members[(user, team) := ApplyReward(s.members[(user, team)], reward, today)];
    r := Ok(reward);
  }
}
