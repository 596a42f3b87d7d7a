/**
 * The profile column of the React client: the signed-in member's experience,
 * the rank and level it earns in the active theme, the progress bar towards
 * the next rank, the team's top-five leaderboard and the five newest
 * activity entries.
 */
module LeftPanel {
  import opened Wrappers
  import opened StableSort
  import Themes
  import RankScan
  import Config

  /** A row of the team member list the client holds; xp is None when the API sent none. */
  datatype TeamMember = TeamMember(userId: int, displayName: string, role: string, xp: Option<int>)

  /** `m.xp || 0`: a missing experience value reads as zero. */
  function XpOrZero(x: Option<int>): (r: int)
    ensures x.None? ==> r == 0
    ensures x.Some? ==> r == x.value
  {
    match x
    case None => 0
    case Some(v) => v
  }

  /** Index of the first member whose user id is u, as `Array.prototype.find` scans. */
  function FirstWithUser(members: seq<TeamMember>, u: int, k: nat): (r: Option<nat>)
    requires k <= |members|
    ensures r.Some? ==> (k <= r.value < |members| && members[r.value].userId == u
                         && forall j :: k <= j < r.value ==> members[j].userId != u)
    ensures r.None? ==> forall j :: k <= j < |members| ==> members[j].userId != u
    decreases |members| - k
  {
    if k == |members| then None
    else if members[k].userId == u then Some(k)
    else FirstWithUser(members, u, k + 1)
  }

  /**
   * The signed-in member's experience: zero outside a team, without a user,
   * or when the user is not in the member list; otherwise the first matching
   * row's experience, or zero when it has none.
   */
  function MemberXp(inTeam: bool, members: seq<TeamMember>, user: Option<int>): (r: int)
    ensures !inTeam || user.None? ==> r == 0
    ensures inTeam && user.Some? && (forall j :: 0 <= j < |members| ==> members[j].userId != user.value) ==> r == 0
    ensures r != 0 ==> exists j :: 0 <= j < |members| && members[j].userId == user.value && members[j].xp == Some(r)
  {
    if !inTeam || user.None? then 0
    else match FirstWithUser(members, user.value, 0)
      case None => 0
      case Some(j) => XpOrZero(members[j].xp)
  }

  /** Thresholds strictly rising along the table. */
  predicate Ascending(ranks: seq<Themes.Rank>) {
    forall a, b :: 0 <= a < b < |ranks| ==> ranks[a].xp < ranks[b].xp
  }

  /** No two ranks of a table share a name. */
  predicate DistinctNames(ranks: seq<Themes.Rank>) {
    forall a, b :: 0 <= a < b < |ranks| ==> ranks[a].name != ranks[b].name
  }

  /** `ranks.findIndex(r => r.name === name)` from index k on: -1 when no rank has that name. */
  function IndexOfName(ranks: seq<Themes.Rank>, name: string, k: nat): (r: int)
    requires k <= |ranks|
    ensures -1 <= r < |ranks|
    ensures r >= 0 ==> k <= r && ranks[r].name == name && forall j :: k <= j < r ==> ranks[j].name != name
    ensures r == -1 ==> forall j :: k <= j < |ranks| ==> ranks[j].name != name
    decreases |ranks| - k
  {
    if k == |ranks| then -1
    else if ranks[k].name == name then k
    else IndexOfName(ranks, name, k + 1)
  }

  function Min(a: real, b: real): real {
    if a <= b then a else b
  }

  /**
   * The experience bar: the next rank, the experience earned inside the
   * current band, the band's width, and the bar's width in percent.
   */
  datatype Progress = Progress(next: Option<Themes.Rank>, xpInLevel: int, xpForLevel: int, widthPercent: real)

  /**
   * The bar for a member with xp experience. The next rank is the entry after
   * the one whose name matches the current rank; at the top tier there is
   * none, the band is one point wide and the bar is full.
   */
  function ProgressOf(ranks: seq<Themes.Rank>, xp: int): (p: Progress)
    requires |ranks| > 0 && Ascending(ranks) && DistinctNames(ranks)
    ensures p.next.None? ==> p.xpInLevel == xp && p.xpForLevel == 1 && p.widthPercent == 100.0
    ensures p.next.Some? ==> p.xpForLevel > 0 && p.widthPercent <= 100.0
  {
    var i := RankScan.LastAtOrBelow(Themes.Thresholds(ranks), xp);
    var rank := Themes.RankFor(ranks, xp);
    var idx := IndexOfName(ranks, rank.name, 0);
    assert idx == i;
    if 0 <= idx + 1 < |ranks| then
      var next := ranks[idx + 1];
      var inLevel := xp - rank.xp;
      var forLevel := next.xp - rank.xp;
      Progress(Some(next), inLevel, forLevel, Min(inLevel as real / forLevel as real * 100.0, 100.0))
    else
      Progress(None, xp, 1, 100.0)
  }

  /**
   * The bar follows the rank scan: the next rank is the entry above the
   * member's band exactly when one exists; inside a band that is not the top
   * one, the earned part is below the band's width and the bar is partly
   * filled, never full.
   */
  lemma ProgressMeaning(ranks: seq<Themes.Rank>, xp: int)
    requires |ranks| > 0 && Ascending(ranks) && DistinctNames(ranks)
    ensures var i := RankScan.LastAtOrBelow(Themes.Thresholds(ranks), xp);
      var p := ProgressOf(ranks, xp);
      (p.next.None? <==> i == |ranks| - 1)
      && (i + 1 < |ranks| ==> p.next == Some(ranks[i + 1]) && p.xpForLevel == ranks[i + 1].xp - ranks[i].xp)
      && (ranks[0].xp <= xp && i + 1 < |ranks| ==>
            0 <= p.xpInLevel < p.xpForLevel && 0.0 <= p.widthPercent < 100.0)
  {
    var ths := Themes.Thresholds(ranks);
    var i := RankScan.LastAtOrBelow(ths, xp);
    var idx := IndexOfName(ranks, ranks[i].name, 0);
    assert idx == i;
    var p := ProgressOf(ranks, xp);
    if ranks[0].xp <= xp && i + 1 < |ranks| {
      assert ths[0] <= xp;
      assert ths[i] <= xp;
      assert xp < ths[i + 1];
      var a := p.xpInLevel as real;
      var b := p.xpForLevel as real;
      assert 0.0 <= a < b;
      assert a / b < 1.0;
      assert 0.0 <= a / b;
    }
  }

  /** `rank.level || 1`: a level of zero is shown as 1. */
  function DisplayLevel(rank: Themes.Rank): (l: int)
    ensures rank.level != 0 ==> l == rank.level
    ensures rank.level == 0 ==> l == 1
  {
    if rank.level == 0 then 1 else rank.level
  }

  /** In every theme the level shown is the server's level for the same experience. */
  lemma ShownLevelIsServerLevel(t: Themes.Theme, xp: int)
    requires t in Themes.AllThemes
    ensures DisplayLevel(Themes.RankFor(t.ranks, xp)) == Config.LevelFor(xp).level
  {
    Themes.TablesAscending(t);
    Themes.RankMatchesServer(t, xp);
    var i := RankScan.LastAtOrBelow(Themes.Thresholds(t.ranks), xp);
    if i > 0 {
      assert t.ranks[0].level < t.ranks[i].level;
    }
  }

  /** Every theme table meets the bar's preconditions. */
  lemma ThemeTablesFitTheBar(t: Themes.Theme)
    requires t in Themes.AllThemes
    ensures |t.ranks| > 0 && Ascending(t.ranks) && DistinctNames(t.ranks)
  {
    Themes.TablesAscending(t);
    if t == Themes.Pokemon { PokemonNames(); }
    else if t == Themes.Bollywood { BollywoodNames(); }
    else if t == Themes.Cricket { CricketNames(); }
    else if t == Themes.Startup { StartupNames(); }
    else { SpaceNames(); }
  }

  lemma PokemonNames() ensures DistinctNames(Themes.PokemonRanks) { }
  lemma BollywoodNames() ensures DistinctNames(Themes.BollywoodRanks) { }
  lemma CricketNames() ensures DistinctNames(Themes.CricketRanks) { }
  lemma StartupNames() ensures DistinctNames(Themes.StartupRanks) { }
  lemma SpaceNames() ensures DistinctNames(Themes.SpaceRanks) { }

  /** The leaderboard's sort key: `(m.xp || 0)`. */
  function XpKey(m: TeamMember): real {
    XpOrZero(m.xp) as real
  }

  /** A copy of the member list sorted on experience, highest first; the sort is stable. */
  function ByXp(members: seq<TeamMember>): seq<TeamMember> {
    SortDesc(members, XpKey)
  }

  /** The five members with the most experience. */
  function Leaderboard(members: seq<TeamMember>): seq<TeamMember> {
    Take(ByXp(members), 5)
  }

  /**
   * The leaderboard holds min(5, n) members drawn from the team, highest
   * experience first; every member left out has no more experience than any
   * member shown; a team of five or fewer is shown whole.
   */
  lemma LeaderboardFacts(members: seq<TeamMember>)
    ensures var r := Leaderboard(members);
      |r| == (if |members| < 5 then |members| else 5)
      && (forall i, j :: 0 <= i < j < |r| ==> XpOrZero(r[i].xp) >= XpOrZero(r[j].xp))
      && multiset(r) <= multiset(members)
      && (forall m :: m in members && m !in r ==> forall i :: 0 <= i < |r| ==> XpOrZero(r[i].xp) >= XpOrZero(m.xp))
      && (|members| <= 5 ==> multiset(r) == multiset(members))
  {
    TopOf(members, XpKey, 5);
    TopIsBest(members, XpKey, 5);
    var r := Leaderboard(members);
    assert SortedDesc(r, XpKey);
    forall i, j | 0 <= i < j < |r| ensures XpOrZero(r[i].xp) >= XpOrZero(r[j].xp) {
      assert XpKey(r[i]) >= XpKey(r[j]);
    }
    forall m | m in members && m !in r ensures forall i :: 0 <= i < |r| ==> XpOrZero(r[i].xp) >= XpOrZero(m.xp) {
      forall i | 0 <= i < |r| ensures XpOrZero(r[i].xp) >= XpOrZero(m.xp) {
        assert XpKey(r[i]) >= XpKey(m);
      }
    }
  }

  /** Members with equal experience keep the order of the team list. */
  lemma TiesKeepTeamOrder(members: seq<TeamMember>, k: real)
    ensures KeyFilter(ByXp(members), k, XpKey) == KeyFilter(members, k, XpKey)
  {
    SortDescStable(members, k, XpKey);
  }

  /** `(activity || []).slice(0, 5)`: the first five entries of the feed, in its order. */
  function RecentActivity<T>(activity: Option<seq<T>>): (r: seq<T>)
    ensures activity.None? ==> r == []
    ensures activity.Some? ==> (|r| == (if |activity.value| < 5 then |activity.value| else 5)
                                && forall i :: 0 <= i < |r| ==> r[i] == activity.value[i])
  {
    Take(activity.GetOr([]), 5)
  }
}
