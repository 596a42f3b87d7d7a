/**
 * Cross-team collaboration: a task's title is compared with the open tasks
 * of other teams that opted in, by a weighted mix of a normalised edit
 * distance and the overlap of the two word sets, and the best three matches
 * at or above a threshold are returned. Scores are exact rationals here; the
 * JavaScript numbers are IEEE doubles.
 */
module Collab {
  import opened Wrappers
  import opened Text
  import opened Store
  import opened StableSort

  // ---------------------------------------------------------------------------
  // Normalisation: toLowerCase, every white-space run to one blank, trim.
  // ---------------------------------------------------------------------------

  /** replace(/\s+/g, ' '): each maximal run of white space becomes one blank. */
  function Collapse(s: string): (r: string)
    decreases |s|
    ensures s == [] <==> r == []
    ensures s != [] && IsSpace(s[0]) ==> r[0] == ' '
    ensures s != [] && !IsSpace(s[0]) ==> r[0] == s[0]
  {
    if s == [] then []
    else if IsSpace(s[0]) then [' '] + Collapse(TrimLeft(s[1..]))
    else [s[0]] + Collapse(s[1..])
  }

  /** After collapsing, blanks are the only white space and never come two in a row. */
  lemma {:induction false} CollapseSingleBlanks(s: string)
    ensures SingleBlanks(Collapse(s))
    decreases |s|
  {
    if s != [] {
      var rest := if IsSpace(s[0]) then TrimLeft(s[1..]) else s[1..];
      CollapseSingleBlanks(rest);
      var tail := Collapse(rest);
      var r := Collapse(s);
      assert r == [r[0]] + tail;
      assert IsSpace(s[0]) ==> tail == [] || !IsSpace(tail[0]);
      forall i | 1 <= i < |r| ensures r[i] == tail[i - 1] { }
    }
  }

  function Normalise(s: string): string {
    Trim(Collapse(LowerStr(s)))
  }

  /** Blanks are the only white space and never come two in a row. */
  predicate SingleBlanks(n: string) {
    (forall i :: 0 <= i < |n| && IsSpace(n[i]) ==> n[i] == ' ')
    && (forall i :: 0 <= i < |n| - 1 ==> !(IsSpace(n[i]) && IsSpace(n[i + 1])))
  }

  lemma SliceSingleBlanks(c: string, i: int, j: int)
    requires 0 <= i <= j <= |c| && SingleBlanks(c)
    ensures SingleBlanks(c[i..j])
  {
    var n := c[i..j];
    forall k | 0 <= k < |n| ensures n[k] == c[i + k] {
    }
  }

  /** A normalised title has no white space at either end and single blanks between words. */
  lemma NormalisedShape(s: string)
    ensures var n := Normalise(s);
      (n == [] || (!IsSpace(n[0]) && !IsSpace(n[|n| - 1]))) && SingleBlanks(n)
  {
    var c := Collapse(LowerStr(s));
    CollapseSingleBlanks(LowerStr(s));
    TrimSlice(c);
    TrimEnds(c);
    var i, j :| 0 <= i <= j <= |c| && Trim(c) == c[i..j];
    SliceSingleBlanks(c, i, j);
  }

  // ---------------------------------------------------------------------------
  // Edit distance.
  // ---------------------------------------------------------------------------

  function Min3(x: int, y: int, z: int): (m: int)
    ensures m <= x && m <= y && m <= z
    ensures m == x || m == y || m == z
  {
    if x <= y && x <= z then x else if y <= z then y else z
  }

  function Max(x: int, y: int): int {
    if x >= y then x else y
  }

  /**
   * The table entry dp[i][j]: the edit distance between the first i
   * characters of a and the first j characters of b, by the recurrence the
   * table is filled with.
   */
  function Dist(a: string, b: string, i: nat, j: nat): nat
    requires i <= |a| && j <= |b|
    decreases i + j
  {
    if i == 0 then j
    else if j == 0 then i
    else if a[i - 1] == b[j - 1] then Dist(a, b, i - 1, j - 1)
    else 1 + Min3(Dist(a, b, i - 1, j), Dist(a, b, i, j - 1), Dist(a, b, i - 1, j - 1))
  }

  /** The distance never exceeds the longer prefix: replace them all, insert or delete the rest. */
  lemma {:induction false} DistBound(a: string, b: string, i: nat, j: nat)
    requires i <= |a| && j <= |b|
    ensures Dist(a, b, i, j) <= Max(i, j)
    decreases i + j
  {
    if i > 0 && j > 0 {
      DistBound(a, b, i - 1, j - 1);
    }
  }

  /** Distance zero exactly for equal prefixes. */
  lemma {:induction false} DistZero(a: string, b: string, i: nat, j: nat)
    requires i <= |a| && j <= |b|
    ensures Dist(a, b, i, j) == 0 <==> a[..i] == b[..j]
    decreases i + j
  {
    if i > 0 && j > 0 {
      DistZero(a, b, i - 1, j - 1);
      assert a[..i] == a[..i - 1] + [a[i - 1]];
      assert b[..j] == b[..j - 1] + [b[j - 1]];
      if a[..i] == b[..j] {
        assert a[i - 1] == a[..i][i - 1] && b[j - 1] == b[..j][j - 1];
        assert a[..i - 1] == a[..i][..i - 1];
      }
    } else if i > 0 {
      assert |a[..i]| != |b[..j]|;
    } else if j > 0 {
      assert |a[..i]| != |b[..j]|;
    }
  }

  /** One row of the dp table: dp[i][j] from the row above and the cell to the left. */
  method FillRow(dp: array2<nat>, s1: string, s2: string, i: nat)
    requires dp.Length0 == |s1| + 1 && dp.Length1 == |s2| + 1 && 1 <= i <= |s1|
    requires forall x, y {:trigger dp[x, y]} :: 0 <= x < i && 0 <= y <= |s2| ==> dp[x, y] == Dist(s1, s2, x, y)
    requires dp[i, 0] == i
    modifies dp
    ensures forall y {:trigger dp[i, y]} :: 0 <= y <= |s2| ==> dp[i, y] == Dist(s1, s2, i, y)
    ensures forall x, y :: 0 <= x < dp.Length0 && 0 <= y < dp.Length1 && x != i ==> dp[x, y] == old(dp[x, y])
  {
    var up := i - 1;
    assert forall y {:trigger dp[up, y]} :: 0 <= y <= |s2| ==> dp[up, y] == Dist(s1, s2, up, y);
    var j := 1;
    while j <= |s2|
      invariant 1 <= j <= |s2| + 1
      invariant forall y {:trigger dp[up, y]} :: 0 <= y <= |s2| ==> dp[up, y] == Dist(s1, s2, up, y)
      invariant forall y {:trigger dp[i, y]} :: 0 <= y < j ==> dp[i, y] == Dist(s1, s2, i, y)
      invariant forall x, y :: 0 <= x < dp.Length0 && 0 <= y < dp.Length1 && x != i ==> dp[x, y] == old(dp[x, y])
    {
      var v: nat := if s1[i - 1] == s2[j - 1] then dp[up, j - 1]
                    else 1 + Min3(dp[up, j], dp[i, j - 1], dp[up, j - 1]);
      assert v == Dist(s1, s2, i, j);
      dp[i, j] := v;
      j := j + 1;
    }
  }

  /** The dp table of levenshteinSimilarity, filled row by row. */
  method EditDistance(s1: string, s2: string) returns (dist: nat)
    ensures dist == Dist(s1, s2, |s1|, |s2|)
  {
    var len1, len2 := |s1|, |s2|;
    var dp := new nat[len1 + 1, len2 + 1]((i, j) => if i == 0 then j else if j == 0 then i else 0);
    assert forall y :: 0 <= y <= len2 ==> dp[0, y] == y == Dist(s1, s2, 0, y);
    var i := 1;
    while i <= len1
      invariant 1 <= i <= len1 + 1
      invariant forall x, y {:trigger dp[x, y]} :: 0 <= x < i && 0 <= y <= len2 ==> dp[x, y] == Dist(s1, s2, x, y)
      invariant forall x :: i <= x <= len1 ==> dp[x, 0] == x
    {
      FillRow(dp, s1, s2, i);
      i := i + 1;
    }
    dist := dp[len1, len2];
  }

  /** levenshteinSimilarity: 1 for equal normalised titles, else one minus the distance over the longer length. */
  function LevSimilarity(a: string, b: string): real {
    var s1, s2 := Normalise(a), Normalise(b);
    if s1 == s2 then 1.0
    else
      assert Max(|s1|, |s2|) > 0 by {
        assert |s1| == 0 ==> s1 == [];
        assert |s2| == 0 ==> s2 == [];
      }
      1.0 - Dist(s1, s2, |s1|, |s2|) as real / Max(|s1|, |s2|) as real
  }

  method LevenshteinSimilarity(a: string, b: string) returns (sim: real)
    ensures sim == LevSimilarity(a, b)
  {
    var s1 := Normalise(a);
    var s2 := Normalise(b);
    if s1 == s2 {
      return 1.0;
    }
    assert Max(|s1|, |s2|) > 0 by {
      assert |s1| == 0 ==> s1 == [];
      assert |s2| == 0 ==> s2 == [];
    }
    var dist := EditDistance(s1, s2);
    sim := 1.0 - dist as real / Max(|s1|, |s2|) as real;
  }

  lemma DivAtMostOne(d: nat, m: nat)
    requires 0 < m && d <= m
    ensures 0.0 <= d as real / m as real <= 1.0
  {
  }

  /** For different strings the distance is positive and at most the longer length. */
  lemma DistRatio(s1: string, s2: string)
    requires s1 != s2
    ensures Max(|s1|, |s2|) > 0
    ensures 0.0 < Dist(s1, s2, |s1|, |s2|) as real / Max(|s1|, |s2|) as real <= 1.0
  {
    var m := Max(|s1|, |s2|);
    assert m > 0 by {
      assert |s1| == 0 ==> s1 == [];
      assert |s2| == 0 ==> s2 == [];
    }
    var d := Dist(s1, s2, |s1|, |s2|);
    DistBound(s1, s2, |s1|, |s2|);
    DistZero(s1, s2, |s1|, |s2|);
    assert s1[..|s1|] == s1 && s2[..|s2|] == s2;
    assert d >= 1;
    DivAtMostOne(d, m);
    assert d as real / m as real > 0.0;
  }

  /** The similarity lies in [0, 1] and is 1 exactly when the normalised titles agree. */
  lemma LevSimilarityRange(a: string, b: string)
    ensures 0.0 <= LevSimilarity(a, b) <= 1.0
    ensures LevSimilarity(a, b) == 1.0 <==> Normalise(a) == Normalise(b)
  {
    var s1, s2 := Normalise(a), Normalise(b);
    if s1 != s2 {
      DistRatio(s1, s2);
    }
  }

  /** Two titles that differ only in case and spacing, or two blank titles, are identical to the comparison. */
  lemma SameAfterNormalising(a: string, b: string)
    requires Normalise(a) == Normalise(b)
    ensures LevSimilarity(a, b) == 1.0
    ensures LevSimilarity("", "") == 1.0
  {
  }

  // ---------------------------------------------------------------------------
  // Word overlap.
  // ---------------------------------------------------------------------------

  /** The ASCII members of the regular-expression class \w. */
  predicate IsWordChar(c: char) {
    'a' <= c <= 'z' || 'A' <= c <= 'Z' || '0' <= c <= '9' || c == '_'
  }

  /** replace(/[^\w\s]/g, ''): drops every character that is neither a word character nor white space. */
  function StripPunct(s: string): (r: string)
    ensures forall i :: 0 <= i < |r| ==> (IsWordChar(r[i]) || IsSpace(r[i])) && r[i] in s
  {
    if s == [] then []
    else (if IsWordChar(s[0]) || IsSpace(s[0]) then [s[0]] else []) + StripPunct(s[1..])
  }

  /** The longest prefix without white space. */
  function Run(s: string): (r: string)
    ensures |r| <= |s| && r == s[..|r|]
    ensures forall i :: 0 <= i < |r| ==> !IsSpace(s[i])
    ensures |r| < |s| ==> IsSpace(s[|r|])
  {
    if s == [] || IsSpace(s[0]) then [] else [s[0]] + Run(s[1..])
  }

  /** split(/\s+/) without the empty pieces, which the length filter drops anyway. */
  function Pieces(s: string): (r: seq<string>)
    decreases |s|
    ensures forall k :: 0 <= k < |r| ==> |r[k]| > 0
    ensures forall k, i :: 0 <= k < |r| && 0 <= i < |r[k]| ==> !IsSpace(r[k][i]) && r[k][i] in s
  {
    if s == [] then []
    else if IsSpace(s[0]) then Pieces(s[1..])
    else
      var w := Run(s);
      assert forall i :: 0 <= i < |w| ==> w[i] in s;
      [w] + Pieces(s[|w|..])
  }

  lemma LowerIsLower(s: string)
    ensures forall c :: c in LowerStr(s) ==> !('A' <= c <= 'Z')
  {
    var l := LowerStr(s);
    forall c | c in l ensures !('A' <= c <= 'Z') {
      var i :| 0 <= i < |l| && l[i] == c;
      assert c == Lower(s[i]);
    }
  }

  /** The title's word set: lower-cased, stripped of punctuation, words longer than two characters. */
  function Words(s: string): (r: set<string>)
    ensures forall w, i :: w in r && 0 <= i < |w| ==> IsWordChar(w[i]) && !('A' <= w[i] <= 'Z')
    ensures forall w :: w in r ==> |w| > 2
  {
    var p := Pieces(StripPunct(LowerStr(s)));
    LowerIsLower(s);
    set w | w in p && |w| > 2
  }

  lemma SubsetCard<T>(a: set<T>, b: set<T>)
    requires a <= b
    ensures |a| <= |b|
  {
    var rest := b - a;
    assert b == a + rest && a * rest == {};
  }

  /** The Jaccard index of two sets, 0 when both are empty. */
  function Jaccard(w1: set<string>, w2: set<string>): real {
    if |w1 + w2| == 0 then 0.0 else |w1 * w2| as real / |w1 + w2| as real
  }

  /** wordOverlapSimilarity: the Jaccard index of the two word sets. */
  function WordOverlap(a: string, b: string): real {
    Jaccard(Words(a), Words(b))
  }

  lemma JaccardRange(w1: set<string>, w2: set<string>)
    ensures 0.0 <= Jaccard(w1, w2) <= 1.0
    ensures Jaccard(w1, w2) == Jaccard(w2, w1)
    ensures w1 + w2 == {} ==> Jaccard(w1, w2) == 0.0
    ensures w1 == w2 && w1 != {} ==> Jaccard(w1, w2) == 1.0
    ensures w1 * w2 == {} ==> Jaccard(w1, w2) == 0.0
  {
    assert w1 + w2 == w2 + w1 && w1 * w2 == w2 * w1;
    SubsetCard(w1 * w2, w1 + w2);
    if |w1 + w2| > 0 {
      DivAtMostOne(|w1 * w2|, |w1 + w2|);
    }
    if w1 == w2 {
      assert w1 * w2 == w1 + w2;
      if w1 != {} {
        var x :| x in w1;
        assert x in w1 + w2;
      }
    }
  }

  lemma WordOverlapRange(a: string, b: string)
    ensures 0.0 <= WordOverlap(a, b) <= 1.0
    ensures WordOverlap(a, b) == WordOverlap(b, a)
    ensures Words(a) == {} && Words(b) == {} ==> WordOverlap(a, b) == 0.0
    ensures Words(a) == Words(b) && Words(a) != {} ==> WordOverlap(a, b) == 1.0
  {
    JaccardRange(Words(a), Words(b));
  }

  /** combinedSimilarity: word overlap weighs 0.6, the edit distance 0.4. */
  function Combined(a: string, b: string): real {
    4.0 / 10.0 * LevSimilarity(a, b) + 6.0 / 10.0 * WordOverlap(a, b)
  }

  lemma CombinedRange(a: string, b: string)
    ensures 0.0 <= Combined(a, b) <= 1.0
    ensures Normalise(a) == Normalise(b) && Words(a) == Words(b) && Words(a) != {} ==> Combined(a, b) == 1.0
    ensures Normalise(a) == Normalise(b) ==> Combined(a, b) >= 4.0 / 10.0
  {
    LevSimilarityRange(a, b);
    WordOverlapRange(a, b);
  }

  // ---------------------------------------------------------------------------
  // Selection.
  // ---------------------------------------------------------------------------

  const Threshold: real := 35.0 / 100.0
  const MaxResults: nat := 3

  /** One scored candidate. */
  datatype Match = Match(
    taskId: int, title: string, category: Option<string>, status: string, priority: string,
    teamId: int, teamLabel: string, score: real)

  function ScoreOf(m: Match): real {
    m.score
  }

  /** filter(c => c.score >= SIMILARITY_THRESHOLD), keeping the order. */
  function Passing(s: seq<Match>): (r: seq<Match>)
    ensures forall m :: m in r <==> m in s && m.score >= Threshold
  {
    if s == [] then []
    else (if s[0].score >= Threshold then [s[0]] else []) + Passing(s[1..])
  }

  /** The stable sort by score descending, then the first three. */
  function Select(scored: seq<Match>): seq<Match> {
    Take(SortDesc(Passing(scored), ScoreOf), MaxResults)
  }

  /** At most three matches, all at or above the threshold and all drawn from the candidates. */
  lemma SelectBounded(scored: seq<Match>)
    ensures var r := Select(scored);
      |r| <= MaxResults && forall i :: 0 <= i < |r| ==> r[i].score >= Threshold && r[i] in scored
  {
    var p := Passing(scored);
    var r := Select(scored);
    TopOf(p, ScoreOf, MaxResults);
    forall i | 0 <= i < |r| ensures r[i].score >= Threshold && r[i] in scored {
      assert r[i] in p;
    }
  }

  /** Best first. */
  lemma SelectSorted(scored: seq<Match>)
    ensures var r := Select(scored);
      forall i, j :: 0 <= i < j < |r| ==> r[i].score >= r[j].score
  {
    var r := Select(scored);
    TopOf(Passing(scored), ScoreOf, MaxResults);
    forall i, j | 0 <= i < j < |r| ensures r[i].score >= r[j].score {
      assert ScoreOf(r[i]) >= ScoreOf(r[j]);
    }
  }

  /** No passing candidate left out scores higher than one kept. */
  lemma SelectBest(scored: seq<Match>)
    ensures var r := Select(scored);
      forall m :: m in scored && m.score >= Threshold && m !in r ==>
        forall i :: 0 <= i < |r| ==> r[i].score >= m.score
  {
    var p := Passing(scored);
    var r := Select(scored);
    TopIsBest(p, ScoreOf, MaxResults);
    forall m | m in scored && m.score >= Threshold && m !in r
      ensures forall i :: 0 <= i < |r| ==> r[i].score >= m.score
    {
      assert m in p;
      forall i | 0 <= i < |r| ensures r[i].score >= m.score {
        assert ScoreOf(r[i]) >= ScoreOf(m);
      }
    }
  }

  /** Math.round: halves round up. */
  function Round(x: real): int {
    (x + 0.5).Floor
  }

  lemma RoundMonotone(x: real, y: real)
    requires x <= y
    ensures Round(x) <= Round(y)
  {
  }

  /** The shown percentage of a passing score lies between 35 and 100. */
  lemma PercentRange(x: real)
    requires Threshold <= x <= 1.0
    ensures 35 <= Round(x * 100.0) <= 100
  {
    RoundMonotone(35.0, x * 100.0);
    RoundMonotone(x * 100.0, 100.0);
  }

  /** `Team ${String(id).slice(-3).padStart(3, '0')}`. */
  function TeamLabel(id: int): (r: string)
    ensures id >= 0 ==> |r| == 8 && r[..5] == "Team " && forall i :: 5 <= i < 8 ==> '0' <= r[i] <= '9'
  {
    var d := IntToString(id);
    var tail := if |d| > 3 then d[|d| - 3..] else d;
    "Team " + seq(3 - |tail|, _ => '0') + tail
  }

  // ---------------------------------------------------------------------------
  // The routes.
  // ---------------------------------------------------------------------------

  /** One entry of the response's matches list. */
  datatype Shown = Shown(
    taskTitle: string, category: Option<string>, status: string, priority: string,
    teamLabel: string, similarityScore: int)

  datatype Similar =
    | Disabled
    | Enabled(sourceTaskTitle: Option<string>, matches: seq<Shown>)

  /** An open task of a collaborating team other than the source team. */
  predicate Candidate(teams: seq<Team>, source: int, t: Task) {
    0 < t.teamId <= |teams| && teams[t.teamId - 1].collabEnabled && t.teamId != source
    && !t.completed && t.status != "done"
  }

  /** The WHERE clause over rows in ascending id order, returned newest first. */
  function Candidates(teams: seq<Team>, source: int, rows: seq<Row>): (r: seq<Row>)
    ensures forall k :: 0 <= k < |r| ==> r[k] in rows && Candidate(teams, source, r[k].task)
    ensures forall x :: x in rows && Candidate(teams, source, x.task) ==> x in r
  {
    if rows == [] then []
    else
      var last := rows[|rows| - 1];
      (if Candidate(teams, source, last.task) then [last] else []) + Candidates(teams, source, rows[..|rows| - 1])
  }

  predicate OldestFirst(rows: seq<Row>) {
    forall a, b :: 0 <= a < b < |rows| ==> rows[a].id < rows[b].id
  }

  predicate NewestFirst(rows: seq<Row>) {
    forall a, b :: 0 <= a < b < |rows| ==> rows[a].id > rows[b].id
  }

  /** Newest first: ids descend along the candidates when they ascend along the rows. */
  lemma {:induction false} CandidatesNewestFirst(teams: seq<Team>, source: int, rows: seq<Row>)
    requires OldestFirst(rows)
    ensures NewestFirst(Candidates(teams, source, rows))
  {
    if rows != [] {
      var init := rows[..|rows| - 1];
      var last := rows[|rows| - 1];
      InitOldestFirst(rows);
      CandidatesNewestFirst(teams, source, init);
      CandidatesBelow(teams, source, init, last.id);
      if Candidate(teams, source, last.task) {
        NewestCons(last, Candidates(teams, source, init));
      }
    }
  }

  lemma InitOldestFirst(rows: seq<Row>)
    requires rows != [] && OldestFirst(rows)
    ensures OldestFirst(rows[..|rows| - 1])
    ensures forall i :: 0 <= i < |rows| - 1 ==> rows[i].id < rows[|rows| - 1].id
  {
  }

  /** Candidates are drawn from the rows, so a bound on the rows' ids bounds theirs. */
  lemma CandidatesBelow(teams: seq<Team>, source: int, rows: seq<Row>, bound: int)
    requires forall i :: 0 <= i < |rows| ==> rows[i].id < bound
    ensures forall k :: 0 <= k < |Candidates(teams, source, rows)| ==> Candidates(teams, source, rows)[k].id < bound
  {
    var r := Candidates(teams, source, rows);
    forall k | 0 <= k < |r| ensures r[k].id < bound {
      var i :| 0 <= i < |rows| && rows[i] == r[k];
    }
  }

  lemma NewestCons(last: Row, rest: seq<Row>)
    requires NewestFirst(rest) && forall k :: 0 <= k < |rest| ==> rest[k].id < last.id
    ensures NewestFirst([last] + rest)
  {
    var r := [last] + rest;
    forall a, b | 0 <= a < b < |r| ensures r[a].id > r[b].id {
      assert r[b] == rest[b - 1];
      if a > 0 {
        assert r[a] == rest[a - 1];
      }
    }
  }

  function MatchOf(title: string, c: Row): Match {
    Match(c.id, c.task.title, c.task.category, c.task.status, c.task.priority,
          c.task.teamId, TeamLabel(c.task.teamId), Combined(title, c.task.title))
  }

  function Show(m: Match): Shown {
    Shown(m.title, m.category, m.status, m.priority, m.teamLabel, Round(m.score * 100.0))
  }

  function ScoredAll(title: string, cands: seq<Row>): seq<Match> {
    seq(|cands|, i requires 0 <= i < |cands| => MatchOf(title, cands[i]))
  }

  /** The response for a source title and its candidate rows. */
  function Response(title: string, cands: seq<Row>): Similar {
    if cands == [] then Enabled(None, [])
    else
      var best := Select(ScoredAll(title, cands));
      Enabled(Some(title), seq(|best|, i requires 0 <= i < |best| => Show(best[i])))
  }

  /** At most three matches are shown, each with a percentage from 35 to 100. */
  lemma ResponseBounded(title: string, cands: seq<Row>)
    ensures var r := Response(title, cands);
      r.Enabled? && |r.matches| <= MaxResults
      && forall i :: 0 <= i < |r.matches| ==> 35 <= r.matches[i].similarityScore <= 100
  {
    if cands != [] {
      var scored := ScoredAll(title, cands);
      var best := Select(scored);
      SelectBounded(scored);
      var r := Response(title, cands);
      forall i | 0 <= i < |best| ensures 35 <= r.matches[i].similarityScore <= 100 {
        var k :| 0 <= k < |scored| && scored[k] == best[i];
        CombinedRange(title, cands[k].task.title);
        PercentRange(best[i].score);
      }
    }
  }

  /** The shown percentages never increase along the list. */
  lemma ResponseOrdered(title: string, cands: seq<Row>)
    ensures var r := Response(title, cands);
      forall i, j :: 0 <= i < j < |r.matches| ==> r.matches[i].similarityScore >= r.matches[j].similarityScore
  {
    if cands != [] {
      var best := Select(ScoredAll(title, cands));
      SelectSorted(ScoredAll(title, cands));
      var r := Response(title, cands);
      forall i, j | 0 <= i < j < |best| ensures r.matches[i].similarityScore >= r.matches[j].similarityScore {
        RoundMonotone(best[j].score * 100.0, best[i].score * 100.0);
      }
    }
  }

  /** The shown match carries the title of one of the candidates. */
  predicate FromCandidate(m: Shown, teams: seq<Team>, source: int, cands: seq<Row>) {
    exists k :: 0 <= k < |cands| && m.taskTitle == cands[k].task.title && Candidate(teams, source, cands[k].task)
  }

  /** Every match shown is an open task of another collaborating team. */
  lemma ResponseFromCandidates(teams: seq<Team>, source: int, title: string, cands: seq<Row>)
    requires forall k :: 0 <= k < |cands| ==> Candidate(teams, source, cands[k].task)
    ensures var r := Response(title, cands);
      forall i :: 0 <= i < |r.matches| ==> FromCandidate(r.matches[i], teams, source, cands)
  {
    if cands != [] {
      var scored := ScoredAll(title, cands);
      var best := Select(scored);
      SelectBounded(scored);
      var r := Response(title, cands);
      forall i | 0 <= i < |best| ensures FromCandidate(r.matches[i], teams, source, cands) {
        var k :| 0 <= k < |scored| && scored[k] == best[i];
        assert scored[k].title == cands[k].task.title;
        assert r.matches[i] == Show(best[i]);
        assert 0 <= k < |cands| && r.matches[i].taskTitle == cands[k].task.title && Candidate(teams, source, cands[k].task);
      }
    }
  }

  /** The task exists and the user is a member of its team. */
  predicate Visible(s: Store, user: int, taskId: int)
    reads s
  {
    taskId in s.tasks && (user, s.tasks[taskId].teamId) in s.members
  }

  predicate CollabOn(teams: seq<Team>, team: int) {
    0 < team <= |teams| && teams[team - 1].collabEnabled
  }

  /**
   * GET /similar-tasks: the newest 500 candidates are scored against the
   * source title. The taskId query parameter is None when it is missing or
   * empty, the only strings !taskId rejects; "0" is truthy and reaches the
   * lookup, which finds no task 0.
   */
  method SimilarTasks(s: Store, user: int, query: Option<int>) returns (r: Reply<Similar>)
    requires s.Valid()
    ensures query.None? ==> r == Fail(400, "taskId required")
    ensures query == Some(0) ==> r == Fail(404, "Task not found or access denied")
    ensures query.Some? && !Visible(s, user, query.value) ==> r == Fail(404, "Task not found or access denied")
    ensures query.Some? && Visible(s, user, query.value) && !CollabOn(s.teams, s.tasks[query.value].teamId) ==> r == Ok(Disabled)
    ensures query.Some? && Visible(s, user, query.value) && CollabOn(s.teams, s.tasks[query.value].teamId) ==>
      var team := s.tasks[query.value].teamId;
      r == Ok(Response(s.tasks[query.value].title, Take(Candidates(s.teams, team, RowsBelow(s.tasks, s.nextTaskId)), 500)))
  {
    if query.None? {
      return Fail(400, "taskId required");
    }
    var taskId := query.value;
    if !Visible(s, user, taskId) {
      return Fail(404, "Task not found or access denied");
    }
    var source := s.tasks[taskId];
    if !CollabOn(s.teams, source.teamId) {
      return Ok(Disabled);
    }
    var cands := Take(Candidates(s.teams, source.teamId, RowsBelow(s.tasks, s.nextTaskId)), 500);
    if |cands| == 0 {
      return Ok(Enabled(None, []));
    }
    var best := Select(ScoredAll(source.title, cands));
    r := Ok(Enabled(Some(source.title), seq(|best|, i requires 0 <= i < |best| => Show(best[i]))));
  }

  /** The route's candidates are newest first, at most 500 of them, and each one is a genuine candidate. */
  lemma SimilarCandidates(teams: seq<Team>, source: int, tasks: map<int, Task>, next: int)
    ensures var c := Take(Candidates(teams, source, RowsBelow(tasks, next)), 500);
      |c| <= 500 && NewestFirst(c)
      && (forall k :: 0 <= k < |c| ==> c[k].id in tasks && tasks[c[k].id] == c[k].task && Candidate(teams, source, c[k].task))
  {
    var rows := RowsBelow(tasks, next);
    var all := Candidates(teams, source, rows);
    assert OldestFirst(rows);
    CandidatesNewestFirst(teams, source, rows);
    CandidatesAreTasks(teams, source, tasks, next);
    PrefixNewestFirst(all, 500);
    var c := Take(all, 500);
    forall k | 0 <= k < |c| ensures c[k] == all[k] {
    }
  }

  /** Every candidate row is a task of the map, under its own id. */
  lemma CandidatesAreTasks(teams: seq<Team>, source: int, tasks: map<int, Task>, next: int)
    ensures var all := Candidates(teams, source, RowsBelow(tasks, next));
      forall k :: 0 <= k < |all| ==> all[k].id in tasks && tasks[all[k].id] == all[k].task
  {
    var rows := RowsBelow(tasks, next);
    var all := Candidates(teams, source, rows);
    forall k | 0 <= k < |all| ensures all[k].id in tasks && tasks[all[k].id] == all[k].task {
      var i :| 0 <= i < |rows| && rows[i] == all[k];
    }
  }

  lemma PrefixNewestFirst(rows: seq<Row>, n: nat)
    requires NewestFirst(rows)
    ensures NewestFirst(Take(rows, n))
  {
    var c := Take(rows, n);
    forall a, b | 0 <= a < b < |c| ensures c[a].id > c[b].id {
      assert c[a] == rows[a] && c[b] == rows[b];
    }
  }

  /** PATCH /settings: an admin of the team turns collaboration on or off. */
  method Settings(s: Store, user: int, teamId: int, collabEnabled: bool) returns (r: Reply<bool>)
    requires s.Valid()
    modifies s`teams
    ensures s.Valid()
    ensures teamId == 0 ==> r == Fail(400, "teamId required")
    ensures teamId != 0 && (user, teamId) !in s.members ==> r == Fail(403, "Not a member of this team")
    ensures teamId != 0 && (user, teamId) in s.members && !s.IsAdmin(user, teamId) ==> r == Fail(403, "Admin only")
    ensures r.Fail? ==> s.teams == old(s.teams)
    ensures r.Ok? ==> teamId != 0 && s.IsAdmin(user, teamId) && r.value == collabEnabled
    ensures r.Ok? ==> (0 < teamId <= |old(s.teams)|
      && s.teams == old(s.teams)[teamId - 1 := old(s.teams)[teamId - 1].(collabEnabled := collabEnabled)])
  {
    if teamId == 0 {
      return Fail(400, "teamId required");
    }
    if (user, teamId) !in s.members {
      return Fail(403, "Not a member of this team");
    }
    if !s.IsAdmin(user, teamId) {
      return Fail(403, "Admin only");
    }
    var t := s.teams[teamId - 1];
    s.teams := s.teams[teamId - 1 := t.(collabEnabled := collabEnabled)];
    r := Ok(collabEnabled);
  }

  /** Only the team's flag changes, and the similarity route then follows it. */
  lemma SettingsControlsRoute(teams: seq<Team>, team: int, on: bool)
    requires 0 < team <= |teams|
    ensures CollabOn(teams[team - 1 := teams[team - 1].(collabEnabled := on)], team) == on
    ensures forall t :: t != team ==> CollabOn(teams[team - 1 := teams[team - 1].(collabEnabled := on)], t) == CollabOn(teams, t)
  {
  }
}
