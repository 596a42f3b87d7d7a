/**
 * The task list of the React client's center panel: the search box and the
 * two filter menus, the active and completed counters, and the splitter the
 * quick-capture box falls back on when the AI parser cannot be reached.
 */
module CenterPanel {
  import opened Wrappers
  import opened Text
  import opened ClientModel

  /** field?.toLowerCase().includes(q): a null field never matches. */
  predicate FieldMatches(f: Option<string>, q: string) {
    f.Some? && Contains(LowerStr(f.value), q)
  }

  /** The search test, for a query already lower-cased. */
  predicate MatchesSearch(t: ApiTask, q: string) {
    FieldMatches(t.title, q) || FieldMatches(t.category, q) || FieldMatches(t.assignedToName, q)
  }

  /** A due date before now on a task that is not done. */
  predicate IsOverdue(t: ApiTask, now: int) {
    t.dueDate.Some? && t.dueDate.value < now && t.status != "done"
  }

  /**
   * Everything filteredTasks asks of one task. An empty query searches
   * nothing, "ALL" filters nothing, and a status filter other than BLOCKED
   * or OVERDUE filters nothing either.
   */
  predicate Keep(t: ApiTask, query: string, priority: string, status: string, now: int) {
    && (query != [] ==> MatchesSearch(t, LowerStr(query)))
    && (priority != "ALL" ==> t.priority == priority)
    && (status == "BLOCKED" ==> t.status == "blocked")
    && (status == "OVERDUE" ==> IsOverdue(t, now))
  }

  /** filteredTasks: the search, then the priority filter, then the status filter; `now` is the clock. */
  function FilteredTasks(tasks: seq<ApiTask>, query: string, priority: string, status: string, now: int): seq<ApiTask> {
    var q := LowerStr(query);
    var searched := if query != [] then Filter(tasks, (t: ApiTask) => MatchesSearch(t, q)) else tasks;
    var prioritised := if priority != "ALL" then Filter(searched, (t: ApiTask) => t.priority == priority) else searched;
    if status == "BLOCKED" then Filter(prioritised, (t: ApiTask) => t.status == "blocked")
    else if status == "OVERDUE" then Filter(prioritised, (t: ApiTask) => IsOverdue(t, now))
    else prioritised
  }

  /** The three filters in a row are one filter by Keep. */
  lemma FilteredIsOneFilter(tasks: seq<ApiTask>, query: string, priority: string, status: string, now: int)
    ensures FilteredTasks(tasks, query, priority, status, now) == Filter(tasks, (t: ApiTask) => Keep(t, query, priority, status, now))
  {
    var q := LowerStr(query);
    var search: ApiTask -> bool := (t: ApiTask) => query != [] ==> MatchesSearch(t, q);
    var prio: ApiTask -> bool := (t: ApiTask) => priority != "ALL" ==> t.priority == priority;
    var stat: ApiTask -> bool := (t: ApiTask) => (status == "BLOCKED" ==> t.status == "blocked") && (status == "OVERDUE" ==> IsOverdue(t, now));
    var sp: ApiTask -> bool := (t: ApiTask) => search(t) && prio(t);
    var keep: ApiTask -> bool := (t: ApiTask) => Keep(t, query, priority, status, now);
    var searched := if query != [] then Filter(tasks, (t: ApiTask) => MatchesSearch(t, q)) else tasks;
    if query != [] {
      FilterSameTest(tasks, (t: ApiTask) => MatchesSearch(t, q), search);
    } else {
      FilterAll(tasks, search);
    }
    assert searched == Filter(tasks, search);
    var prioritised := if priority != "ALL" then Filter(searched, (t: ApiTask) => t.priority == priority) else searched;
    if priority != "ALL" {
      FilterSameTest(searched, (t: ApiTask) => t.priority == priority, prio);
    } else {
      FilterAll(searched, prio);
    }
    assert prioritised == Filter(searched, prio);
    FilterTwice(tasks, search, prio, sp);
    assert prioritised == Filter(tasks, sp);
    var result := FilteredTasks(tasks, query, priority, status, now);
    if status == "BLOCKED" {
      FilterSameTest(prioritised, (t: ApiTask) => t.status == "blocked", stat);
    } else if status == "OVERDUE" {
      FilterSameTest(prioritised, (t: ApiTask) => IsOverdue(t, now), stat);
    } else {
      FilterAll(prioritised, stat);
    }
    assert result == Filter(prioritised, stat);
    FilterTwice(tasks, sp, stat, keep);
  }

  /**
   * The list shows exactly the tasks that pass every active test, in the
   * order the tasks came in.
   */
  lemma FilteredMeaning(tasks: seq<ApiTask>, query: string, priority: string, status: string, now: int)
    ensures var r := FilteredTasks(tasks, query, priority, status, now);
      SubseqOf(r, tasks) && forall t :: t in r <==> t in tasks && Keep(t, query, priority, status, now)
  {
    FilteredIsOneFilter(tasks, query, priority, status, now);
    FilterIsSubseq(tasks, (t: ApiTask) => Keep(t, query, priority, status, now));
    FilterMembers(tasks, (t: ApiTask) => Keep(t, query, priority, status, now));
  }

  /** With no query and both menus on ALL, every task is listed. */
  lemma UnfilteredShowsAll(tasks: seq<ApiTask>, now: int)
    ensures FilteredTasks(tasks, "", "ALL", "ALL", now) == tasks
  {
  }

  predicate IsDone(t: ApiTask) {
    t.status == "done"
  }

  predicate NotDone(t: ApiTask) {
    t.status != "done"
  }

  /** activeTasks and completedTasks. */
  function ActiveCount(tasks: seq<ApiTask>): nat {
    |Filter(tasks, NotDone)|
  }

  function CompletedCount(tasks: seq<ApiTask>): nat {
    |Filter(tasks, IsDone)|
  }

  /** Every task is counted once, as active or as completed. */
  lemma CountsAddUp(tasks: seq<ApiTask>)
    ensures ActiveCount(tasks) + CompletedCount(tasks) == |tasks|
  {
    FilterSplits(tasks, IsDone, NotDone);
  }

  /** The separators of split(/[.\n]+/). */
  predicate IsBreak(c: char) {
    c == '.' || c == '\n'
  }

  predicate NotBreak(c: char) {
    !IsBreak(c)
  }

  predicate NoBreaks(s: string) {
    forall i :: 0 <= i < |s| ==> !IsBreak(s[i])
  }

  /** The longest prefix free of separators. */
  function Segment(s: string): (r: string)
    ensures |r| <= |s| && r == s[..|r|]
    ensures NoBreaks(r)
    ensures |r| < |s| ==> IsBreak(s[|r|])
  {
    if s == [] || IsBreak(s[0]) then [] else [s[0]] + Segment(s[1..])
  }

  /**
   * split(/[.\n]+/) without its empty pieces, which only occur at either
   * end and which the blank filter drops anyway.
   */
  function Segments(s: string): (r: seq<string>)
    decreases |s|
    ensures forall k :: 0 <= k < |r| ==> |r[k]| > 0
    ensures forall k :: 0 <= k < |r| ==> NoBreaks(r[k])
  {
    if s == [] then []
    else if IsBreak(s[0]) then Segments(s[1..])
    else
      var w := Segment(s);
      [w] + Segments(s[|w|..])
  }

  function Concat(ps: seq<string>): string {
    if ps == [] then [] else ps[0] + Concat(ps[1..])
  }

  /** The pieces, put back together, are the input with its separators removed: no other character is lost. */
  lemma {:induction false} SegmentsLoseOnlyBreaks(s: string)
    ensures Concat(Segments(s)) == Filter(s, NotBreak)
    decreases |s|
  {
    if s != [] {
      if IsBreak(s[0]) {
        SegmentsLoseOnlyBreaks(s[1..]);
      } else {
        var w := Segment(s);
        SegmentsLoseOnlyBreaks(s[|w|..]);
        assert Segments(s) == [w] + Segments(s[|w|..]);
        assert Concat(Segments(s)) == w + Concat(Segments(s[|w|..]));
        assert s == w + s[|w|..];
        FilterNoBreaks(w, s[|w|..]);
      }
    }
  }

  lemma FilterNoBreaks(w: string, rest: string)
    requires NoBreaks(w)
    ensures Filter(w + rest, NotBreak) == w + Filter(rest, NotBreak)
  {
    forall x | x in w ensures NotBreak(x) {
      var i :| 0 <= i < |w| && w[i] == x;
    }
    FilterKeepsPrefix(w, rest, NotBreak);
  }

  /** A note without separators is one piece. */
  lemma OnePiece(s: string)
    requires s != [] && NoBreaks(s)
    ensures Segments(s) == [s]
  {
    assert Segment(s) == s;
  }

  predicate PriorityAt(l: string, i: int)
    requires 0 <= i < |l| - 1
  {
    (l[i] == 'P' || l[i] == 'p') && '0' <= l[i + 1] <= '3'
  }

  /** Where l.match(/P[0-3]/i) matches first, searching from position i. */
  function PriorityMatch(l: string, i: nat): (r: Option<nat>)
    decreases |l| - i
    ensures r.Some? ==> i <= r.value < |l| - 1 && PriorityAt(l, r.value)
    ensures r.Some? ==> forall j :: i <= j < r.value ==> !PriorityAt(l, j)
    ensures r.None? ==> forall j :: i <= j < |l| - 1 ==> !PriorityAt(l, j)
  {
    if i + 1 >= |l| then None
    else if PriorityAt(l, i) then Some(i)
    else PriorityMatch(l, i + 1)
  }

  /** The match upper-cased, or P2 when there is none. */
  function PriorityOf(l: string): (p: string)
    ensures p in ["P0", "P1", "P2", "P3"]
    ensures PriorityMatch(l, 0).None? ==> p == "P2"
    ensures PriorityMatch(l, 0).Some? ==> p == ['P', l[PriorityMatch(l, 0).value + 1]]
  {
    match PriorityMatch(l, 0)
    case None => "P2"
    case Some(i) =>
      var d := l[i + 1];
      if d == '0' then "P0" else if d == '1' then "P1" else if d == '2' then "P2" else "P3"
  }

  datatype Scanned = Scanned(title: string, priority: string)

  /** The blank pieces dropped, the rest trimmed and given a priority. */
  function ScanLines(ps: seq<string>): (r: seq<Scanned>)
    ensures |r| <= |ps|
  {
    if ps == [] then []
    else if AllSpace(ps[0]) then ScanLines(ps[1..])
    else [Scanned(Trim(ps[0]), PriorityOf(ps[0]))] + ScanLines(ps[1..])
  }

  /**
   * The fallback of handleScan. A blank note does nothing at all (None);
   * otherwise the scan results are replaced by the parsed lines.
   */
  function FallbackScan(note: string): Option<seq<Scanned>> {
    if Trim(note) == [] then None else Some(ScanLines(Segments(note)))
  }

  /** A line the scan may produce: trimmed, not blank, free of separators, with a valid priority. */
  predicate GoodLine(l: Scanned) {
    && l.title != [] && !IsSpace(l.title[0]) && !IsSpace(l.title[|l.title| - 1])
    && NoBreaks(l.title)
    && l.priority in ["P0", "P1", "P2", "P3"]
  }

  /** Trimming keeps a slice of the piece, so it brings in no separator. */
  lemma TrimKeepsNoBreaks(p: string)
    requires NoBreaks(p)
    ensures NoBreaks(Trim(p))
  {
    var t := Trim(p);
    TrimSlice(p);
    var a, b :| 0 <= a <= b <= |p| && t == p[a..b];
    forall i | 0 <= i < |t| ensures !IsBreak(t[i]) {
      assert t[i] == p[a + i];
    }
  }

  lemma PieceLine(p: string)
    requires !AllSpace(p) && NoBreaks(p)
    ensures GoodLine(Scanned(Trim(p), PriorityOf(p)))
  {
    var t := Trim(p);
    TrimEmptyIffAllSpace(p);
    assert t != [];
    TrimEnds(p);
    assert !IsSpace(t[0]) && !IsSpace(t[|t| - 1]);
    TrimKeepsNoBreaks(p);
    assert NoBreaks(t);
    assert PriorityOf(p) in ["P0", "P1", "P2", "P3"];
  }

  lemma {:induction false} ScanLinesShape(ps: seq<string>)
    requires forall k :: 0 <= k < |ps| ==> NoBreaks(ps[k])
    ensures forall k :: 0 <= k < |ScanLines(ps)| ==> GoodLine(ScanLines(ps)[k])
  {
    if ps != [] {
      NoBreaksTail(ps);
      ScanLinesShape(ps[1..]);
      if !AllSpace(ps[0]) {
        PieceLine(ps[0]);
        GoodCons(Scanned(Trim(ps[0]), PriorityOf(ps[0])), ScanLines(ps[1..]));
      }
    }
  }

  lemma NoBreaksTail(ps: seq<string>)
    requires ps != [] && forall k :: 0 <= k < |ps| ==> NoBreaks(ps[k])
    ensures forall k :: 0 <= k < |ps[1..]| ==> NoBreaks(ps[1..][k])
  {
    forall k | 0 <= k < |ps[1..]| ensures NoBreaks(ps[1..][k]) {
      assert ps[1..][k] == ps[k + 1];
    }
  }

  lemma GoodCons(l: Scanned, tail: seq<Scanned>)
    requires GoodLine(l) && forall k :: 0 <= k < |tail| ==> GoodLine(tail[k])
    ensures forall k :: 0 <= k < |[l] + tail| ==> GoodLine(([l] + tail)[k])
  {
    forall k | 0 < k < |[l] + tail| ensures GoodLine(([l] + tail)[k]) {
      assert ([l] + tail)[k] == tail[k - 1];
    }
  }

  /** The number of lines is the number of pieces that are not blank. */
  lemma {:induction false} ScanLinesCount(ps: seq<string>)
    ensures |ScanLines(ps)| == |Filter(ps, NotBlank)|
  {
    if ps != [] {
      ScanLinesCount(ps[1..]);
    }
  }

  predicate NotBlank(p: string) {
    !AllSpace(p)
  }

  lemma FallbackShape(note: string)
    requires FallbackScan(note).Some?
    ensures forall k :: 0 <= k < |FallbackScan(note).value| ==> GoodLine(FallbackScan(note).value[k])
  {
    ScanLinesShape(Segments(note));
  }
}
