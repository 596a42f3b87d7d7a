# ChampQuest rules in Dafny

ChampQuest is a multi-team task tracker with a game layer: members earn
experience (XP) for completed tasks and daily challenges, climb an eleven-step
rank table, keep a day streak, and see their team on a leaderboard. This
project models the deterministic rules inside its Express routes, its
Telegram bot, its scheduled snapshot job and a few React and legacy-browser
selectors, and proves what those rules promise.

The model is organised as the program is:

- `config.dfy` (`Config`): the priority-to-XP table and the level table with
  `calculateLevel`. `backend/routes/tasks.js:7-28` holds an identical copy of
  these tables, modelled once here.
- `rank_scan.dfy` (`RankScan`): the descending threshold scan that the
  server and both clients use to turn XP into a rank.
- `store.dfy` (`Store`): the database as a class. Users and teams are
  sequences indexed by their serial ids; tasks, challenges and sprints are
  maps with next-id counters; team memberships are a map keyed by (user,
  team); the activity log is an append-only sequence.
- `tasks.dfy`, `challenges.dfy`, `teams.dfy`, `sprints.dfy`,
  `analytics.dfy`, `snapshots.dfy`, `collab.dfy`, `incoming.dfy`,
  `webhooks.dfy`, `telegram.dfy`: one module per route file or job. Each
  handler is a method on the store, stated against a pure function of the
  old state, and the lemmas beside it state what the rule guarantees:
  - XP, streak and today-XP arithmetic;
  - the level-up decision;
  - the sole-admin guard;
  - the daily challenge rotation;
  - idempotent sprint membership;
  - the similarity scores and the top-3 selection.
- `sql.dfy` (`Sql`): the `SET col = $n` builder loop shared by the PATCH
  routes.
- `calendar.dfy` (`Calendar`): civil dates as day numbers, with week and
  month bounds.
- `themes_react.dfy`, `themes_legacy.dfy`, `left_panel.dfy`,
  `center_panel.dfy`, `task_dependencies.dfy`, `client.dfy`, `sorting.dfy`:
  the client-side selectors, the rank tables of both clients and the stable
  sort they rely on.
- `text.dfy` and `wrappers.dfy`: ASCII string helpers and `Option`.

Dates are day numbers and instants are milliseconds. The clock is always a
parameter: `today`, `now` and the day of the year are passed in.

## Model

| member | source | states |
|---|---|---|
| Calendar.WeekBounds | backend/routes/analytics.js:7-17 | start..end is the Monday-00:00:00.000-to-Sunday-23:59:59.999 week that holds the instant; a Sunday goes back six days, any other day back to its Monday |
| Calendar.WeekOfUnique | backend/routes/analytics.js:7-17 | only one such week holds a given instant, so the bounds are determined by the instant |
| Calendar.DaysInMonth | backend/routes/analytics.js:22 | a month has 28 to 31 days, and February has 29 exactly in a leap year |
| Calendar.DaysInYear | backend/routes/analytics.js:22 | the twelve months add up to 366 days in a leap year and 365 otherwise |
| Calendar.DayZero | backend/routes/analytics.js:22 | `new Date(y, m + 1, 0)` is the last day of month m |
| Calendar.MonthBounds | backend/routes/analytics.js:19-25 | start is midnight of the 1st and end the last millisecond of the month's last day; the span is the month's length in days; a valid date lies inside |
| Calendar.MonthsAdjoin | backend/routes/analytics.js:19-25 | the next month starts one millisecond after this month's end |
| Calendar.CalendarExamples | backend/routes/analytics.js:9-10 | the Gregorian leap rule on 2000, 1900, 2024 and 2023; February's lengths; 1970-01-01 is a Thursday, 2024-01-01 a Monday and 2024-01-07 a Sunday |
| Analytics.MemberRows | backend/routes/analytics.js:32-42 | one row per member of the team, each a user of the team, and every member of the team has a row |
| Analytics.RankedOrder | backend/routes/analytics.js:40-44 | the leaderboard order (xp descending, then the stable sort on the period count) is ordered on period count and then xp, is a permutation of the rows and keeps both totals |
| Analytics.MvpIsBest | backend/routes/analytics.js:44-45 | the MVP is absent exactly for a team without members; otherwise it is one of them, and nobody has a higher period count, or the same count and more xp |
| Analytics.Standings | backend/routes/analytics.js:51-60 | the response keeps the sorted order and numbers the members from rank 1 |
| Analytics.StandingsOrdered | backend/routes/analytics.js:51-60 | ranks strictly increase down the list, and a better rank never has fewer period tasks |
| Analytics.WeeklyBoard | backend/routes/analytics.js:28-68 | the period is the week holding now; members are the ranked rows numbered from 1; the MVP is the first ranked row |
| Analytics.MonthlyBoard | backend/routes/analytics.js:71-111 | the same over the calendar month of today |
| Analytics.PeriodBounds | backend/routes/analytics.js:158 | weekly takes the week holding now, monthly the month of today, both read from one clock; either way the period holds now |
| Analytics.BuildSnapshot | backend/routes/analytics.js:158-190 | the snapshot is the team's, of the requested kind, over the week of now or the month of today (one clock reading), which holds now, and built from the ranked member rows |
| Analytics.InsertSnapshot | backend/routes/analytics.js:192-197 | the plain INSERT: a row whose team, period and start are taken fails with 500 and writes nothing; otherwise the row is appended; snapshot keys stay unique |
| Analytics.TakenIffConflicts | backend/routes/analytics.js:158-197 | the row built for the period holding now collides with a stored one exactly when that team's snapshot of the same kind for the same period is stored |
| Analytics.AppendKeepsKeysUnique | backend/routes/analytics.js:192-197 | appending a snapshot with an unused key keeps every key unique |
| Analytics.TakeSnapshot | backend/routes/analytics.js:141-206 | a period other than weekly/monthly gives 400 before the role is checked; a non-admin gets 403; the INSERT fails with 500 exactly when a snapshot for the same team, period kind and period start is stored; a failure writes nothing; snapshot keys stay unique; a success appends exactly one snapshot, for the team and period, over that period's bounds (which hold now), built from the ranked rows |
| Analytics.SnapshotTotals | backend/routes/analytics.js:183-196 | totals are the sums of period tasks and xp and the team size, whatever the order; an empty team has no MVP and 0 MVP tasks; otherwise the MVP tasks are the top row's count |
| Analytics.FeedLimit | backend/routes/analytics.js:211 | a missing, unparseable or zero limit reads 20; any other parsed value is used as is |
| Analytics.TeamLog | backend/routes/analytics.js:226 | an entry is kept exactly when it belongs to the team |
| Analytics.Feed | backend/routes/analytics.js:209-243 | a non-member gets 403; a negative limit fails the query (500); otherwise the answer is the team's newest entries, at most limit of them |
| Analytics.FeedContents | backend/routes/analytics.js:222-230 | the feed has at most n entries, all from the team's log, and starts with the newest entry when n > 0 |
| CenterPanel.FilteredIsOneFilter | frontend-react/src/components/layout/CenterPanel.jsx:58-77 | the search, priority and status filters applied in turn are one filter by the conjunction of their tests |
| CenterPanel.FilteredMeaning | frontend-react/src/components/layout/CenterPanel.jsx:58-77 | the filtered list is an order-preserving subsequence of the tasks, and a task is listed exactly when it matches the lower-cased query in title, category or assignee name (when there is a query), has the chosen priority (unless ALL), is blocked (BLOCKED) or overdue and not done (OVERDUE) |
| CenterPanel.UnfilteredShowsAll | frontend-react/src/components/layout/CenterPanel.jsx:59-76 | with no query and both menus on ALL every task is listed, in order |
| CenterPanel.CountsAddUp | frontend-react/src/components/layout/CenterPanel.jsx:190-191 | the active and completed counts add up to the number of tasks |
| CenterPanel.Segment | frontend-react/src/components/layout/CenterPanel.jsx:127 | the piece is the longest prefix free of '.' and newline |
| CenterPanel.Segments | frontend-react/src/components/layout/CenterPanel.jsx:127 | `split(/[.\n]+/)` minus its empty pieces: every piece is non-empty and free of separators |
| CenterPanel.SegmentsLoseOnlyBreaks | frontend-react/src/components/layout/CenterPanel.jsx:127 | the pieces put back together are the note with its separators removed, so no other character is lost |
| CenterPanel.OnePiece | frontend-react/src/components/layout/CenterPanel.jsx:127 | a note without separators is a single piece |
| CenterPanel.PriorityMatch | frontend-react/src/components/layout/CenterPanel.jsx:130 | the first position where `P[0-3]` matches case-insensitively, or none when no position matches |
| CenterPanel.PriorityOf | frontend-react/src/components/layout/CenterPanel.jsx:130 | the first match upper-cased, or P2 without a match; always one of P0..P3 |
| CenterPanel.ScanLinesCount | frontend-react/src/components/layout/CenterPanel.jsx:127-131 | one line per piece that is not blank |
| CenterPanel.PieceLine | frontend-react/src/components/layout/CenterPanel.jsx:128-131 | a piece that is not blank gives a trimmed, non-empty title without separators and a valid priority |
| CenterPanel.ScanLinesShape | frontend-react/src/components/layout/CenterPanel.jsx:127-131 | every line scanned from separator-free pieces is such a line |
| CenterPanel.FallbackShape | frontend-react/src/components/layout/CenterPanel.jsx:119-131 | a note that is not blank yields only trimmed, non-blank, separator-free titles with a valid priority |
| ChallengeRoutes.Select | backend/routes/challenges.js:24-43 | the rows a WHERE clause keeps: every row returned is in the store and in scope, and every row in scope is returned |
| ChallengeRoutes.SelectAscending | backend/routes/challenges.js:36-42 | with ids scanned in increasing order the selection is ordered by id, as `ORDER BY c.id` asks |
| ChallengeRoutes.TypeKeyFollowsSqlOrder | backend/routes/challenges.js:30 | the sort key used for `ORDER BY c.type` ranks the three admitted types exactly as string comparison does, in both directions, and puts a NULL type after each of them, as an ascending ORDER BY does |
| ChallengeRoutes.TypeOrder | backend/routes/challenges.js:30 | social sorts before streak and task, and streak sorts before task |
| ChallengeRoutes.TeamPartFacts | backend/routes/challenges.js:24-33 | the team part is a permutation of the team's challenges whose active column is true (NULL excluded), sorted by type and then by creation order, holding exactly those challenges |
| ChallengeRoutes.Rotation | backend/routes/challenges.js:52-55 | the rotation of k entries has length k |
| ChallengeRoutes.SmallMod | backend/routes/challenges.js:54 | below 2n the remainder modulo n is the number itself or n less |
| ChallengeRoutes.ModDistinct | backend/routes/challenges.js:54 | distinct offsets below n from a start below n land on distinct positions modulo n |
| ChallengeRoutes.RotationDistinct | backend/routes/challenges.js:52-55 | a rotation of at most n entries over a pool of distinct entries repeats none and draws only from the pool |
| ChallengeRoutes.DailyGlobals | backend/routes/challenges.js:46-56 | the loop returns min(3, n) entries, and for a non-empty pool they are the rotation starting at dayOfYear mod n |
| ChallengeRoutes.Daily | backend/routes/challenges.js:49-56 | the daily selection has min(3, n) entries, none from an empty pool |
| ChallengeRoutes.DailyFacts | backend/routes/challenges.js:36-56 | the daily globals are min(3, n) pairwise distinct, active, global challenges from the pool |
| ChallengeRoutes.Shown | backend/routes/challenges.js:25-70 | one listed row per entry, in order, flagged completed today exactly when the user has a completion of it dated today |
| ChallengeRoutes.List | backend/routes/challenges.js:16-70 | a non-member gets 403 and only a non-member; otherwise the reply is the team part followed by the daily globals, each with its completed-today flag |
| ChallengeRoutes.NormaliseType | backend/routes/challenges.js:115-116 | the stored type is always admitted: the requested type when it is task, social or streak, else task |
| ChallengeRoutes.RewardOr20 | backend/routes/challenges.js:121 | `xpReward \|\| 20`: a missing or zero reward becomes 20, any other reward is kept, and the result is never zero |
| ChallengeRoutes.NewChallenge | backend/routes/challenges.js:118-122 | the inserted row carries the team, the title, the creator, the normalised type, the reward or 20, and the description or NULL when it is empty (`description \|\| null`); it is active and not global |
| ChallengeRoutes.Create | backend/routes/challenges.js:102-131 | a non-admin gets 403, an empty title 400, and neither changes the store; otherwise the new challenge gets a fresh id and is added with nothing else changed |
| ChallengeRoutes.PatchFieldsEmpty | backend/routes/challenges.js:146-156 | the SET list is empty exactly when no field was sent |
| ChallengeRoutes.BuildUpdate | backend/routes/challenges.js:144-161 | the builder emits one numbered `column = $k` item per sent field in the route's order, with values aligned and id and team id bound last |
| ChallengeRoutes.ApplyPatch | backend/routes/challenges.js:146-161 | each sent field takes its new value, an explicit null storing NULL in type, active, description and xp_reward; each unsent one keeps its old value; team, global flag and creator never change |
| ChallengeRoutes.PatchFieldsInOrder | backend/routes/challenges.js:146-150 | running the concatenated SET list equals running its parts one after another |
| ChallengeRoutes.PatchFieldsMeaning | backend/routes/challenges.js:146-161 | running the emitted SET list on the row yields exactly the patched challenge |
| ChallengeRoutes.Patch | backend/routes/challenges.js:135-169 | 403 for a non-admin, 400 with no fields, 404 for a challenge outside the team, 500 for an explicit null title (NOT NULL), else 500 for a type the CHECK constraint refuses, each leaving the store alone; success exactly otherwise, and then only that challenge changes, to the patched row, a null type or active stored as NULL |
| ChallengeRoutes.DropChallenge | backend/routes/challenges.js:181 | ON DELETE CASCADE keeps exactly the completions of other challenges |
| ChallengeRoutes.Delete | backend/routes/challenges.js:172-182 | a non-admin gets 403 and nothing changes; an admin always gets success, and a challenge of the team is removed together with its completions |
| ChallengeRoutes.ApplyReward | backend/routes/challenges.js:217-220 | XP grows by the reward, today's XP grows by it on the same day and restarts at it otherwise, the last-completed day becomes today, and streak, task count and role stay |
| ChallengeRoutes.RewardIsCompletionWithoutStreak | backend/routes/challenges.js:217-220 | a challenge reward updates the member row as a task completion would, except for the streak and the task counter |
| ChallengeRoutes.RewardKeepsStatsSound | backend/routes/challenges.js:217-220 | a non-negative reward keeps the member statistics invariant |
| ChallengeRoutes.Complete | backend/routes/challenges.js:185-224 | 403 for a non-member, 400 when already completed today, 404 for an unknown challenge, none of them changing anything; otherwise one completion is appended and the member row is rewarded with the reward or 20 |
| Collab.Collapse | backend/routes/collab.js:14-15 | collapsing white-space runs yields the empty string only from the empty string, and starts with a blank exactly where the input starts with white space |
| Collab.CollapseSingleBlanks | backend/routes/collab.js:14-15 | after `replace(/\s+/g, ' ')` blanks are the only white space and never come two in a row |
| Collab.SliceSingleBlanks | backend/routes/collab.js:14-15 | any slice of a string with single blanks has single blanks |
| Collab.NormalisedShape | backend/routes/collab.js:14-15 | a normalised title has no white space at either end and single blanks between words |
| Collab.Min3 | backend/routes/collab.js:25 | `Math.min` of three values is one of them and at most each |
| Collab.DistBound | backend/routes/collab.js:18-28 | the edit distance of two prefixes never exceeds the longer prefix's length |
| Collab.DistZero | backend/routes/collab.js:18-28 | the edit distance is zero exactly when the two prefixes are equal |
| Collab.FillRow | backend/routes/collab.js:22-26 | after the inner loop row i of the table holds the edit distances of the i-character prefix, and no other row changes |
| Collab.EditDistance | backend/routes/collab.js:17-28 | the dynamic-programming table yields the edit distance of the two strings |
| Collab.LevenshteinSimilarity | backend/routes/collab.js:13-30 | the loop-based similarity equals its specification: 1 for equal normalised titles, else one minus distance over the longer length |
| Collab.DistRatio | backend/routes/collab.js:28-29 | for different strings the longer length is positive and the distance over it lies in (0, 1] |
| Collab.LevSimilarityRange | backend/routes/collab.js:13-30 | the similarity lies in [0, 1] and is 1 exactly when the normalised titles agree |
| Collab.SameAfterNormalising | backend/routes/collab.js:14-16 | titles that differ only in case and white space, and two empty titles, score 1 |
| Collab.StripPunct | backend/routes/collab.js:34-35 | `replace(/[^\w\s]/g, '')` keeps only word characters and white space, each taken from the input |
| Collab.Run | backend/routes/collab.js:34-35 | one word is the longest white-space-free prefix |
| Collab.Pieces | backend/routes/collab.js:34-35 | the pieces of `split(/\s+/)` are non-empty and free of white space, made of the input's characters |
| Collab.LowerIsLower | backend/routes/collab.js:34 | a lower-cased string has no upper-case ASCII letter |
| Collab.Words | backend/routes/collab.js:34-35 | every word of the set is lower-case word characters and longer than two characters |
| Collab.JaccardRange | backend/routes/collab.js:36-38 | the Jaccard index lies in [0, 1], is symmetric, is 0 for an empty union or disjoint sets, and 1 for equal non-empty sets |
| Collab.WordOverlapRange | backend/routes/collab.js:33-39 | the word overlap lies in [0, 1], is symmetric, is 0 when neither title has a word and 1 for equal non-empty word sets |
| Collab.CombinedRange | backend/routes/collab.js:42-46 | the combined score lies in [0, 1], is 1 for titles equal after normalising with equal non-empty word sets, and at least 0.4 for titles equal after normalising |
| Collab.Passing | backend/routes/collab.js:106 | a match survives the threshold filter exactly when it is a candidate scoring at least 0.35 |
| Collab.SelectBounded | backend/routes/collab.js:106-108 | at most three matches are kept, each scoring at least 0.35 and drawn from the scored candidates |
| Collab.SelectSorted | backend/routes/collab.js:107 | the kept matches are in descending score order |
| Collab.SelectBest | backend/routes/collab.js:106-108 | no passing candidate that was dropped scores higher than a kept one |
| Collab.RoundMonotone | backend/routes/collab.js:119 | `Math.round` never reverses the order of two scores |
| Collab.PercentRange | backend/routes/collab.js:119 | a passing score in [0.35, 1] is shown as a whole percentage from 35 to 100 |
| Collab.TeamLabel | backend/routes/collab.js:103 | for a non-negative id the label is "Team " followed by exactly three digits |
| Collab.Candidates | backend/routes/collab.js:76-88 | every returned row is an open task of another collaborating team, and every such row is returned |
| Collab.CandidatesNewestFirst | backend/routes/collab.js:85 | rows scanned oldest first give candidates newest first (`ORDER BY t.created_at DESC`) |
| Collab.SimilarCandidates | backend/routes/collab.js:76-90 | the route's candidates are at most 500, newest first, and each is a real task of the store that qualifies as a candidate |
| Collab.CandidatesAreTasks | backend/routes/collab.js:76-88 | each candidate row is the task the store holds under its id |
| Collab.ResponseBounded | backend/routes/collab.js:91-121 | with collaboration on, the reply shows at most three matches, each with a percentage from 35 to 100 |
| Collab.ResponseOrdered | backend/routes/collab.js:107-120 | the shown percentages never increase along the list |
| Collab.ResponseFromCandidates | backend/routes/collab.js:94-120 | every shown match carries the title of an open task of another collaborating team |
| Collab.SimilarTasks | backend/routes/collab.js:55-122 | 400 when the task id is missing or empty (an id of 0 is looked up and gets 404), 404 when the task is missing or the user is not in its team, a disabled reply when the team has collaboration off, else the response over the newest 500 candidates |
| Collab.Settings | backend/routes/collab.js:128-141 | 400 without a team id, 403 for a non-member and for a non-admin, none changing the teams; otherwise only the team's flag is set to the requested value, and the store stays valid |
| Collab.SettingsControlsRoute | backend/routes/collab.js:70-82 | after the update the similarity route is on for that team exactly when the flag was set on, and unchanged for every other team |
| Config.XpValue | backend/config.js:6 | a priority earns XP exactly when it is P0..P3, and the amount is one of the table's four values |
| Config.XpValueTable | backend/config.js:6 | P0 earns 50, P1 30, P2 20 and P3 10 |
| Config.Thresholds | backend/config.js:8-20 | the thresholds are the table's xp column, entry by entry |
| Config.CalculateLevel | backend/config.js:22-27 | the downward loop returns the table entry with the largest threshold at or below xp, and the first entry when xp is below every threshold |
| Config.LevelsAscending | backend/config.js:8-20 | the table runs from level 1 at 0 XP to level 100 at 75000 XP, with thresholds and levels both strictly ascending |
| Config.LevelForIsGreatest | backend/config.js:22-27 | the level entry is in the table, its threshold is at or below a non-negative xp and no entry at or below xp has a higher threshold |
| Config.LevelMonotone | backend/config.js:22-27 | more experience never gives a lower level |
| Config.LevelSaturates | backend/config.js:19-27 | every xp of 75000 or more is level 100 |
| Config.LevelExamples | backend/config.js:9-19 | 0 and 149 XP are level 1, 150 XP is level 3, 75000 and 100000 XP are level 100 |
| IncomingWebhook.TeamByToken | backend/routes/webhooks-incoming.js:12-23 | the team found is the first whose enabled incoming webhook has the token, and there is none exactly when no team accepts it |
| IncomingWebhook.TeamByTokenFrom | backend/routes/webhooks-incoming.js:12-23 | the same search from a given team id on |
| IncomingWebhook.NormalisePriority | backend/routes/webhooks-incoming.js:35-36 | the stored priority is always one of P0..P3: the requested one when valid, else P2 |
| IncomingWebhook.NormalisePriorityIdempotent | backend/routes/webhooks-incoming.js:35-36 | normalising twice is normalising once |
| IncomingWebhook.Assignee | backend/routes/webhooks-incoming.js:38-50 | no assignee without a name; an assignee is a team member whose display name equals the name ignoring case; none is found only when no member's name matches |
| IncomingWebhook.IncomingTask | backend/routes/webhooks-incoming.js:53-58 | the inserted task belongs to the team, has the title, the normalised priority, status todo, is open, is assigned to and created by the resolved assignee, has no category when none was given, no completion, and its status_updated_at is the insert time (the column default) |
| IncomingWebhook.Receive | backend/routes/webhooks-incoming.js:8-76 | 401 for an unknown or disabled token, 400 for another action or an empty title, none changing the store; otherwise one task is inserted under a fresh id, the log gains one entry unless its insert fails, and the reply is the new task's id, title, priority and status |
| LeftPanel.XpOrZero | frontend-react/src/components/layout/LeftPanel.jsx:21 | `xp \|\| 0`: a missing experience value is zero, a present one is kept |
| LeftPanel.FirstWithUser | frontend-react/src/components/layout/LeftPanel.jsx:20 | `find` returns the first member with the user id, or none when no member from there on has it |
| LeftPanel.MemberXp | frontend-react/src/components/layout/LeftPanel.jsx:20-21 | zero outside a team, without a user or when the user is not listed; a non-zero value is the experience of a listed row for the user |
| LeftPanel.IndexOfName | frontend-react/src/components/layout/LeftPanel.jsx:27 | `findIndex` returns the first rank with the name, or -1 when none has it |
| LeftPanel.ProgressOf | frontend-react/src/components/layout/LeftPanel.jsx:26-31 | at the top rank the band is one point wide and the bar full; below it the band is positive and the bar at most 100% |
| LeftPanel.ProgressMeaning | frontend-react/src/components/layout/LeftPanel.jsx:22-31 | there is a next rank exactly below the top band, it is the entry above the member's band, the band width is the difference of their thresholds, and inside a band the earned part is below the width and the bar is partly filled, never full |
| LeftPanel.DisplayLevel | frontend-react/src/components/layout/LeftPanel.jsx:42 | `rank.level \|\| 1`: a zero level is shown as 1, any other level as itself |
| LeftPanel.ShownLevelIsServerLevel | frontend-react/src/components/layout/LeftPanel.jsx:22-42 | in every theme the level shown for an experience equals the server's calculated level for it |
| LeftPanel.ThemeTablesFitTheBar | frontend-react/src/components/layout/LeftPanel.jsx:26-31 | every theme's rank table is non-empty, strictly ascending and has distinct names, so the bar's name lookup finds the current rank |
| LeftPanel.LeaderboardFacts | frontend-react/src/components/layout/LeftPanel.jsx:45-47 | the leaderboard holds min(5, n) team members, highest experience first; nobody left out has more experience than anyone shown; a team of five or fewer is shown whole |
| LeftPanel.TiesKeepTeamOrder | frontend-react/src/components/layout/LeftPanel.jsx:45-46 | the sort is stable: members with equal experience keep the team list's order |
| LeftPanel.RecentActivity | frontend-react/src/components/layout/LeftPanel.jsx:50 | the first min(5, n) activity entries in order, and none without a feed |
| RankScan.ScanDown | backend/config.js:22-27 | the scan over the first n thresholds stops at the last one at or below x, falls back to 0 when none is, and every later threshold is above x |
| RankScan.Scan | backend/config.js:22-27 | the downward loop with its fall-back to 0 computes that index |
| RankScan.ScanMonotone | backend/config.js:22-27 | a larger value never selects a lower entry |
| RankScan.CrossedIff | backend/config.js:22-27 | on strictly ascending thresholds the selected entry rises between x1 and x2 exactly when a threshold lies in (x1, x2] |
| RankScan.BandOf | backend/config.js:22-27 | on strictly ascending thresholds the scan picks exactly the band containing x |
| SnapshotJob.InsertOrSkip | backend/jobs/snapshots.js:58-63 | `ON CONFLICT DO NOTHING`: a row whose team and week are already stored is skipped, any other is appended |
| SnapshotJob.Generate | backend/jobs/snapshots.js:16-77 | the job takes this week's Monday-to-Sunday bounds and stores what the per-team loop over all teams yields |
| SnapshotJob.RunJob | backend/jobs/snapshots.js:24-71 | the loop over teams 1..n, where a failing team's insert is skipped, leaves the snapshots its specification gives |
| SnapshotJob.JobKeepsExisting | backend/jobs/snapshots.js:58-63 | rows stored before the job stay exactly as they were, at the front |
| SnapshotJob.JobAddsOnlyHealthy | backend/jobs/snapshots.js:24-71 | every new row is the snapshot of a team that did not fail |
| SnapshotJob.JobCoversHealthy | backend/jobs/snapshots.js:24-71 | a failing team costs no other team its row: every healthy team ends up with a row for the week |
| SnapshotJob.JobKeepsKeysUnique | backend/jobs/snapshots.js:58-63 | the job never stores a second snapshot for one team and week |
| StableSort.Insert | frontend-react/src/components/layout/LeftPanel.jsx:45-46 | one insertion step of the sort adds exactly the new element to the elements already placed |
| StableSort.InsertSorted | frontend-react/src/components/layout/LeftPanel.jsx:45-46 | an insertion step keeps a descending sequence descending |
| StableSort.SortDesc | frontend-react/src/components/layout/LeftPanel.jsx:45-46 | `sort((a, b) => key(b) - key(a))` returns a permutation of its input in descending key order |
| StableSort.SortDescStable | backend/routes/analytics.js:44 | the sort is stable: the elements sharing any one key keep their input order |
| StableSort.SortDescLex | backend/routes/analytics.js:32-44 | re-sorting rows already ordered on a second key by a first key leaves them ordered on the first key and, among ties, on the second |
| StableSort.Take | frontend-react/src/components/layout/LeftPanel.jsx:47 | `slice(0, n)` returns the first min(n, length) elements |
| StableSort.TopOf | frontend-react/src/components/layout/LeftPanel.jsx:45-47 | the first n of the sorted sequence are in descending order, drawn from the input, and are all of it when it is short |
| StableSort.TopIsBest | frontend-react/src/components/layout/LeftPanel.jsx:45-47 | nothing left out of the first n of the sorted sequence has a higher key than one kept |
| StableSort.SumSortDesc | backend/jobs/snapshots.js:49-50 | a sum over the rows does not depend on the order the sort put them in |
| SprintRoutes.NewSprint | backend/routes/sprints.js:54-58 | the inserted sprint carries the team, creator, name and dates as sent, the goals or an empty list, and no status |
| SprintRoutes.Create | backend/routes/sprints.js:38-68 | a non-admin gets 403 and a missing name or date 400, neither changing the sprints; otherwise the sprint is added under a fresh id and returned |
| SprintRoutes.PatchFieldsEmpty | backend/routes/sprints.js:133-139 | the SET list is empty exactly when name and status are empty and no goals were sent |
| SprintRoutes.BuildUpdate | backend/routes/sprints.js:129-145 | the builder emits one numbered `column = $k` item per truthy field in the route's order, with values aligned and sprint id and team id bound last |
| SprintRoutes.ApplyPatch | backend/routes/sprints.js:133-145 | each truthy field takes its new value, the other columns keep theirs, and team, dates and creator never change |
| SprintRoutes.PatchFieldsMeaning | backend/routes/sprints.js:133-145 | running the emitted SET list on the row yields exactly the patched sprint |
| SprintRoutes.Patch | backend/routes/sprints.js:117-152 | 403 for a non-admin, 400 with nothing to update, 404 for a sprint outside the team, none changing the sprints; otherwise only that sprint changes and the reply is its new row |
| SprintRoutes.AddTask | backend/routes/sprints.js:155-175 | 400 without a task id and 404 for a task outside the team, neither changing anything; otherwise the pair is in the set afterwards and nothing else is added |
| SprintRoutes.RemoveTask | backend/routes/sprints.js:178-184 | the pair is absent afterwards and nothing else is removed; it always succeeds |
| SprintRoutes.AddIdempotent | backend/routes/sprints.js:169-172 | adding a pair twice is adding it once, and adding a present pair changes nothing |
| SprintRoutes.RemoveIdempotent | backend/routes/sprints.js:181 | removing twice is removing once, and removing an absent pair changes nothing |
| SprintRoutes.RemoveUndoesAdd | backend/routes/sprints.js:169-181 | removing a pair right after adding it restores a set that lacked it |
| SprintRoutes.SprintRows | backend/routes/sprints.js:13 | task_count counts exactly the sprint's rows |
| SprintRoutes.DoneRows | backend/routes/sprints.js:14-15 | completed_count counts exactly the sprint's rows whose task exists and is done |
| SprintRoutes.CompletedAtMostTasks | backend/routes/sprints.js:13-15 | the completed count never exceeds the task count, and they agree exactly when every task of the sprint exists and is done |
| Sql.AddField | backend/routes/challenges.js:146-150 | one field test appends its `column = $idx` item and its value when the field is given, keeping items, values and the next placeholder in step |
| Sql.Finish | backend/routes/challenges.js:158-161 | after the field values come the id and team id, which the WHERE clause's two placeholders bind |
| Sql.RunSetAppend | backend/routes/challenges.js:160 | running a concatenated SET list runs its two parts one after the other |
| Sql.RunSetOpt | backend/routes/challenges.js:146-150 | a field item changes the row exactly when the field was given |
| Store.NewMembership | backend/routes/teams.js:92-96 | a fresh member row has the given role and all statistics zero, with no completion date |
| Store.IdsBelow | backend/routes/challenges.js:36-42 | the SERIAL keys below n, each once, in ascending order |
| Store.RowsBelow | backend/routes/collab.js:76-88 | the task rows with ids below n, each under its own id, in ascending id order |
| Store.FindMemberByName | backend/routes/webhooks-incoming.js:41-49 | the first team member, by id, whose display name equals the name ignoring case |
| Store.MembersOf | backend/routes/analytics.js:32-41 | the team's member ids, each once, in ascending order |
| Store.Store.AddTask | backend/routes/tasks.js:111-116 | the insert gives the row the next SERIAL id, which no task holds, and advances the counter |
| TaskDependencies.Ids | frontend/src/components/tasks/TaskDependencies.jsx:71-72 | the id set holds exactly the ids of the listed links |
| TaskDependencies.LinkedIds | frontend/src/components/tasks/TaskDependencies.jsx:69-73 | the excluded ids are exactly the task itself and every task linked to it in either direction |
| TaskDependencies.LinkableMeaning | frontend/src/components/tasks/TaskDependencies.jsx:69-74 | the picker offers, in task-list order, exactly the listed tasks that are not the task itself, not linked either way and not completed |
| TaskDependencies.NothingLinkedOffersOpenTasks | frontend/src/components/tasks/TaskDependencies.jsx:74 | with no links, a list of open tasks other than the task itself is offered whole |
| TaskDependencies.ShapeOf | frontend/src/components/tasks/TaskDependencies.jsx:76-96 | nothing is drawn exactly while loading, and the collapsed link button exactly when loaded with no links and the picker closed |
| TaskDependencies.MessageOr | frontend/src/components/tasks/TaskDependencies.jsx:55-64 | `e.message \|\| fallback`: the message when it is non-empty, else the fallback |
| TaskDependencies.AddDependency | frontend/src/components/tasks/TaskDependencies.jsx:46-57 | without a selection nothing happens; with one the link request for it is sent; success closes the picker, empties the selection, clears the error and reloads; failure shows a non-empty error and keeps the rest |
| TaskDependencies.RemoveDependency | frontend/src/components/tasks/TaskDependencies.jsx:59-66 | no add request; success reloads and changes nothing else; failure only sets the error message or its fallback |
| TaskDependencies.LoadDeps | frontend/src/components/tasks/TaskDependencies.jsx:31-42 | without a task id or team nothing changes; otherwise loading stops, the links become what was fetched or stay when the fetch failed, and the rest is kept |
| TaskDependencies.AddedTaskLeavesPicker | frontend/src/components/tasks/TaskDependencies.jsx:46-74 | after a successful add and a reload that lists the new link, the picker is closed, the selection is empty, and the linked task is no longer offered |
| TaskRoutes.Earned | backend/routes/tasks.js:163 | `XP_VALUES[priority] \|\| 20`: the table's value for P0..P3, 20 for anything else, so always one of 10, 20, 30, 50 |
| TaskRoutes.ApplyCompletion | backend/routes/tasks.js:177-191 | XP grows by the award and the task count by one; the streak grows after a completion yesterday, stays after one today and restarts at 1 otherwise; today's XP accumulates on the same day and restarts otherwise; the role is kept |
| TaskRoutes.CompletionKeepsStatsSound | backend/routes/tasks.js:184-191 | a non-negative award keeps today's XP part of the total and the counters non-negative |
| TaskRoutes.ConsecutiveDaysStreak | backend/routes/tasks.js:177-191 | completing on k consecutive days gives a streak of k, or k more when the day before also had a completion, and adds k awards |
| TaskRoutes.SameDayCompletions | backend/routes/tasks.js:181-185 | a second completion on the same day keeps the streak and adds to today's XP |
| TaskRoutes.LevelUpIffThresholdCrossed | backend/routes/tasks.js:193-195 | a completion levels up exactly when the new total reaches a level threshold the old total was below |
| TaskRoutes.CompletionEntries | backend/routes/tasks.js:197-209 | one task_completed entry with the award, followed by a level_up entry with the new level and rank exactly when the level rose |
| TaskRoutes.MarkCompleted | backend/routes/tasks.js:166-169 | only completed, completed_by and completed_at change, to true, the user and now; status is untouched |
| TaskRoutes.ClearCompletion | backend/routes/tasks.js:231-234 | only the three completion fields change, cleared; status is untouched |
| TaskRoutes.UncompleteUndoesComplete | backend/routes/tasks.js:231-234 | uncompleting a freshly completed open task restores it exactly |
| TaskRoutes.OrNull | backend/routes/tasks.js:116 | `x \|\| null` on an id: present exactly when given and non-zero, and then unchanged |
| TaskRoutes.OrDefault | backend/routes/tasks.js:116 | `priority \|\| 'P2'`: the value when non-empty, else the default |
| TaskRoutes.CreatedTask | backend/routes/tasks.js:111-116 | the inserted task belongs to the team, has the title, the priority or P2, the creator, the assignee or none, the category or none when it is empty, the due date, is open with status todo, no completion and no blocker, and its status_updated_at is the insert time (the column default) |
| TaskRoutes.TextOrNull | backend/routes/tasks.js:116 | `category \|\| null`: present exactly when given and non-empty, and then unchanged |
| TaskRoutes.Create | backend/routes/tasks.js:98-142 | 403 for a non-member, 400 for an empty title, neither changing the store; otherwise the task is added under a fresh id and one task_created entry is logged |
| TaskRoutes.Outcome | backend/routes/tasks.js:211-219 | the reply reports the award, the new total, whether the level rose, the new level and rank, and the new streak |
| TaskRoutes.Complete | backend/routes/tasks.js:145-220 | 403 for a non-member, 404 for a task outside the team, 400 for a completed task, none changing anything; otherwise the task is marked completed, the member row is updated as ApplyCompletion says and one or two entries are logged |
| TaskRoutes.Uncomplete | backend/routes/tasks.js:223-237 | 403 for a non-member; any member gets success, the team's task has its completion cleared, and member rows and the log are never touched, so XP is not taken back |
| TaskRoutes.Delete | backend/routes/tasks.js:240-267 | 403 for a non-member, 404 for a task outside the team, 403 unless creator or admin, none changing anything; otherwise the task is removed and a task_deleted entry logged |
| TaskRoutes.Assign | backend/routes/tasks.js:270-307 | the same three refusals; otherwise only the assignee changes, to the given id or none, a task_assigned entry is logged, and a name is returned exactly when the assignee is a known user |
| TeamRoutes.HexDigit | backend/routes/teams.js:8-10 | a digit below 16 is written as 0-9 or upper-case A-F |
| TeamRoutes.TeamCode | backend/routes/teams.js:8-10 | the code of three random bytes is six upper-case hexadecimal characters |
| TeamRoutes.HexRoundTrip | backend/routes/teams.js:8-10 | reading a written hexadecimal digit gives the digit back |
| TeamRoutes.TeamCodeRoundTrip | backend/routes/teams.js:8-10 | the code gives back the three bytes it was made from, so distinct draws give distinct codes |
| TeamRoutes.Create | backend/routes/teams.js:37-72 | 400 for an empty name, 403 for a non-superadmin and 500 when the drawn code is already a team's (the code column is unique and the INSERT is not retried), none changing anything; otherwise the team is appended with the generated code, which then finds exactly it, and its creator becomes its admin, so it has at least one admin; codes stay unique |
| TeamRoutes.JoinKeepsAdminCount | backend/routes/teams.js:92-96 | adding a fresh member row leaves the team's admin count unchanged |
| TeamRoutes.Join | backend/routes/teams.js:75-105 | 404 when id and code do not match, 400 for a member, neither changing anything; otherwise the user joins as a member, a team_joined entry is logged, and the admin count is unchanged |
| TeamRoutes.TeamByCode | backend/routes/teams.js:111 | the first team, by id, with the code, and none exactly when no team has it |
| TeamRoutes.TeamByCodeFrom | backend/routes/teams.js:111 | the same search from a given team id on |
| TeamRoutes.JoinCode | backend/routes/teams.js:108-131 | 404 for an unknown code, 400 for a member, neither changing anything; otherwise the user joins that team as a member without a log entry, and no team's admin count changes |
| TeamRoutes.CountAdminsSet | backend/routes/teams.js:196-199 | replacing one member row changes the admin count by that row's own contribution |
| TeamRoutes.CountAdminsRemove | backend/routes/teams.js:236 | deleting one member row lowers the admin count by one exactly when that row was an admin |
| TeamRoutes.CountAdminsOtherTeam | backend/routes/teams.js:124-128 | a fresh member row in any team leaves every team's admin count alone |
| TeamRoutes.CountAdminsElsewhere | backend/routes/teams.js:124-128 | a row of another team leaves this team's admin count alone |
| TeamRoutes.AdminCounted | backend/routes/teams.js:186-190 | a team with an admin has an admin count of at least one |
| TeamRoutes.TwoAdminsLeaveOne | backend/routes/teams.js:186-199 | with more than one admin, changing or deleting one row still leaves an admin |
| TeamRoutes.ChangeRole | backend/routes/teams.js:159-209 | 400 for an unknown role, 403 for a non-admin actor, 404 for a non-member target, 400 when the only admin demotes themself, none changing anything; otherwise only the target's role changes, a role_changed entry is logged and the team still has an admin |
| TeamRoutes.Remove | backend/routes/teams.js:211-241 | 403 for a non-admin actor, 400 for removing oneself, 404 for a non-member target, none changing anything; otherwise only the target's row is deleted and the acting admin remains, so the team keeps an admin |
| Telegram.FindUser | backend/utils/telegram-bot.js:92-95 | the first user, by id, linked to the Telegram id, and none exactly when no user is linked to it |
| Telegram.FindUserFrom | backend/utils/telegram-bot.js:92-95 | the same search from a given user id on |
| Telegram.FirstTeam | backend/utils/telegram-bot.js:98-101 | a team the user belongs to, the lowest id among them, and none exactly when the user is in no team |
| Telegram.FirstTeamFrom | backend/utils/telegram-bot.js:98-101 | the same search from a given team id on |
| Telegram.PriorityRank | backend/utils/telegram-bot.js:115 | the `ORDER BY CASE priority` rank lies in 0..3 and is below 3 exactly for P0, P1 and P2 |
| Telegram.ListableRows | backend/utils/telegram-bot.js:113-114 | a task is listed exactly when it is an open task of the team assigned to the user or to nobody |
| Telegram.TaskListing | backend/utils/telegram-bot.js:112-118 | `ORDER BY` urgency `LIMIT 15`: min(15, n) of the n listable tasks, in priority order, drawn from them without repeats; no listable task left out is more urgent than one shown; all of them when there are at most 15 |
| Telegram.TasksCommand | backend/utils/telegram-bot.js:104-134 | an unlinked user and a user without a team get their refusals; otherwise the reply is the listing, or the no-pending-work message exactly when the listing is empty |
| Telegram.ApplyStatus | backend/utils/telegram-bot.js:196-205 | status and its timestamp are set; the blocker is kept for blocked and cleared otherwise; done sets the completion fields to the user and now; any other status leaves them as they were; no other field changes |
| Telegram.ApplyStatusIntended | backend/utils/telegram-bot.js:196-205 | status, timestamp and blocker as in ApplyStatus |
| Telegram.IntendedStatusKeepsFlagInSync | backend/utils/telegram-bot.js:201-205 | with the intended update the task is completed, and has a completer, exactly when the new status is done |
| Telegram.StatusLeavesStaleCompletion | backend/utils/telegram-bot.js:203-205 | as written, moving a completed task to todo leaves it marked completed by its old completer |
| Telegram.StatusCommand | backend/utils/telegram-bot.js:170-212 | refusals for an unlinked user, a missing id or status and an unknown status, changing nothing; a linked user in no team is told so; a task outside the user's first team is not found; otherwise the task is updated as ApplyStatus says, and the reply reports success exactly for done and an error for every other status |
| Telegram.AfterFirstSpace | backend/utils/telegram-bot.js:219 | `split(' ').slice(1).join(' ')` is empty without a space and otherwise the text after the first space |
| Telegram.FirstSpaceShift | backend/utils/telegram-bot.js:219 | a first space found after a leading non-space is the first space of the whole text |
| Telegram.BotTask | backend/utils/telegram-bot.js:229 | a row the bot inserts belongs to the user's team, starts as an uncompleted todo task and is created by the user |
| Telegram.AssignCommand | backend/utils/telegram-bot.js:215-243 | refusals for an unlinked user, an empty title and a user without a team change nothing; otherwise exactly one P2 task is created under a fresh id and logged, and the reply names it |
| Telegram.CreateAssigned | backend/utils/telegram-bot.js:227-238 | the INSERT gives the unassigned P2 task the next id, which no task holds, logs task_created and replies with id and title |
| Telegram.ConfirmEntries | backend/utils/telegram-bot.js:280-283 | one task_created entry per pending task |
| Telegram.NumberedAt | backend/utils/telegram-bot.js:264-286 | the rows numbered from n0 sit exactly under the ids n0 .. n0 + k - 1, in order |
| Telegram.PlacedSnoc | backend/utils/telegram-bot.js:264-286 | one more inserted row extends the task map by that row alone |
| Telegram.PlacedFacts | backend/utils/telegram-bot.js:264-286 | the confirmed rows sit under their consecutive fresh ids and every earlier task is kept |
| Telegram.ConfirmEntriesSnoc | backend/utils/telegram-bot.js:280-283 | the log entries of one more task are the earlier ones followed by its own |
| Telegram.CreatedLines | backend/utils/telegram-bot.js:285 | one reply line per pending task |
| Telegram.CreatedLinesSnoc | backend/utils/telegram-bot.js:285 | one more task adds its id and title as the last reply line |
| Telegram.InsertParsed | backend/utils/telegram-bot.js:265-283 | one pass inserts the task with its resolved assignee under the next id and logs its task_created entry |
| Telegram.InsertNext | backend/utils/telegram-bot.js:264-286 | one loop pass extends the inserted rows, the log and the reply lines by the next pending task |
| Telegram.InsertAll | backend/utils/telegram-bot.js:263-286 | the loop inserts the pending tasks in order under consecutive fresh ids, logs one entry each and returns one reply line each |
| Telegram.DropIfStamp | backend/utils/telegram-bot.js:336-338 | the callback's test drops only the chat's entry, and only when its stamp equals the compared value |
| Telegram.StashedEntryNeverExpires | backend/utils/telegram-bot.js:332-339 | as written, an entry stored at time t and left alone is still there after its timer fires five minutes later |
| Telegram.IntendedExpiryDropsOnlyStaleEntries | backend/utils/telegram-bot.js:332-339 | a timer that compares with its arming stamp removes an entry nobody replaced and spares a newer proposal for the same chat |
| Telegram.Bot.Stash | backend/utils/telegram-bot.js:327-332 | an empty proposal stores nothing; otherwise the chat's entry becomes the user's tasks stamped with the current time |
| Telegram.Bot.Expire | backend/utils/telegram-bot.js:335-339 | the callback, reading the clock five minutes after arming, drops the chat's entry only if its stamp equals that later time; no other chat changes |
| Telegram.Bot.Confirm | backend/utils/telegram-bot.js:249-294 | refusals for an unlinked user, a missing or foreign pending entry and a user without a team change nothing; otherwise the pending tasks are inserted in order, logged, the entry is dropped and the reply lists the new ids and titles |
| Telegram.Bot.Cancel | backend/utils/telegram-bot.js:297-305 | a pending entry is dropped and the cancellation acknowledged; without one nothing changes and the reply says so |
| Text.LowerStr | backend/routes/collab.js:14 | `toLowerCase` keeps the length and lowers each character on its own |
| Text.TrimLeft | backend/routes/collab.js:14 | what is left after dropping leading white space is a suffix that starts with a non-space, and everything dropped was white space |
| Text.TrimRight | backend/routes/collab.js:14 | what is left after dropping trailing white space is a prefix that ends with a non-space, and everything dropped was white space |
| Text.TrimSlice | backend/routes/collab.js:14 | `trim` returns one contiguous slice of its input |
| Text.TrimEnds | backend/routes/collab.js:14 | a trimmed string is empty or neither starts nor ends with white space |
| Text.TrimEmptyIffAllSpace | backend/utils/telegram-bot.js:219-220 | `trim` gives the empty string exactly when the input is all white space, which is when the title check refuses it |
| Text.StrLessIrreflexive | backend/routes/challenges.js:30 | the code-point order ORDER BY type uses puts no word before itself |
| Text.NatToString | backend/utils/telegram-bot.js:238 | a number's decimal rendering is a non-empty string of digits |
| LegacyThemes.ThemeById | frontend/themes.js:269 | `THEMES[themeId] \|\| THEMES.pokemon`: a known id selects its own theme and any other id selects pokemon |
| LegacyThemes.MatchesReactClient | frontend/themes.js:6-239 | each legacy table ranks experience at the same levels, thresholds and sprites as the React client's table for the same theme |
| LegacyThemes.TablesAgreeWithServer | frontend/themes.js:6-239 | every legacy table carries the server's (level, threshold) pairs |
| LegacyThemes.ThemeState.constructor | frontend/themes.js:241 | the page starts with pokemon active |
| LegacyThemes.ThemeState.ApplyTheme | frontend/themes.js:268-270 | the selected theme, pokemon for an unknown id, becomes the active one |
| LegacyThemes.ThemeState.GetThemeRankData | frontend/themes.js:246-252 | the descending scan returns the active theme's rank for the experience, whose level and threshold are the server's |
| LegacyThemes.ThemeState.ThemeSprite | frontend/themes.js:258-262 | an emoji result exactly when the active theme has no sprite images, carrying the rank's sprite name; otherwise a URL and no emoji |
| LegacyThemes.ImagesOnlyForPokemon | frontend/themes.js:51-53 | of the five themes only pokemon yields image URLs |
| LegacyThemes.ApplyThenLookup | frontend/themes.js:246-270 | after applying a theme, rank lookups read that theme's table and images appear exactly for pokemon |
| Themes.AllTablesAgree | frontend-react/src/utils/themes.js:5-219 | every theme's (level, threshold) pairs are the server's level table, so its thresholds are the server's |
| Themes.SameThresholds | frontend-react/src/utils/themes.js:5-219 | a table with the server's (level, threshold) pairs has the server's thresholds |
| Themes.TablesAscending | frontend-react/src/utils/themes.js:5-219 | every theme's table starts at level 1 with 0 XP, ends at level 100 with 75000 XP and rises strictly in both |
| Themes.GetRankData | frontend-react/src/utils/themes.js:221-227 | the loop returns the highest rank whose threshold the experience reaches, or the first rank when none is reached |
| Themes.RankMatchesServer | frontend-react/src/utils/themes.js:221-227 | in every theme the rank shown has the level and threshold the server computes for the same experience |
| Themes.SpriteUrl | frontend-react/src/utils/themes.js:44-46 | a non-empty URL exactly for a theme with sprite images |
| Themes.GetSprite | frontend-react/src/utils/themes.js:229-236 | an image with its fallback exactly when the theme yields a URL, the rank's emoji otherwise |
| Themes.SpritesByTheme | frontend-react/src/utils/themes.js:229-236 | only pokemon shows images; every other theme shows the rank's emoji and no URL |
| Themes.GetCompanionQuote | frontend-react/src/utils/themes.js:238-249 | the fixed encouragement when the theme has no quotes; otherwise the quote of the day from the chosen tier |
| Themes.TierMeaning | frontend-react/src/utils/themes.js:241-244 | the tier chosen is the last whose minimum level is reached, or the first when none is |
| Themes.QuoteOfMeaning | frontend-react/src/utils/themes.js:245-248 | the quote is one of the tier's entries in double quotes and repeats after as many days as the tier has quotes |
| Themes.ThemeById | frontend-react/src/utils/themes.js:251-252 | `THEMES[themeId] \|\| THEMES.pokemon`: a known id selects its own theme and any other id selects pokemon |
| Themes.ThemeIndex | frontend-react/src/utils/themes.js:251-252 | the position `THEMES[themeId] \|\| THEMES.pokemon` selects among the theme keys: the id's own when it is a key, else 0 (pokemon) |
| Themes.ThemeIdsDistinct | frontend-react/src/utils/themes.js:5-219 | the five theme keys are distinct, so each key selects exactly its own theme |
| Webhooks.Format | backend/utils/webhooks.js:31-45 | every message starts with the `[team] ` prefix; an unknown event formats as the event name and the serialised payload |
| Webhooks.CompletedTemplate | backend/utils/webhooks.js:34-35 | task_completed names the user, the quoted title and the XP earned |
| Webhooks.CreatedTemplate | backend/utils/webhooks.js:36-37 | task_created names the user and the quoted title |
| Webhooks.LevelUpTemplate | backend/utils/webhooks.js:38-39 | level_up names the user, the new level and the new rank |
| Webhooks.KudosTemplate | backend/utils/webhooks.js:40-41 | kudos_given names sender and receiver and quotes the message |
| Webhooks.Delivery | backend/utils/webhooks.js:10-17 | a post is made exactly when the team has an enabled webhook with a URL whose event list is absent or holds the event; it goes to that URL with the formatted text |
| Webhooks.Dispatch | backend/utils/webhooks.js:8-29 | at most one post is appended, exactly the delivery; a failing settings lookup posts nothing and nothing is reported back |
| Webhooks.DeliveryPrefixed | backend/utils/webhooks.js:17-22 | whatever is posted begins with the team's own prefix and goes to the team's own URL |
| Webhooks.FilterNarrows | backend/utils/webhooks.js:15 | narrowing the event list can only take deliveries away |

## Left out

- HTTP routing, authentication middleware and status codes are left out. Each refusal is a distinct reply value, and the caller's identity and role are parameters.
- The SQL text and the pg driver are not modelled. Each query is the store operation it performs.
- Non-transactional query sequences are modelled one after the other. Concurrent requests, such as two simultaneous completions of one task, are not modelled.
- The clock is a parameter (today, now and the day of the year). Time zones and daylight saving are left out: dates are UTC day numbers, and the `Date` arithmetic over them (week and month bounds, day 0 of the next month) is modelled in calendar.dfy.
- Telegram.BotTask: the bot's INSERT leaves status_updated_at to its column default, the insert time; the model leaves it None, because the bot's commands take no clock and nothing in the model reads the field of a task whose status never changed.
- Whether pg returns DATE columns as `Date` objects, which would make the `===` date comparisons never match, is not modelled.
- The cron schedule of the snapshot job and the reminders are left out.
- AI calls, outbound `fetch` and the Telegraf bot launch are left out.
- `JSON.stringify` output is an opaque string parameter.
- Floating-point scores and percentages are exact rationals (`real`), not IEEE doubles.
- Strings are ASCII. `toLowerCase`, `\s` and `\w` are not modelled beyond ASCII.
- DOM effects of both `applyTheme` functions, CSS variables and rendering are left out.
- The server-side status-change route and the dependency routes, including any cycle check, are not part of this model. Dependencies appear only through the client selector.
- Listing routes outside the rules are not modelled. These are GET `/challenges/all` (backend/routes/challenges.js:73-99), the sprint list and detail, and the overdue and link routes.
- Finding a user's team without ORDER BY is modelled as the team with the lowest id. Likewise, a lookup by a non-key column returns the first match in id order.
- Snapshot rows are assumed unique per (team, period, start); the schema is not part of this model. The job's "skip on conflict" and the 500 that Analytics.TakeSnapshot answers for a repeated snapshot are both modelled against that key.
- Member rows are assumed to hold integers where the source falls back with `|| 0`. Null statistics are not modelled.
- A new member's today-XP defaults to 0, and a new sprint's status is left unset (None), standing for defaults the schema would supply. The schema is not part of this model.
- Collab.SimilarTasks: the taskId query parameter is taken already parsed. A non-numeric id, which the database would reject with 500, is not modelled.
- `Number(selectedTaskId)` in TaskDependencies.jsx is an `Option<int>`. A picker value that is not a number is not modelled.
- TaskRoutes.Complete computes the level with Config.LevelFor. Config.CalculateLevel, the loop, is proved to return the same entry.
- Telegram.Bot.Expire: the five-minute `setTimeout` delay is not modelled. The callback is a method that the caller invokes with the time the timer was armed.

## Findings

| source | as written | input that shows it | evidently intended | confidence | as-written member | corrected member |
|---|---|---|---|---|---|---|
| backend/utils/telegram-bot.js:203-205 | for any status but done, the second UPDATE refers to `$2` but is given only `[taskId]`. The query fails after the first UPDATE has already changed status and blocker. The completion fields are never cleared, and the user gets the error reply | `/status 7 todo` on task 7, which is completed | clear `completed`, `completed_by` and `completed_at` when the status is not done, so the completed flag agrees with status done | not executed | Telegram.StatusLeavesStaleCompletion (over Telegram.ApplyStatus, which Telegram.StatusCommand uses) | Telegram.IntendedStatusKeepsFlagInSync (over Telegram.ApplyStatusIntended) |
| backend/utils/telegram-bot.js:332-339 | the expiry callback drops the chat's proposal only when its stamp equals `Date.now()` read when the callback runs, five minutes after the stamp was taken, so it never matches | a proposal stored at time t, with the timer firing at t + 300000 | compare with the stamp taken when the timer was armed. The proposal then expires unless a newer one has replaced it | not executed | Telegram.StashedEntryNeverExpires (over Telegram.TimerAsWritten, which Telegram.Bot.Expire performs) | Telegram.IntendedExpiryDropsOnlyStaleEntries (over Telegram.TimerIntended) |

Telegram.StatusCommand and Telegram.Bot.Expire model the bot as written, so that the handlers stay faithful to the program. The corrected definitions stand beside them with the intended property proved.
