# Verified model of the coverage pipeline

This project models the parts of gocov that decide what a commit's coverage is
and what the forge is told about it, and proves what they promise.

- **The commit push protocol** (`PushProtocol`, over the rows of `CommitStore`).
  Any number of uploads of one commit create rows, recompute under the commit
  lock, claim the push lease, post, release it and follow up, interleaved in any
  order with the clock, with uploads of other commits and with tasks dying at any
  point. The invariant gives every newest upload a witness: it is on the forge, or
  a task is bound to bring it there. `CommitStore.Store` is the in-memory store as
  a class, and `CommitReports` proves that its calls, the recompute included, take
  the protocol's steps on a commit's rows, and that the report they leave stored
  counts the newest upload of every part.
- **Ignore patterns** (`Ignore`). A declarative meaning of `**` patterns; the
  single-backtrack loop is exact for it, within a cost bound, and a result given
  under an unspent budget is the unlimited one.
- **Diffs** (`DiffParser`, `Spans`, `PathIndex`, `DiffCoverage`, `DiffMerge`).
  Parsing inverts rendering; span passes are exact set algebra on a canonical form;
  the path index answers what a scan by its rules would; measured lines are counted
  exactly; merging parts never overstates.
- **Profiles** (`Profile`, `ProfileMerge`, `GoCover`, `LineHits`, `LineViews`).
  Merging is one function of the entries merged, whatever their order or grouping;
  line hits survive the trip through blocks; every view of a line agrees.
- **Stored blocks** (`BlocksJson`). The hand-written scanner accepts exactly the
  texts of a reference grammar, with their meaning, fast path included.
- **Merged reports** (`CommitMerge`). The shortcut for one upload never changes the
  answer, and a stored report counts the newest upload of every part.
- **Baselines** (`Baseline`). The bounded search is right and does not drift as
  history grows.
- **Grant refresh** (`GrantRefresh`). No rotated refresh token is lost, across any
  number of instances.

`Sorting`, `Numerals` and `Options` hold what these share.

## How it is modelled

Code that changes things step by step is a method, or a class with methods, proved
against a specification; what the specification promises is proved about it in
lemmas. Protocols are state machines: a run is the sequence of its events, from an
initial state, and the theorems are about every run.

Parameters stand for what the model cannot see: `path.Match` on one segment
(`glob`), its pattern check (`valid`), git's path unquoting (`unquote`), the clock
(`now`), and in the protocols the outcome of every post, refresh and store call.

Two timing facts the source relies on are premises of the push machine. A post is
over by the deadline of its context. The answer to a claim arrives while at least
the posting time of its lease is left: a lease is 30 s and a post at most 20 s, so
within 10 s; a task whose answer is later is taken to have stopped.

## Where the code and its words differ

- `internal/store/store.go:543-546` says a slow older push can never land after a
  newer one. It can, once a lease lapses between a post and its release: version 2
  lands, its lease lapses, version 1 claims and lands over it
  (`PushProtocol.OlderCanLandLast`). A push lands over a newer one if and only if the
  forge already showed a newer version when it claimed (`OlderLandsExactlyWhen`),
  which the claim cannot see when that version was never recorded. While no claim is
  granted with what the forge shows unrecorded, it cannot happen, lapsed leases and
  dead holders included (`OlderNeverLandsLast`). The last word is still the newest
  one: the follow-up puts it back (`LastWordIsNewest`).
- `internal/ignore/ignore.go:69-70` says that with a spent budget `Match` reports
  false without comparing. It still reports true exactly when some pattern is made only
  of `**`, which needs no comparison (`Ignore.Rules.Match`).
- `internal/ignore/ignore.go:144` indexes the last segment of a list that is empty
  exactly when the pattern is anchored and its first segment is `**`
  (`Ignore.CompilePattern`, outcome `Panics`).
- `internal/ignore/ignore.go:143` says one `**` is enough; two can still follow each
  other when the second comes from inside a segment (`**.go`). It changes no match.
- Parsing two Go profiles' lines in one text is not always merging their two
  parses: the parser keeps the first statement count reported at a position, the
  merge the largest. They agree if and only if no position gets more statements from
  the second than from the first (`GoCover.ParsingBothIsMerging`).

## Model

| member | source | states |
|---|---|---|
| PushProtocol.RunKeepsInv | internal/core/publish.go:410-510 | in every run: rows, leases, tokens, the lock and the report are consistent, and whenever the newest upload is not lost it is on the forge or some task is bound to push it |
| PushProtocol.StepKeepsSafe | internal/core/publish.go:458-491 | each step keeps: content read for version v holds every row up to v; leases held by at most one task; unless a claim has slipped, the holder is bound to post nothing older than the forge shows |
| PushProtocol.StepKeepsWitness | internal/core/publish.go:430-454 | each step, claims that queue and follow-ups that stop included, keeps a witness for the newest upload or records it as lost |
| PushProtocol.LastWordIsNewest | internal/core/publish.go:398-409 | once no task is left, the forge shows exactly the commit's rows, unless a fault cut off the newest version |
| PushProtocol.NoPartIsLost | internal/core/merge.go:47-147 | once no recompute is pending, the stored report was merged from exactly the commit's rows, unless the newest upload's recompute was cut off |
| PushProtocol.OnePushAtATime | internal/core/publish.go:23-31 | no two tasks post to a commit's surfaces at once, and the one that does holds the lease |
| PushProtocol.OutstandingTokensDiffer | internal/store/memory/memory.go:866-879 | tokens of tasks that have claimed and not finished are distinct |
| PushProtocol.VersionOnlyRises | internal/store/memory/memory.go:881-901 | the recorded version never falls between any two points of a run, late finishes included |
| PushProtocol.OlderNeverLandsLast | internal/store/store.go:543-555 | in every run in which no claim was granted while the version the forge shows was unrecorded, every post that lands is at least as new as the one before, over lapsed leases too |
| PushProtocol.OlderLandsExactlyWhen | internal/store/store.go:543-546 | over any run from a claim to its post, the post lands over a newer one if and only if the forge showed a newer version at the claim |
| PushProtocol.ForgeWaitsForHolder | internal/core/publish.go:398-406 | from a claim up to its post, nobody else changes what the forge shows |
| PushProtocol.OlderCanLandLast | internal/store/store.go:543-546 | a concrete run in which an older version lands over a newer one after a lapsed lease |
| PushProtocol.LeaseIsShort | internal/store/store.go:554-555 | in every run, a lease ends within its length from now |
| PushProtocol.BlockedForTheLeaseAtMost | internal/store/store.go:554-555 | once a lease's length has passed without another grant, no claim queues, whoever died holding it |
| PushProtocol.NextUploadFindsTheRest | internal/core/publish.go:423-429 | whatever earlier faults lost, from any point at which no dead task's lease still runs, events without a fault that include an upload and go quiet end with every upload on the forge and in the report |
| PushProtocol.FaultlessRunsConverge | internal/core/publish.go:398-454 | in a run without faults that has gone quiet, forge and report both show every upload |
| CommitStore.Store.CreateUpload | internal/store/memory/memory.go:623-641 | the upload goes in under the next id in one step, its files stamped with it and sorted by path; the commit's row gains the id, no other row changes |
| CommitStore.Store.LatestUploadsPerPart | internal/store/memory/memory.go:753-771 | exactly the newest upload of each part of the commit, in id order |
| CommitStore.Store.UpsertCommitReport | internal/store/memory/memory.go:792-813 | one report a commit: the first takes the next id, later ones replace it in place; only its own commit's row changes |
| CommitStore.Store.LatestPassedCommitReport | internal/store/memory/memory.go:832-864 | the greatest id among the branch's gate-passing, non-PR reports, below the bound and not the excluded commit's |
| CommitStore.Store.ClaimPush | internal/store/memory/memory.go:866-879 | on the commit's row, the claim step of the protocol; no other row changes |
| CommitStore.Store.FinishPush | internal/store/memory/memory.go:881-901 | on the commit's row, the finish step of the protocol: version raised, lease freed only if still the caller's, newer uploads reported; no other row changes |
| Ignore.Rules.MatchSegments | internal/ignore/ignore.go:200-228 | with budget left at the end, true exactly when the pattern stands for the path or a directory above it; true is right in any case; at most pattern times path segments are compared; started with the budget spent, true exactly for patterns of `**` alone |
| Ignore.Rules.Match | internal/ignore/ignore.go:164-187 | with budget left, true exactly when some pattern covers the path, or the path without the upload's prefix; started with the budget spent, true exactly when some pattern is `**` alone; the budget never grows |
| Ignore.Rules.MatchPath | internal/ignore/ignore.go:179-187 | with budget left, true exactly when some pattern covers the path; started with the budget spent, true exactly when some pattern is `**` alone |
| Ignore.Rules.Charge | internal/ignore/ignore.go:234-243 | the comparison's cost comes off the budget, and the answer is whether that left it unspent |
| Ignore.Rules.ApplyIgnore | internal/core/accept.go:239-269 | what is kept is what an unlimited matching keeps; otherwise the budget is spent, or every file is ignored |
| Ignore.RunMoves | internal/ignore/ignore.go:194-196 | a run without `**` that can match later can be left to: earlier `**`s need no revisiting |
| Ignore.CompilePattern | internal/ignore/ignore.go:121-158 | the compiled pattern means what the written one does; it fails on an empty or malformed segment, and indexes out of range exactly on an anchored pattern that starts with `**` |
| Ignore.DirectoryPattern | internal/ignore/ignore.go:24-25 | a pattern and that pattern followed by `**` cover the same paths |
| Ignore.FloatingPattern | internal/ignore/ignore.go:15-23 | an unanchored pattern covers a path exactly when its anchored form covers some suffix of it |
| Ignore.StarsCollapse | internal/ignore/ignore.go:142-147 | one of two consecutive `**`s can be dropped anywhere in a pattern |
| DiffParser.ParseUnifiedDiff | internal/diffcov/diffcov.go:66-131 | the loop over header counters computes the line-by-line specification |
| DiffParser.FailsExactlyOnMalformedHeaders | internal/diffcov/diffcov.go:107-118 | parsing fails exactly when some line read outside hunks is a hunk header that does not spell one, or whose start no int holds |
| DiffParser.AnyCutParses | internal/diffcov/diffcov.go:58-131 | any edit script, cut into hunks anywhere, has a diff with those hunks that parses to exactly the positions the script adds |
| DiffParser.ParsingInvertsRendering | internal/diffcov/diffcov.go:58-131 | for any rendered diff, whatever its content lines look like, each file gets exactly its added lines' positions, sorted, and no other file gets any |
| DiffParser.ParsingOneFile | internal/diffcov/diffcov.go:58-131 | a diff of one file parses to that file's added positions, in order |
| DiffParser.AdditionsArePositions | internal/diffcov/diffcov.go:58-60 | those positions are those of the added lines, counted over kept and added lines |
| DiffParser.NewFileAt | internal/diffcov/diffcov.go:58-60 | counting that way indexes the edit's own text in the new file |
| DiffParser.PlainTarget | internal/diffcov/diffcov.go:147-168 | the usual `+++ b/path` line names the path |
| Spans.CanonicalIsUnique | internal/diffcov/diffcov.go:293-296 | two sorted, disjoint, non-adjacent span lists denoting the same lines are equal |
| Spans.MergedSpans | internal/diffcov/diffcov.go:297-314 | canonical, and denotes exactly the lines from 1 up of the kept blocks |
| Spans.SubtractSpans | internal/diffcov/diffcov.go:256-275 | canonical, and denotes exactly the difference |
| Spans.IntersectSpans | internal/diffcov/diffcov.go:278-291 | canonical, and denotes exactly the intersection |
| Spans.InSpans | internal/diffcov/diffcov.go:317-320 | the binary search decides membership |
| Spans.MissedSpans | internal/diffcov/diffcov.go:251-253 | canonical, and denotes the executable lines no block ran over |
| Spans.RegressedSpans | internal/server/uploadpage.go:452-460 | canonical, and denotes the lines missed now and run at the baseline |
| Spans.LineSpans | internal/diffcov/diffcov.go:476-490 | canonical, and denotes exactly the listed lines |
| PathIndex.DirSuffixes | internal/diffcov/diffcov.go:401-411 | exactly what remains of a path after each of its slashes, longest first |
| PathIndex.NewProfileIndex | internal/diffcov/diffcov.go:343-365 | paths map to their first file, slashed suffixes to the first of the shortest paths that end with them |
| PathIndex.Match | internal/diffcov/diffcov.go:367-396 | the file a scan by the pairing rules picks: first of prefixed or bare path; else exact, else first of the shortest forward matches, else first of the longest reverse ones, never a bare name |
| PathIndex.PicksIsUnique | internal/diffcov/diffcov.go:322-334 | the pairing rules leave no choice |
| PathIndex.NewDiffPaths | internal/diffcov/diffcov.go:424-433 | the diff's paths and all their directory-aligned suffixes |
| PathIndex.Touches | internal/diffcov/diffcov.go:440-457 | true exactly when some path of the diff would be paired with that profile path alone |
| PathIndex.PickedIsTouched | internal/diffcov/diffcov.go:413-415 | every file the index pairs with a path of the diff is one that path could be paired with alone, so one that is touched |
| DiffCoverage.Compute | internal/diffcov/diffcov.go:177-222 | the listed files are those paired and with executable changed lines, each with exact counts and exactly its uncovered lines; unmatched are those with added lines and no pair; totals are the sums |
| DiffCoverage.HitsAreMeasured | internal/diffcov/diffcov.go:192-208 | over blocks made from line hits, the lines measured are the changed lines that have a hit count, covered where it is positive |
| DiffCoverage.MeasuredIsTruth | internal/diffcov/diffcov.go:203-212 | the uncovered lines are among the measured ones, without repeats, and the rest are the covered ones |
| DiffCoverage.MeasuredIsTouched | internal/diffcov/diffcov.go:413-415 | every measured file is one the diff touches |
| DiffMerge.MergeFile | internal/diffcov/merge.go:92-132 | uncovered are the lines every part lists where the parts agree, any part lists where they do not; the total is the largest, and no less than the uncovered; the rest is covered |
| DiffMerge.Merge | internal/diffcov/merge.go:19-73 | one merged file per path, sorted, with summed totals; unmatched are those no part has data for; conflicts are the files whose parts disagree; nothing when there is nothing to merge |
| DiffMerge.MergeIgnoresOrder | internal/diffcov/merge.go:10-18 | the merge does not depend on the order of the parts |
| DiffMerge.FileAgainstTruth | internal/diffcov/merge.go:82-91 | against each part's true set of lines: covered plus uncovered is the total, covered is not negative, the total is at most the true one, and what is taken off is at least what is truly missed |
| DiffMerge.FileNeverOverstates | internal/diffcov/merge.go:88-89 | a merged file has no more covered lines than truly covered, and no higher a ratio |
| DiffMerge.AgreedIsExact | internal/diffcov/merge.go:79-82 | where the parts agree, total, covered and uncovered lines are the true ones |
| DiffMerge.MergeNeverOverstates | internal/diffcov/merge.go:19-73 | nor does the merged result, over all its files; without conflicts it is exact |
| ProfileMerge.Merge | internal/profile/merge.go:21-68 | every path once and sorted, every position once and sorted, with counts summed and the largest statement count of what was reported there |
| ProfileMerge.MergeIsUnique | internal/profile/merge.go:8-20 | there is only one such profile |
| ProfileMerge.MergeIgnoresOrder | internal/profile/merge.go:8-20 | profiles that differ in the order of their files and of their files' blocks merge to the same profile |
| ProfileMerge.ProfilesInAnyOrder | internal/profile/merge.go:8-20 | and so do profiles merged in any order |
| ProfileMerge.MergeGroups | internal/profile/merge.go:8-20 | where a part is the merge of some profiles, merging it with more profiles and merging all of those profiles together have the same result |
| ProfileMerge.MergedExecutable | internal/profile/merge.go:8-13 | a merged file's executable lines are the union of its inputs' |
| ProfileMerge.MergedRan | internal/profile/merge.go:14-17 | so are its covered lines, when blocks at one position agree on holding statements and no count is negative |
| ProfileMerge.Canonical | internal/profile/merge.go:82-92 | the neighbour scan decides whether blocks are strictly in position order |
| GoCover.Parse | internal/profile/gocover.go:25-83 | the first faulty line, or the missing mode line, is the error; else each position holds its lines' counts summed and its first line's statements |
| GoCover.ParsingBothIsMerging | internal/profile/gocover.go:23-63 | one parse of both profiles' lines has the blocks of the two parses merged if and only if no position gets more statements from the second than from the first |
| GoCover.SecondPartCanHaveMore | internal/profile/gocover.go:58-63 | two one-line profiles for which that condition fails |
| GoCover.ConcatenationParses | internal/profile/gocover.go:36-46 | the text of one profile that parses followed by another's parses, to the lines of both |
| BlocksJson.ScanBlocks | internal/profile/blocksjson.go:33-57 | the scanner, a cursor over the bytes, computes the specification of scanning |
| BlocksJson.BlockScanner.ScanJsonb | internal/profile/blocksjson.go:95-118 | the run of literals with digits, the block and the end position it gives, and the cursor put back when it fails |
| BlocksJson.BlockScanner.ScanOneBlock | internal/profile/blocksjson.go:121-163 | one block, by the fast path or key by key, last key wins |
| BlocksJson.BlockScanner.ScanMembers | internal/profile/blocksjson.go:133-162 | the members of an object up to its closing brace, each setting its field in turn |
| BlocksJson.BlockScanner.ScanKey | internal/profile/blocksjson.go:166-184 | a quoted key without escapes or control characters |
| BlocksJson.BlockScanner.ScanInt | internal/profile/blocksjson.go:194-201 | optional white space and minus, then digits |
| BlocksJson.BlockScanner.ScanDigits | internal/profile/blocksjson.go:204-216 | the longest digit run, refused when empty, too long or with a leading zero |
| BlocksJson.AcceptsExactlyArrays | internal/profile/blocksjson.go:20-57 | the scanner accepts a text with a list of blocks exactly when the grammar gives the text that meaning |
| BlocksJson.FastPathAgrees | internal/profile/blocksjson.go:92-125 | where the fast path takes a block, scanning key by key takes the same block and stops at the same place |
| BlocksJson.PrintedBlocksScanBack | internal/profile/blocksjson.go:186-190 | any list of blocks with fields of at most 18 digits, printed with keys in any order and any gaps, scans back to itself |
| LineHits.BlocksFromLineHits | internal/profile/lcov.go:105-131 | maximal runs of equal counts with no gap inside, holding exactly the input's lines, with as many statements as lines and as many covered as hit lines |
| LineHits.HitsSurvive | internal/profile/lcov.go:101-104 | the executable and the covered lines of such blocks are the keys and the keys with a positive count |
| LineHits.MaximalRunsAreUnique | internal/profile/lcov.go:101-104 | there is one way to write the counts as such runs |
| LineViews.LineCounts | internal/server/uploadpage.go:435-446 | up to the limit, a key exactly on the executable lines, with the highest count, positive exactly on the lines that ran |
| LineViews.RenderSourceLines | internal/server/source.go:327-342 | each source line has hits exactly when it is executable, positive exactly when it ran |
| LineViews.MarkNewlyUncovered | internal/server/source.go:406-415 | in place, exactly the lines missed now and run at the baseline are flagged, and their number is returned |
| CommitMerge.MergeAll | internal/core/merge.go:213-227 | the merge of the rows' profile, counts those of the blocks, each file owned by the newest upload that reported it |
| CommitMerge.CanonicalFiles | internal/core/merge.go:203-210 | files sorted by path are their own merge: each path once, blocks strictly in order |
| CommitMerge.MergeParts | internal/core/merge.go:191-199 | with stored counts matching their blocks, the same merge, shortcut taken or not |
| CommitMerge.MergedRowsAreUnique | internal/core/merge.go:184-190 | there is one merge of the rows, owners and counts included, so the shortcut equals the full merge |
| CommitMerge.LonePartIsItsMerge | internal/core/merge.go:154-163 | with paths and positions distinct, a lone part's totals are the sums over its merged files |
| CommitMerge.MergedCoverage | internal/core/merge.go:160-178 | the totals of the merge of the parts' files, the lone-part shortcut included |
| CommitMerge.BuildReport | internal/core/merge.go:55-117 | the report counts the newest upload of every part, and carries the trigger's branch, PR and id |
| CommitMerge.Recompute | internal/core/merge.go:55-120 | the report built is stored under the id the commit's report has, or a new one; only that commit's row changes |
| CommitMerge.StoredIsOk | internal/store/memory/memory.go:623-641 | stamping and sorting an upload's files keeps its counts, paths and positions as they were accepted |
| CommitReports.CreateStep | internal/store/memory/memory.go:623-641 | storing an upload is the protocol's create step on the commit's rows |
| CommitReports.LockStep | internal/core/merge.go:55-117 | the reading half of a recompute is the protocol's lock step, and the report it builds is over exactly the rows that step read |
| CommitReports.ReportWaits | internal/core/merge.go:51-55 | whatever else happens after that, uploads of the commit included, storing that report stays the task's upsert step, until the task stores it or is cut off |
| CommitReports.UpsertStep | internal/core/merge.go:118-120 | the storing half, at whatever point of the run, is the protocol's upsert step on the commit's rows |
| CommitReports.RecomputeStep | internal/core/merge.go:47-120 | with nothing in between, the two halves are those two steps in turn |
| CommitReports.ClaimStep | internal/store/memory/memory.go:866-879 | the store's claim is the protocol's claim step, granted exactly when that grants |
| CommitReports.FinishStep | internal/store/memory/memory.go:881-901 | the store's finish is the protocol's finish step, and answers again exactly when that goes round again |
| CommitReports.ReportIsOfItsCommit | internal/core/merge.go:56-59 | a report over all the store's uploads is one over its own commit's rows |
| CommitReports.StoredReportMergesEveryPart | internal/core/merge.go:47-147 | in every run of such steps, once recomputes are done, the report the run stored has as many parts as the commit, and the counts of the merge of their newest uploads, unless the newest upload's recompute was cut off |
| Baseline.ComparableReport | internal/core/baseline.go:66-84 | the newest candidate that carries all the parts, among the ten newest candidates; a passing, non-PR build of that branch, older than the bound, and never the commit's own |
| Baseline.ComparableIsUnique | internal/core/baseline.go:60-65 | there is one such report, or none |
| Baseline.DeltaBase | internal/core/baseline.go:132-144 | that on the branch, else on the default branch |
| Baseline.CommitBaseline | internal/core/baseline.go:151-165 | that, with the commit's own parts, among the reports older than its own |
| Baseline.BaselineDoesNotDrift | internal/core/baseline.go:146-150 | after any sequence of uploads and reports of new commits, a commit's baseline is what it was, through the default-branch fallback too |
| Baseline.TotalOver | internal/core/baseline.go:89-99 | the counts of the merge of the base's newest uploads of the named parts, whenever it has others or its report is up to date; with no others, the counts its report has stored |
| GrantRefresh.TokenCache.Get | internal/core/forges.go:168-176 | a token is given only while it has the leeway left |
| GrantRefresh.TokenCache.Put | internal/core/forges.go:178-182 | the workspace's token is replaced, no other's, and can be got at once if it lives long enough |
| GrantRefresh.TokenCache.Drop | internal/core/forges.go:184-188 | the workspace's token can no longer be got, at any time |
| GrantRefresh.StepKeepsInv | internal/core/forges.go:369-416 | each step keeps: one call at a time under a workspace's lock; stored and live token equal except while a rotation is on its way to the store; and, once a rotation went unstored, a spent token in the store |
| GrantRefresh.RefreshPresentsLive | internal/core/forges.go:369-403 | a call about to refresh presents what the forge accepts if and only if no rotation of its workspace went unstored, and a spent token if and only if one did |
| GrantRefresh.FreeLockStoresLive | internal/core/forges.go:364-368 | while the lock is free, a usable grant holds the live token if and only if no rotation of that workspace went unstored |
| GrantRefresh.OneRefreshAtATime | internal/store/memory/memory.go:785-790 | two calls never refresh one workspace at once |
| GrantRefresh.CachedIsAlive | internal/core/forges.go:147-176 | a cached token is the workspace's own and, if cached within the leeway of being issued, still alive |
| GrantRefresh.RotationIsNeverLost | internal/core/forges.go:369-416 | in a run without a fault, every refresh presents the live token, and a free lock means it is the stored one |
| GrantRefresh.UnstoredRotationIsLost | internal/core/forges.go:403-409 | a run in which a rotation is not stored and the next refresh presents the spent token |

## Left out

- PushProtocol.OlderNeverLandsLast: holds while no claim is granted with what the forge shows unrecorded; the promise without that is false, and `OlderLandsExactlyWhen` gives its exact condition.
- Baseline.TotalOver: does not say that a base whose newest recompute is still pending is counted over its newest uploads; with no parts but those named, the code returns the total stored before that upload.
- CommitReports.RecomputeStep: is the case without a break; `LockStep`, `ReportWaits` and `UpsertStep` cover a recompute that other steps come between.
- PushProtocol.RunKeepsInv: models the three forge surfaces as one post that succeeds, fails, or lands and is reported as failed; best-effort surfaces failing on their own are not told apart.
- PushProtocol.LastWordIsNewest: takes a fault to cut off the version of the task it hits, and the newest upload when the task held the lease or was following up; a failed post counts as a fault.
- Ignore.Rules.Charge: does not model 64-bit wrap-around of the budget, nor one budget shared by goroutines that match at the same time.
- Ignore.CompilePattern: starts from the pattern's segments: trimming, splitting at slashes and the length limits are easy string handling.
- DiffParser.ParseUnifiedDiff: starts from the lines: the scanner's 4 MB line limit and read errors are left to the I/O library.
- GoCover.Parse: starts from lines already told apart as blank, mode, block or malformed: the field splitting of one line is straight-line string handling.
- CommitMerge.MergeParts: is stated for rows whose stored counts match their blocks, as every row the pipeline stores does; otherwise only that nothing but a merge or the rows themselves comes back.
- ProfileMerge.Merge: nil inputs, which are skipped, are not there to begin with.
- CommitMerge.BuildReport: takes the commit's uploads to be as accepted, their counts those of their blocks, no path twice and no position twice in a file, which storing them keeps; and leaves out the gate's verdict, the delta and the diff coverage of the report, which are floating point over what is proved here; the gate's outcome is a parameter.
- GrantRefresh.RotationIsNeverLost: excludes connecting and disconnecting a workspace, which do not take the grant lock.
- Integer widths: counts, ids and lines are unbounded integers; an `int` is 64 bits wide where that decides (`Atoi`, the 18-digit limit).
- The fallback to `encoding/json` for texts the scanner refuses, and the XML and JSON report parsers, are the libraries' decoding.
- The upload page's and dashboard's baselines (`UploadBaseline`, `ReportBaseline`), being one read each, add only easy members.
- HTTP handlers, pages, badges, OAuth, OIDC, webhooks, encryption, forge clients, Postgres, rate limits, visibility, logging and configuration.
