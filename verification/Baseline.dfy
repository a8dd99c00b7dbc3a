/**
  Which earlier report a commit is compared with: the newest passing one on its
  branch, or on the default branch, that carries all of the commit's parts,
  searched among a bounded number of older ones.
*/
module Baseline {
  import opened CommitStore
  import opened CommitMerge
  import Sorting

  const SEARCH_DEPTH: nat := 10

  /** What is searched: a branch's reports, older than `beforeId` when that is not 0, and not the commit's own. */
  datatype Search = Search(repo: int, branch: string, beforeId: nat, commit: string)

  ghost predicate Candidate(reports: map<nat, CommitReport>, s: Search, id: nat) {
    id in reports && Qualifies(reports[id], id, s.repo, s.branch, s.beforeId, s.commit)
  }

  ghost function Newer(reports: map<nat, CommitReport>, s: Search, id: nat): set<nat> {
    set j | j in reports && Candidate(reports, s, j) && id < j
  }

  /** The commit has an upload of every one of the parts. */
  ghost predicate Carries(uploads: map<nat, Upload>, key: CommitKey, parts: set<string>) {
    forall p :: p in parts ==> HasPart(uploads, key, p)
  }

  ghost predicate HasPart(uploads: map<nat, Upload>, key: CommitKey, part: string) {
    exists i :: i in uploads && uploads[i].key == key && uploads[i].part == part
  }

  ghost predicate Fits(reports: map<nat, CommitReport>, uploads: map<nat, Upload>, s: Search, parts: set<string>,
      id: nat) {
    Candidate(reports, s, id) && Carries(uploads, reports[id].key, parts)
  }

  /** The newest fitting report among the ten newest candidates, or 0. */
  ghost predicate IsComparable(best: nat, reports: map<nat, CommitReport>, uploads: map<nat, Upload>, s: Search,
      parts: set<string>) {
    if best != 0 then
      && Fits(reports, uploads, s, parts, best)
      && |Newer(reports, s, best)| < SEARCH_DEPTH
      && forall id: nat :: Fits(reports, uploads, s, parts, id) ==> id <= best
    else
      forall id :: Fits(reports, uploads, s, parts, id) ==> |Newer(reports, s, id)| >= SEARCH_DEPTH
  }

  /** What is newer than a newer report is newer than an older one. */
  lemma NewerShrinks(reports: map<nat, CommitReport>, s: Search, a: nat, b: nat)
    requires a <= b
    ensures |Newer(reports, s, b)| <= |Newer(reports, s, a)|
  {
    Sorting.SubsetSize(Newer(reports, s, b), Newer(reports, s, a));
  }

  lemma ComparableIsUnique(a: nat, b: nat, reports: map<nat, CommitReport>, uploads: map<nat, Upload>, s: Search,
      parts: set<string>)
    requires IsComparable(a, reports, uploads, s, parts) && IsComparable(b, reports, uploads, s, parts)
    ensures a == b
  {
  }

  /** A passing build of the branch itself, and not of the commit. */
  predicate IsOtherPassingBuild(r: CommitReport, s: Search) {
    !r.gateFailed && r.prId == "" && r.key.repo == s.repo && r.branch == s.branch
        && (s.commit != "" ==> r.key.sha != s.commit)
  }

  /** The parts of an upload list. */
  ghost function PartSet(uploads: map<nat, Upload>, ids: seq<nat>): set<string>
    requires forall id :: id in ids ==> id in uploads
  {
    set id | id in ids :: uploads[id].part
  }

  lemma PartsAreStored(ids: seq<nat>, uploads: map<nat, Upload>, key: CommitKey)
    requires AreParts(ids, uploads, key)
    ensures forall j :: 0 <= j < |ids| ==> ids[j] in uploads && uploads[ids[j]].key == key
  {
    forall j | 0 <= j < |ids| ensures ids[j] in uploads && uploads[ids[j]].key == key {
      assert ids[j] in ids;
      assert IsLatestOfPart(uploads, key, ids[j]);
    }
  }

  method ContainsPart(uploads: map<nat, Upload>, ids: seq<nat>, part: string) returns (found: bool)
    requires forall j :: 0 <= j < |ids| ==> ids[j] in uploads
    ensures found <==> exists j :: 0 <= j < |ids| && uploads[ids[j]].part == part
  {
    found := false;
    for k := 0 to |ids|
      invariant found <==> exists j :: 0 <= j < k && uploads[ids[j]].part == part
    {
      if uploads[ids[k]].part == part {
        found := true;
      }
    }
  }

  method CarriesAll(store: Store, key: CommitKey, parts: seq<string>) returns (r: bool)
    requires store.Valid()
    ensures r == Carries(store.uploads, key, set p | p in parts)
  {
    var ids := store.LatestUploadsPerPart(key);
    PartsAreStored(ids, store.uploads, key);
    for i := 0 to |parts|
      invariant forall j :: 0 <= j < i ==> HasPart(store.uploads, key, parts[j])
    {
      var found := ContainsPart(store.uploads, ids, parts[i]);
      ContainsIsHas(store.uploads, key, ids, parts[i]);
      if !found {
        return false;
      }
    }
    r := true;
  }

  lemma ContainsIsHas(uploads: map<nat, Upload>, key: CommitKey, ids: seq<nat>, part: string)
    requires forall j :: 0 <= j < |ids| ==> ids[j] in uploads && uploads[ids[j]].key == key
    requires forall i :: i in uploads && uploads[i].key == key ==> ListsPart(uploads, ids, uploads[i].part)
    ensures HasPart(uploads, key, part) <==> exists j :: 0 <= j < |ids| && uploads[ids[j]].part == part
  {
    if HasPart(uploads, key, part) {
      assert ListsPart(uploads, ids, part);
    }
  }

  /** All candidates from `before` on have been passed over; there were `k` of them. */
  ghost predicate Passed(reports: map<nat, CommitReport>, uploads: map<nat, Upload>, s: Search, parts: set<string>,
      before: nat, k: nat) {
    && (k == 0 ==> before == s.beforeId)
    && (k > 0 ==> before > 0 && Candidate(reports, s, before) && |Newer(reports, s, before - 1)| == k)
    && forall id: nat :: Fits(reports, uploads, s, parts, id) ==> k == 0 || id < before
  }

  /** The next candidate below `before`. */
  lemma NextCandidate(reports: map<nat, CommitReport>, uploads: map<nat, Upload>, s: Search, parts: set<string>,
      before: nat, k: nat, latest: nat)
    requires Passed(reports, uploads, s, parts, before, k)
    requires IsLatestReport(latest, reports, s.repo, s.branch, before, s.commit)
    ensures latest != 0 ==>
            Candidate(reports, s, latest) && (k > 0 ==> latest < before) && |Newer(reports, s, latest)| == k
    ensures forall id: nat :: Candidate(reports, s, id) && (k > 0 ==> id < before) ==> id <= latest
  {
    forall id: nat | Candidate(reports, s, id) && (k > 0 ==> id < before) ensures id <= latest {
      assert Qualifies(reports[id], id, s.repo, s.branch, before, s.commit);
    }
    if latest != 0 {
      assert Candidate(reports, s, latest);
      if k == 0 {
        assert Newer(reports, s, latest) == {};
      } else {
        assert Newer(reports, s, latest) == Newer(reports, s, before - 1);
      }
    }
  }

  lemma PassOver(reports: map<nat, CommitReport>, uploads: map<nat, Upload>, s: Search, parts: set<string>, before: nat,
      k: nat, latest: nat)
    requires Passed(reports, uploads, s, parts, before, k) && latest != 0
    requires Candidate(reports, s, latest) && (k > 0 ==> latest < before) && |Newer(reports, s, latest)| == k
    requires forall id: nat :: Candidate(reports, s, id) && (k > 0 ==> id < before) ==> id <= latest
    requires !Carries(uploads, reports[latest].key, parts)
    ensures Passed(reports, uploads, s, parts, latest, k + 1)
  {
    assert Newer(reports, s, latest - 1) == Newer(reports, s, latest) + {latest};
  }

  method ComparableReport(store: Store, s: Search, parts: seq<string>) returns (best: nat)
    requires store.Valid()
    ensures IsComparable(best, store.reports, store.uploads, s, set p | p in parts)
    ensures best != 0 ==>
              && best in store.reports && IsOtherPassingBuild(store.reports[best], s)
              && (s.beforeId > 0 ==> best < s.beforeId)
  {
    ghost var names := set p | p in parts;
    var before := s.beforeId;
    for k := 0 to SEARCH_DEPTH
      invariant Passed(store.reports, store.uploads, s, names, before, k)
    {
      var latest := store.LatestPassedCommitReport(s.repo, s.branch, before, s.commit);
      NextCandidate(store.reports, store.uploads, s, names, before, k, latest);
      if latest == 0 {
        return 0;
      }
      var carries := CarriesAll(store, store.reports[latest].key, parts);
      if carries {
        return latest;
      }
      PassOver(store.reports, store.uploads, s, names, before, k, latest);
      before := latest;
    }
    forall id | Fits(store.reports, store.uploads, s, names, id) ensures |Newer(store.reports, s, id)| >= SEARCH_DEPTH {
      NewerShrinks(store.reports, s, id, before - 1);
    }
    best := 0;
  }

  // ----- the commit's baseline

  /** On the branch, or on the default branch when the branch has none. */
  ghost predicate IsDeltaBase(best: nat, reports: map<nat, CommitReport>, uploads: map<nat, Upload>, s: Search,
      defaultBranch: string, parts: set<string>) {
    || (best != 0 && IsComparable(best, reports, uploads, s, parts))
    || (IsComparable(0, reports, uploads, s, parts)
        && if s.branch != defaultBranch then IsComparable(best, reports, uploads, s.(branch := defaultBranch), parts)
            else best == 0)
  }

  method DeltaBase(store: Store, s: Search, defaultBranch: string, parts: seq<string>) returns (best: nat)
    requires store.Valid()
    ensures IsDeltaBase(best, store.reports, store.uploads, s, defaultBranch, set p | p in parts)
  {
    best := ComparableReport(store, s, parts);
    if best == 0 && s.branch != defaultBranch {
      best := ComparableReport(store, s.(branch := defaultBranch), parts);
    }
  }

  ghost function PartsOf(uploads: map<nat, Upload>, key: CommitKey): set<string> {
    set i | i in uploads && uploads[i].key == key :: uploads[i].part
  }

  /** The baseline of a stored report, among the reports older than it. */
  ghost predicate IsCommitBaseline(best: nat, reports: map<nat, CommitReport>, uploads: map<nat, Upload>, id: nat,
      defaultBranch: string) {
    && id in reports
    && var r := reports[id];
       IsDeltaBase(best, reports, uploads, Search(r.key.repo, r.branch, id, r.key.sha), defaultBranch,
             PartsOf(uploads, r.key))
  }

  lemma NamesAreParts(uploads: map<nat, Upload>, key: CommitKey, ids: seq<nat>, parts: seq<string>)
    requires forall j :: 0 <= j < |ids| ==> ids[j] in uploads && uploads[ids[j]].key == key
    requires forall i :: i in uploads && uploads[i].key == key ==> ListsPart(uploads, ids, uploads[i].part)
    requires |parts| == |ids| && forall j :: 0 <= j < |ids| ==> parts[j] == uploads[ids[j]].part
    ensures (set p | p in parts) == PartsOf(uploads, key)
  {
    forall p | p in PartsOf(uploads, key) ensures p in parts {
      var i :| i in uploads && uploads[i].key == key && uploads[i].part == p;
      assert ListsPart(uploads, ids, p);
      var l :| l in ids && uploads[l].part == p;
      var j :| 0 <= j < |ids| && ids[j] == l;
      assert parts[j] == p;
    }
  }

  method CommitBaseline(store: Store, id: nat, defaultBranch: string) returns (best: nat)
    requires store.Valid() && id in store.reports
    ensures IsCommitBaseline(best, store.reports, store.uploads, id, defaultBranch)
  {
    var r := store.reports[id];
    var ids := store.LatestUploadsPerPart(r.key);
    var parts: seq<string> := [];
    PartsAreStored(ids, store.uploads, r.key);
    for i := 0 to |ids|
      invariant |parts| == i && forall j :: 0 <= j < i ==> parts[j] == store.uploads[ids[j]].part
    {
      parts := parts + [store.uploads[ids[i]].part];
    }
    NamesAreParts(store.uploads, r.key, ids, parts);
    best := DeltaBase(store, Search(r.key.repo, r.branch, id, r.key.sha), defaultBranch, parts);
  }

  // ----- it does not drift

  datatype Rows = Rows(crSeq: nat, reports: map<nat, CommitReport>, uploads: map<nat, Upload>)

  ghost predicate RowsOk(r: Rows) {
    forall id :: id in r.reports ==> 0 < id <= r.crSeq
  }

  /** The commits that had a report at the start. */
  ghost predicate Known(start: Rows, key: CommitKey) {
    exists id :: id in start.reports && start.reports[id].key == key
  }

  /** An upload of a commit that is new since the start, as the store takes it in. */
  ghost predicate NewUpload(start: Rows, r: Rows, r': Rows) {
    exists id: nat, u: Upload :: id !in r.uploads && !Known(start, u.key) && r' == r.(uploads := r.uploads[id := u])
  }

  /** A report of a commit that is new since the start: its first one, or a recompute in place. */
  ghost predicate NewReport(start: Rows, r: Rows, r': Rows) {
    exists id: nat, cr: CommitReport :: !Known(start, cr.key) && StoredAt(r, r', id, cr)
  }

  ghost predicate StoredAt(r: Rows, r': Rows, id: nat, cr: CommitReport) {
    && (if id in r.reports then r.reports[id].key == cr.key && r'.crSeq == r.crSeq else id == r.crSeq + 1 == r'.crSeq)
    && r'.reports == r.reports[id := cr] && r'.uploads == r.uploads
  }

  /** Any number of uploads and reports of new commits. */
  ghost predicate IsHistory(h: seq<Rows>) {
    && h != [] && RowsOk(h[0])
    && forall i :: 0 < i < |h| ==> NewUpload(h[0], Before(h, i), h[i]) || NewReport(h[0], Before(h, i), h[i])
  }

  ghost function Before(h: seq<Rows>, i: int): Rows
    requires 0 < i < |h|
  {
    h[i - 1]
  }

  /** What the start had is untouched: reports up to its newest, and uploads of the commits it knew. */
  ghost predicate Keeps(start: Rows, r: Rows) {
    && start.crSeq <= r.crSeq && RowsOk(r)
    && (forall id :: id in start.reports ==> id in r.reports && r.reports[id] == start.reports[id])
    && (forall id :: id in r.reports && id !in start.reports ==> start.crSeq < id)
    && (forall i :: i in start.uploads ==> i in r.uploads && r.uploads[i] == start.uploads[i])
    && (forall i :: i in r.uploads && Known(start, r.uploads[i].key) ==> i in start.uploads)
  }

  lemma ReportKeeps(start: Rows, r: Rows, r': Rows, id: nat, cr: CommitReport)
    requires Keeps(start, r) && !Known(start, cr.key) && StoredAt(r, r', id, cr)
    ensures Keeps(start, r')
  {
    forall i | i in start.reports ensures Known(start, start.reports[i].key) {
    }
  }

  lemma {:induction false} HistoryKeeps(h: seq<Rows>, n: nat)
    requires IsHistory(h) && n < |h| && RowsOk(h[0])
    ensures Keeps(h[0], h[n])
    decreases n
  {
    if n > 0 {
      HistoryKeeps(h, n - 1);
      assert Before(h, n) == h[n - 1];
      if NewReport(h[0], h[n - 1], h[n]) {
        var id: nat, cr: CommitReport :| !Known(h[0], cr.key) && StoredAt(h[n - 1], h[n], id, cr);
        ReportKeeps(h[0], h[n - 1], h[n], id, cr);
      }
    }
  }

  lemma KeepsParts(start: Rows, r: Rows, key: CommitKey)
    requires Keeps(start, r) && Known(start, key)
    ensures PartsOf(r.uploads, key) == PartsOf(start.uploads, key)
    ensures forall p :: HasPart(r.uploads, key, p) <==> HasPart(start.uploads, key, p)
  {
    forall p ensures HasPart(r.uploads, key, p) <==> HasPart(start.uploads, key, p)
             ensures p in PartsOf(r.uploads, key) <==> p in PartsOf(start.uploads, key) {
      if i :| i in r.uploads && r.uploads[i].key == key && r.uploads[i].part == p {
        assert i in start.uploads;
      }
      if i :| i in start.uploads && start.uploads[i].key == key && start.uploads[i].part == p {
        assert i in r.uploads;
      }
    }
  }

  lemma KeepsComparable(start: Rows, r: Rows, s: Search, parts: set<string>, best: nat)
    requires Keeps(start, r) && RowsOk(start) && 0 < s.beforeId <= start.crSeq
    ensures IsComparable(best, start.reports, start.uploads, s, parts) <==>
            IsComparable(best, r.reports, r.uploads, s, parts)
  {
    forall id ensures Candidate(start.reports, s, id) <==> Candidate(r.reports, s, id) {
    }
    forall id ensures Newer(start.reports, s, id) == Newer(r.reports, s, id) {
      forall j ensures j in Newer(start.reports, s, id) <==> j in Newer(r.reports, s, id) {
        assert Candidate(start.reports, s, j) <==> Candidate(r.reports, s, j);
      }
    }
    forall id ensures Fits(start.reports, start.uploads, s, parts, id) <==> Fits(r.reports, r.uploads, s, parts, id) {
      if Candidate(start.reports, s, id) {
        assert Known(start, start.reports[id].key);
        KeepsParts(start, r, start.reports[id].key);
      }
    }
  }

  /**
    A commit's baseline stays what it was, whatever uploads and reports of new
    commits follow, on its branch, on the default branch, or on any other.
  */
  lemma BaselineDoesNotDrift(h: seq<Rows>, id: nat, defaultBranch: string, best: nat)
    requires IsHistory(h) && id in h[0].reports
    ensures var now := h[|h| - 1];
            IsCommitBaseline(best, h[0].reports, h[0].uploads, id, defaultBranch) <==>
                IsCommitBaseline(best, now.reports, now.uploads, id, defaultBranch)
  {
    var start, now := h[0], h[|h| - 1];
    HistoryKeeps(h, |h| - 1);
    var r := start.reports[id];
    assert Known(start, r.key);
    KeepsParts(start, now, r.key);
    var s, parts := Search(r.key.repo, r.branch, id, r.key.sha), PartsOf(start.uploads, r.key);
    KeepsComparable(start, now, s, parts, best);
    KeepsComparable(start, now, s, parts, 0);
    KeepsComparable(start, now, s.(branch := defaultBranch), parts, best);
  }

  // ----- a baseline counted over some of its parts

  /** The base's newest uploads of these parts. */
  ghost predicate AreNamedParts(ids: seq<nat>, uploads: map<nat, Upload>, key: CommitKey, parts: set<string>) {
    && Sorting.Ordered(ids, Sorting.NatLe) && Sorting.Distinct(ids)
    && forall id :: id in ids <==> IsLatestOfPart(uploads, key, id) && uploads[id].part in parts
  }

  lemma {:induction false} DistinctSize(parts: seq<string>)
    requires Sorting.Distinct(parts)
    ensures |set p | p in parts| == |parts|
  {
    if parts != [] {
      DistinctSize(parts[1..]);
      assert (set p | p in parts) == {parts[0]} + (set p | p in parts[1..]);
    }
  }

  lemma {:induction false} PartSetSize(uploads: map<nat, Upload>, ids: seq<nat>)
    requires forall id :: id in ids ==> id in uploads
    ensures |PartSet(uploads, ids)| <= |ids|
  {
    if ids != [] {
      PartSetSize(uploads, ids[1..]);
      assert PartSet(uploads, ids) == {uploads[ids[0]].part} + PartSet(uploads, ids[1..]);
    }
  }

  /** As many parts named as there are: they are all named. */
  lemma AllPartsNamed(uploads: map<nat, Upload>, ids: seq<nat>, parts: seq<string>)
    requires Sorting.Distinct(parts) && |ids| == |parts| && forall id :: id in ids ==> id in uploads
    requires forall p :: p in parts ==> ListsPart(uploads, ids, p)
    ensures forall id :: id in ids ==> uploads[id].part in parts
  {
    DistinctSize(parts);
    PartSetSize(uploads, ids);
    var names := set p | p in parts;
    var all := PartSet(uploads, ids);
    assert names <= all;
    Sorting.SubsetSize(names, all);
    assert all - names == {};
    forall id | id in ids ensures uploads[id].part in parts {
      assert uploads[id].part in all;
    }
  }

  /** With as many parts as are named, the base's newest uploads are those named. */
  lemma WholeBase(uploads: map<nat, Upload>, key: CommitKey, ids: seq<nat>, parts: seq<string>)
    requires AreParts(ids, uploads, key) && Sorting.Distinct(parts) && |ids| == |parts|
    requires forall p :: p in parts ==> ListsPart(uploads, ids, p)
    ensures AreNamedParts(ids, uploads, key, set p | p in parts)
  {
    AllPartsNamed(uploads, ids, parts);
  }

  method NamedParts(uploads: map<nat, Upload>, ghost key: CommitKey, ids: seq<nat>, parts: seq<string>)
      returns (sub: seq<nat>)
    requires AreParts(ids, uploads, key)
    ensures AreNamedParts(sub, uploads, key, set p | p in parts)
  {
    sub := [];
    PartsAreStored(ids, uploads, key);
    for i := 0 to |ids|
      invariant Sorting.Ordered(sub, Sorting.NatLe) && Sorting.Distinct(sub)
      invariant forall id :: id in sub <==> id in ids[..i] && uploads[id].part in parts
    {
      assert ids[..i + 1] == ids[..i] + [ids[i]];
      assert ids[i] !in ids[..i];
      if uploads[ids[i]].part in parts {
        forall j | 0 <= j < |sub| ensures sub[j] <= ids[i] {
          assert sub[j] in ids[..i];
        }
        sub := sub + [ids[i]];
      }
    }
    assert ids[..|ids|] == ids;
  }

  /** A report's counts are those of its parts. */
  lemma ReportCounts(r: CommitReport, uploads: map<nat, Upload>, ids: seq<nat>)
    requires IsReportOf(r, uploads) && AreParts(ids, uploads, r.key)
    ensures CountsParts(r.covered, r.total, uploads, ids)
  {
    var theirs :| AreParts(theirs, uploads, r.key) && r.partCount == |theirs|
        && CountsParts(r.covered, r.total, uploads, theirs);
    PartsAreUnique(ids, theirs, uploads, r.key);
  }

  ghost predicate CountsNamed(covered: int, total: int, uploads: map<nat, Upload>, key: CommitKey, parts: set<string>) {
    exists ids :: AreNamedParts(ids, uploads, key, parts) && CountsParts(covered, total, uploads, ids)
  }

  /** The base has the named parts and no others. */
  ghost predicate HasNoOthers(uploads: map<nat, Upload>, key: CommitKey, parts: set<string>) {
    PartsOf(uploads, key) == parts
  }

  lemma {:induction false} PartSetIsFull(uploads: map<nat, Upload>, key: CommitKey, ids: seq<nat>)
    requires forall id :: id in ids ==> id in uploads && IsLatestOfPart(uploads, key, id)
    requires Sorting.Distinct(ids)
    ensures |PartSet(uploads, ids)| == |ids|
  {
    if ids != [] {
      assert ids[0] in ids;
      PartSetIsFull(uploads, key, ids[1..]);
      assert PartSet(uploads, ids) == {uploads[ids[0]].part} + PartSet(uploads, ids[1..]);
      forall id | id in ids[1..] ensures uploads[id].part != uploads[ids[0]].part {
        assert id != ids[0] && IsLatestOfPart(uploads, key, id) && IsLatestOfPart(uploads, key, ids[0]);
      }
    }
  }

  /** As many newest uploads as named parts: the named parts are all there are. */
  lemma AsManyAsNamed(uploads: map<nat, Upload>, key: CommitKey, ids: seq<nat>, parts: seq<string>)
    requires AreParts(ids, uploads, key) && Sorting.Distinct(parts)
    requires forall i :: i in uploads && uploads[i].key == key ==> ListsPart(uploads, ids, uploads[i].part)
    requires Carries(uploads, key, set p | p in parts)
    ensures |ids| == |parts| <==> HasNoOthers(uploads, key, set p | p in parts)
  {
    var names := set p | p in parts;
    forall id | id in ids ensures id in uploads && uploads[id].key == key {
      assert IsLatestOfPart(uploads, key, id);
    }
    PartSetIsFull(uploads, key, ids);
    DistinctSize(parts);
    forall p | p in PartsOf(uploads, key) ensures p in PartSet(uploads, ids) {
      assert ListsPart(uploads, ids, p);
    }
    assert PartSet(uploads, ids) == PartsOf(uploads, key);
    forall p | p in names ensures p in PartsOf(uploads, key) {
      assert HasPart(uploads, key, p);
    }
    Sorting.SubsetSize(names, PartsOf(uploads, key));
  }

  /**
    The base over the named parts only. Where it has others, or its report is up
    to date, that is the merge of its newest uploads of those parts; where it has
    no others, it is its stored counts, whatever they are over.
  */
  method TotalOver(store: Store, base: nat, parts: seq<string>) returns (covered: int, total: int)
    requires store.Valid() && base in store.reports
    requires forall id :: id in store.uploads && store.uploads[id].key == store.reports[base].key ==>
             UploadOk(store.uploads[id])
    requires Sorting.Distinct(parts) && Carries(store.uploads, store.reports[base].key, set p | p in parts)
    ensures HasNoOthers(store.uploads, store.reports[base].key, set p | p in parts) ==>
              covered == store.reports[base].covered && total == store.reports[base].total
    ensures !HasNoOthers(store.uploads, store.reports[base].key, set p | p in parts)
            || IsReportOf(store.reports[base], store.uploads) ==>
              CountsNamed(covered, total, store.uploads, store.reports[base].key, set p | p in parts)
  {
    var key := store.reports[base].key;
    var ids := store.LatestUploadsPerPart(key);
    AsManyAsNamed(store.uploads, key, ids, parts);
    if |ids| == |parts| {
      covered, total := store.reports[base].covered, store.reports[base].total;
      forall p | p in parts ensures ListsPart(store.uploads, ids, p) {
        assert p in set q | q in parts;
        assert HasPart(store.uploads, key, p);
      }
      WholeBase(store.uploads, key, ids, parts);
      if IsReportOf(store.reports[base], store.uploads) {
        ReportCounts(store.reports[base], store.uploads, ids);
      }
    } else {
      var sub := NamedParts(store.uploads, key, ids, parts);
      forall id | id in sub ensures id in store.uploads && UploadOk(store.uploads[id]) {
        assert IsLatestOfPart(store.uploads, key, id);
      }
      covered, total := MergedCoverage(store.uploads, sub);
    }
  }
}
