/**
  The push protocol over the store: what its steps do to the rows of one commit,
  and the report those steps leave behind.
*/
module CommitReports {
  import opened CommitStore
  import opened CommitMerge
  import opened PushProtocol
  import opened Options

  // ----- a report is over its own commit's uploads

  function RowsOf(uploads: map<nat, Upload>, key: CommitKey): Rows {
    map i | i in uploads && uploads[i].key == key :: uploads[i]
  }

  lemma SameParts(ids: seq<nat>, uploads: map<nat, Upload>, key: CommitKey)
    ensures AreParts(ids, uploads, key) <==> AreParts(ids, RowsOf(uploads, key), key)
  {
    var rows := RowsOf(uploads, key);
    forall id: nat ensures IsLatestOfPart(uploads, key, id) <==> IsLatestOfPart(rows, key, id) {
      if IsLatestOfPart(rows, key, id) {
        forall i | i in uploads && uploads[i].key == key && uploads[i].part == uploads[id].part ensures i <= id {
          assert i in rows;
        }
      }
      assert forall i :: i in rows ==> i in uploads;
    }
  }

  lemma {:induction false} SamePartFiles(ids: seq<nat>, uploads: map<nat, Upload>, rows: Rows)
    requires forall id :: id in ids ==> id in uploads && id in rows && rows[id] == uploads[id]
    ensures PartFiles(uploads, ids) == PartFiles(rows, ids)
  {
    if ids != [] {
      assert ids[0] in ids;
      SamePartFiles(ids[1..], uploads, rows);
    }
  }

  lemma SameCounts(ids: seq<nat>, uploads: map<nat, Upload>, key: CommitKey)
    requires AreParts(ids, uploads, key)
    ensures AreParts(ids, RowsOf(uploads, key), key)
    ensures PartFiles(uploads, ids) == PartFiles(RowsOf(uploads, key), ids)
  {
    SameParts(ids, uploads, key);
    forall id | id in ids ensures id in uploads && id in RowsOf(uploads, key) {
      assert IsLatestOfPart(uploads, key, id);
    }
    SamePartFiles(ids, uploads, RowsOf(uploads, key));
  }

  /** A report over all uploads is one over its commit's rows. */
  lemma ReportIsOfItsCommit(r: CommitReport, uploads: map<nat, Upload>)
    requires IsReportOf(r, uploads)
    ensures IsReportOf(r, RowsOf(uploads, r.key))
  {
    var ids :| AreParts(ids, uploads, r.key) && r.partCount == |ids| && CountsParts(r.covered, r.total, uploads, ids);
    SameCounts(ids, uploads, r.key);
  }

  // ----- the store's calls are the protocol's steps

  /** The state's rows are the store's, for this commit. */
  ghost predicate Shows(s: State, store: Store, key: CommitKey)
    reads store
  {
    && store.Valid() && s.upSeq == store.upSeq
    && s.rows == RowsOf(store.uploads, key)
    && PushRowOf(s) == store.View(key)
    && (s.stored.Some? ==> HasReport(store, s.stored.value) && s.stored.value.key == key)
  }

  ghost predicate HasReport(store: Store, r: CommitReport)
    reads store
  {
    exists id :: id in store.reports && store.reports[id] == r
  }

  lemma RowsOfMore(uploads: map<nat, Upload>, id: nat, u: Upload)
    requires id !in uploads
    ensures RowsOf(uploads[id := u], u.key) == RowsOf(uploads, u.key)[id := u]
  {
  }

  lemma CreateIsOnTheRow(s: State, t: nat, u: Upload)
    requires Enabled(s, Create(t, u)) && s.upSeq + 1 !in s.rows
    ensures var s', id := Apply(s, Create(t, u)), s.upSeq + 1;
            && PushRowOf(s') == PushRowOf(s).(ids := s.rows.Keys + {id})
            && s'.upSeq == id && s'.rows == s.rows[id := u] && s'.stored == s.stored
  {
  }

  method CreateStep(store: Store, u: Upload, ghost s: State, ghost t: nat) returns (id: nat, ghost e: Event)
    requires Shows(s, store, u.key) && t !in s.tasks
    modifies store`upSeq, store`uploads
    ensures e.Create? && Enabled(s, e) && Stores(s, e, u.key) && Shows(Apply(s, e), store, u.key)
    ensures UploadOk(u) ==> UploadOk(e.upload)
  {
    id := store.CreateUpload(u);
    e := Create(t, store.uploads[id]);
    if UploadOk(u) {
      StoredIsOk(u, id, store.uploads[id].files);
    }
    RowsOfMore(old(store.uploads), id, store.uploads[id]);
    CreateIsOnTheRow(s, t, store.uploads[id]);
  }

  /** The reading half of a recompute: the protocol's lock, and a report over exactly the rows it read. */
  method LockStep(store: Store, trigger: nat, gateFailed: bool, ghost s: State, ghost t: nat) returns (r: CommitReport)
    requires trigger in store.uploads && Shows(s, store, store.uploads[trigger].key)
    requires forall i :: i in s.rows ==> UploadOk(s.rows[i])
    requires Enabled(s, Lock(t)) && s.tasks[t].phase.version == trigger
    ensures var locked := Apply(s, Lock(t));
            Shows(locked, store, r.key) && Enabled(locked, Upsert(t, r)) && Stores(locked, Upsert(t, r), r.key)
    ensures r.key == store.uploads[trigger].key
  {
    ghost var key := store.uploads[trigger].key;
    forall id | id in store.uploads && store.uploads[id].key == key ensures UploadOk(store.uploads[id]) {
      assert id in s.rows && s.rows[id] == store.uploads[id];
    }
    r := BuildReport(store, trigger, gateFailed);
    ReportIsOfItsCommit(r, store.uploads);
  }

  /** The task is cut off, or stores its report. */
  predicate EndsMerging(e: Event, t: nat) {
    e == Abandon(t) || (e.Upsert? && e.task == t)
  }

  /** However many steps come in between, the report built stays the one its task stores. */
  lemma {:induction false} ReportWaits(es: seq<Event>, n: nat, t: nat, r: CommitReport)
    requires IsRun(es) && n <= |es| && IsRun(es[..n])
    requires Enabled(After(es[..n]), Upsert(t, r)) && Stores(After(es[..n]), Upsert(t, r), r.key)
    requires forall i :: n <= i < |es| ==> !EndsMerging(es[i], t)
    ensures Enabled(After(es), Upsert(t, r)) && Stores(After(es), Upsert(t, r), r.key)
    decreases |es|
  {
    if n == |es| {
      assert es[..n] == es;
    } else {
      var before := es[..|es| - 1];
      assert before[..n] == es[..n];
      ReportWaits(before, n, t, r);
      StaysLocked(After(before), es[|es| - 1], t);
    }
  }

  lemma StaysLocked(s: State, e: Event, t: nat)
    requires Enabled(s, e) && t in s.tasks && s.tasks[t].phase.Merging? && !EndsMerging(e, t)
    ensures t in Apply(s, e).tasks && Apply(s, e).tasks[t] == s.tasks[t]
  {
    match e
    case Claim(o) => ClaimStays(s, o);
    case Finish(o) => FinishStays(s, o);
    case _ =>
  }

  /** The storing half, whatever uploads arrived since the rows were read. */
  method UpsertStep(store: Store, r: CommitReport, ghost s: State, ghost t: nat)
    requires Shows(s, store, r.key) && Enabled(s, Upsert(t, r))
    modifies store`crSeq, store`reports
    ensures Shows(Apply(s, Upsert(t, r)), store, r.key)
  {
    var id := store.UpsertCommitReport(r);
    assert HasReport(store, r);
  }

  /** Both halves without a break. */
  method RecomputeStep(store: Store, trigger: nat, gateFailed: bool, ghost s: State, ghost t: nat)
      returns (r: CommitReport)
    requires trigger in store.uploads && Shows(s, store, store.uploads[trigger].key)
    requires forall i :: i in s.rows ==> UploadOk(s.rows[i])
    requires Enabled(s, Lock(t)) && s.tasks[t].phase.version == trigger
    modifies store`crSeq, store`reports
    ensures var locked := Apply(s, Lock(t)); var key := store.uploads[trigger].key;
            Enabled(locked, Upsert(t, r)) && Stores(locked, Upsert(t, r), key)
                && Shows(Apply(locked, Upsert(t, r)), store, key)
  {
    r := LockStep(store, trigger, gateFailed, s, t);
    UpsertStep(store, r, Apply(s, Lock(t)), t);
  }

  /** On the commit's row a claim is the row's claim, and on its other rows nothing. */
  lemma ClaimIsOnTheRow(s: State, t: nat)
    requires Enabled(s, Claim(t))
    ensures var s' := Apply(s, Claim(t));
            var (row, claim) := ClaimRow(PushRowOf(s), s.tasks[t].phase.version, s.now, PUSH_LEASE);
            && PushRowOf(s') == row && (IsGrant(s, Claim(t)) <==> claim.Granted?)
            && s'.upSeq == s.upSeq && s'.rows == s.rows && s'.stored == s.stored
  {
  }

  lemma FinishIsOnTheRow(s: State, t: nat)
    requires Enabled(s, Finish(t))
    ensures var s', p := Apply(s, Finish(t)), s.tasks[t].phase;
            var (row, again) := FinishRow(PushRowOf(s), p.version, p.token, p.pushed);
            && PushRowOf(s') == row && (GoesAgain(s, t) <==> again)
            && s'.upSeq == s.upSeq && s'.rows == s.rows && s'.stored == s.stored
  {
  }

  method ClaimStep(store: Store, key: CommitKey, version: nat, now: Time, ghost s: State, ghost t: nat)
      returns (claim: PushClaim)
    requires Shows(s, store, key) && Enabled(s, Claim(t)) && s.tasks[t].phase.version == version && s.now == now
    modifies store`crLease
    ensures Shows(Apply(s, Claim(t)), store, key)
    ensures claim.Granted? <==> IsGrant(s, Claim(t))
  {
    ClaimIsOnTheRow(s, t);
    claim := store.ClaimPush(key, version, now, PUSH_LEASE);
  }

  method FinishStep(store: Store, key: CommitKey, ghost s: State, ghost t: nat, version: nat, token: Time, pushed: bool)
      returns (again: bool)
    requires Shows(s, store, key) && Enabled(s, Finish(t)) && s.tasks[t].phase == Posted(version, token, pushed)
    modifies store`crLease, store`crStatus
    ensures Shows(Apply(s, Finish(t)), store, key)
    ensures again <==> GoesAgain(s, t)
  {
    FinishIsOnTheRow(s, t);
    again := store.FinishPush(key, version, token, pushed);
  }

  // ----- runs over the store

  /** As the pipeline does it: it creates the commit's own uploads, and stores a report over the rows it read. */
  ghost predicate Stores(s: State, e: Event, key: CommitKey)
    requires Enabled(s, e)
  {
    && (e.Create? ==> e.upload.key == key)
    && (e.Upsert? ==>
          var p := s.tasks[e.task].phase;
          e.stored.key == key && e.stored.uploadId == p.version && IsReportOf(e.stored, p.content))
  }

  ghost predicate IsCommitRun(es: seq<Event>, key: CommitKey)
    decreases |es|
  {
    && IsRun(es)
    && (es == [] || (IsCommitRun(es[..|es| - 1], key) && Stores(After(es[..|es| - 1]), es[|es| - 1], key)))
  }

  /** The stored report is the commit's, over the rows it was merged from. */
  ghost predicate ReportOk(s: State, key: CommitKey) {
    && (s.stored.Some? <==> s.report.Some?)
    && (s.stored.Some? ==> s.stored.value.key == key && IsReportOf(s.stored.value, s.report.value))
    && forall i :: i in s.rows ==> s.rows[i].key == key
  }

  lemma StepKeepsReport(s: State, e: Event, key: CommitKey)
    requires ReportOk(s, key) && Enabled(s, e) && Stores(s, e, key)
    ensures ReportOk(Apply(s, e), key)
  {
    match e
    case Create(_, _) =>
    case Upsert(_, _) =>
    case _ => OtherStepsKeepReport(s, e);
  }

  lemma OtherStepsKeepReport(s: State, e: Event)
    requires Enabled(s, e) && !e.Create? && !e.Upsert?
    ensures Apply(s, e).rows == s.rows && Apply(s, e).stored == s.stored && Apply(s, e).report == s.report
  {
    match e
    case Claim(t) => ClaimStays(s, t);
    case Finish(t) => FinishStays(s, t);
    case _ =>
  }

  lemma {:induction false} RunKeepsReport(es: seq<Event>, key: CommitKey)
    requires IsCommitRun(es, key)
    ensures ReportOk(After(es), key)
    decreases |es|
  {
    if es != [] {
      RunKeepsReport(es[..|es| - 1], key);
      StepKeepsReport(After(es[..|es| - 1]), es[|es| - 1], key);
    }
  }

  /**
    In any run, once the commit's recomputes are done and the newest one was not
    cut off, the stored report has as many parts as the commit, and the counts of
    the merge of every part's newest upload.
  */
  lemma StoredReportMergesEveryPart(es: seq<Event>, key: CommitKey, ids: seq<nat>, out: seq<UploadFile>)
    requires IsCommitRun(es, key)
    requires var s := After(es);
             && s.unmerged < s.newest
             && (forall t :: t in s.tasks ==> !s.tasks[t].phase.Pending? && !s.tasks[t].phase.Merging?)
             && AreParts(ids, s.rows, key) && IsMergeOfRows(out, PartFiles(s.rows, ids))
    ensures var r := After(es).stored;
            r.Some? && r.value.key == key && r.value.partCount == |ids| && r.value.covered == SumCovered(out)
                && r.value.total == SumTotal(out)
  {
    NoPartIsLost(es);
    RunKeepsReport(es, key);
    var r, rows := After(es).stored.value, After(es).rows;
    var theirs :| AreParts(theirs, rows, key) && r.partCount == |theirs|
        && CountsParts(r.covered, r.total, rows, theirs);
    PartsAreUnique(ids, theirs, rows, key);
  }
}
