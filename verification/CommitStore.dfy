/** The store's rows for uploads, merged reports and push leases. */
module CommitStore {
  import Sorting
  import opened Profile

  type Time = nat

  const SECOND: nat := 1_000_000_000

  datatype CommitKey = CommitKey(repo: int, sha: string)

  /** One file of an upload, with the counts stored beside its blocks. */
  datatype UploadFile = UploadFile(path: string, uploadId: nat, covered: int, total: int, blocks: seq<Block>)

  /** An upload of one part of a commit, with its files. */
  datatype Upload = Upload(key: CommitKey, part: string, branch: string, prId: string, covered: int, total: int,
      files: seq<UploadFile>)

  datatype CommitReport = CommitReport(key: CommitKey, branch: string, prId: string, gateFailed: bool, covered: int,
      total: int, partCount: nat, uploadId: nat)

  /**
    What a commit's push reads and writes: whether it has a report, its upload ids, its lease (0: none) and its recorded
    version.
  */
  datatype PushRow = PushRow(reported: bool, ids: set<nat>, lease: Time, status: nat)

  datatype PushClaim = Superseded | Queued | Granted(token: Time)

  function ClaimRow(c: PushRow, version: nat, now: Time, lease: nat): (PushRow, PushClaim) {
    if !c.reported || version < c.status then (c, Superseded)
    else if now < c.lease then (c, Queued)
    else (c.(lease := now + lease), Granted(now + lease))
  }

  function FinishRow(c: PushRow, version: nat, token: Time, pushed: bool): (PushRow, bool) {
    if !c.reported then (c, false)
    else
      var c' := if pushed && c.status < version then c.(status := version) else c;
      if c'.lease != token then (c', false)
      else (c'.(lease := 0), exists id :: id in c.ids && version < id)
  }

  predicate PathLe(a: UploadFile, b: UploadFile) {
    Sorting.StringLe(a.path, b.path)
  }

  function Stamped(files: seq<UploadFile>, id: nat): seq<UploadFile> {
    if files == [] then [] else [files[0].(uploadId := id)] + Stamped(files[1..], id)
  }

  /** The newest upload of its part. */
  ghost predicate IsLatestOfPart(uploads: map<nat, Upload>, key: CommitKey, id: nat) {
    && id in uploads && uploads[id].key == key
    && forall i :: i in uploads && uploads[i].key == key && uploads[i].part == uploads[id].part ==> i <= id
  }

  ghost predicate ListsPart(uploads: map<nat, Upload>, ids: seq<nat>, part: string) {
    exists id :: id in ids && id in uploads && uploads[id].part == part
  }

  /** Which reports a baseline may be taken from; 0 puts no bound on the id. */
  predicate Qualifies(r: CommitReport, id: nat, repo: int, branch: string, beforeId: nat, excluded: string) {
    && r.key.repo == repo && r.branch == branch && !r.gateFailed && r.prId == ""
    && !(excluded != "" && r.key.sha == excluded)
    && !(beforeId > 0 && id >= beforeId)
  }

  /** The newest qualifying report's id, or 0 when there is none. */
  ghost predicate IsLatestReport(best: nat, reports: map<nat, CommitReport>, repo: int, branch: string, beforeId: nat,
      excluded: string) {
    && (best != 0 ==> best in reports && Qualifies(reports[best], best, repo, branch, beforeId, excluded))
    && (forall id :: id in reports && Qualifies(reports[id], id, repo, branch, beforeId, excluded) ==> id <= best)
  }

  ghost predicate IsLatestSeen(uploads: map<nat, Upload>, key: CommitKey, seen: seq<nat>, part: string, id: nat) {
    && id in seen && id in uploads && uploads[id].key == key && uploads[id].part == part
    && forall i :: i in seen && i in uploads && uploads[i].key == key && uploads[i].part == part ==> i <= id
  }

  /** For each part among the uploads seen, the newest of them. */
  ghost predicate AreLatest(latest: map<string, nat>, uploads: map<nat, Upload>, key: CommitKey, seen: seq<nat>) {
    && (forall p :: p in latest ==> IsLatestSeen(uploads, key, seen, p, latest[p]))
    && (forall i :: i in seen && i in uploads && uploads[i].key == key ==> uploads[i].part in latest)
  }

  function IdsOf(uploads: map<nat, Upload>, key: CommitKey): set<nat> {
    set id | id in uploads && uploads[id].key == key
  }

  /** A new upload is among its own commit's ids only. */
  lemma IdsOfMore(uploads: map<nat, Upload>, id: nat, u: Upload)
    requires id !in uploads
    ensures IdsOf(uploads[id := u], u.key) == IdsOf(uploads, u.key) + {id}
    ensures forall k :: k != u.key ==> IdsOf(uploads[id := u], k) == IdsOf(uploads, k)
  {
  }

  lemma LatestOneMore(latest: map<string, nat>, uploads: map<nat, Upload>, key: CommitKey, seen: seq<nat>, id: nat)
    requires AreLatest(latest, uploads, key, seen) && id in uploads
    ensures var u := uploads[id];
            var newer := u.key == key && (u.part !in latest || id > latest[u.part]);
            AreLatest(if newer then latest[u.part := id] else latest, uploads, key, seen + [id])
  {
    assert forall i :: i in seen + [id] <==> i in seen || i == id;
  }

  lemma LatestAreDistinct(latest: map<string, nat>, uploads: map<nat, Upload>, key: CommitKey, all: seq<nat>)
    requires AreLatest(latest, uploads, key, all)
    ensures forall p, q :: p in latest && q in latest && p != q ==> latest[p] != latest[q]
  {
    forall p | p in latest ensures latest[p] in uploads && uploads[latest[p]].part == p {
      assert IsLatestSeen(uploads, key, all, p, latest[p]);
    }
  }

  lemma LatestAreParts(latest: map<string, nat>, uploads: map<nat, Upload>, key: CommitKey, all: seq<nat>,
      ids: seq<nat>)
    requires AreLatest(latest, uploads, key, all) && forall i :: i in uploads ==> i in all
    requires forall id :: id in ids <==> exists p :: p in latest && latest[p] == id
    ensures forall id :: id in ids <==> IsLatestOfPart(uploads, key, id)
    ensures forall i :: i in uploads && uploads[i].key == key ==> ListsPart(uploads, ids, uploads[i].part)
  {
    forall id ensures id in ids <==> IsLatestOfPart(uploads, key, id) {
      if id in ids {
        var p :| p in latest && latest[p] == id;
        assert IsLatestSeen(uploads, key, all, p, id);
      }
      if IsLatestOfPart(uploads, key, id) {
        assert IsLatestSeen(uploads, key, all, uploads[id].part, latest[uploads[id].part]);
      }
    }
    forall i | i in uploads && uploads[i].key == key ensures ListsPart(uploads, ids, uploads[i].part) {
      var p := uploads[i].part;
      assert IsLatestSeen(uploads, key, all, p, latest[p]) && latest[p] in ids;
    }
  }

  class Store {
    var upSeq: nat
    var crSeq: nat
    var uploads: map<nat, Upload>
    var reports: map<nat, CommitReport>
    var crLease: map<CommitKey, Time>
    var crStatus: map<CommitKey, nat>

    ghost predicate Valid()
      reads this
    {
      && (forall id :: id in uploads ==> 0 < id <= upSeq)
      && (forall id :: id in reports ==> 0 < id <= crSeq)
      && (forall a, b :: a in reports && b in reports && reports[a].key == reports[b].key ==> a == b)
    }

    constructor ()
      ensures Valid() && uploads == map[] && reports == map[]
      ensures forall key :: View(key) == PushRow(false, {}, 0, 0)
    {
      upSeq, crSeq := 0, 0;
      uploads, reports, crLease, crStatus := map[], map[], map[], map[];
    }

    ghost predicate Reported(key: CommitKey)
      reads this
    {
      exists id :: id in reports && reports[id].key == key
    }

    function Ids(key: CommitKey): set<nat>
      reads this
    {
      IdsOf(uploads, key)
    }

    /** What the push protocol sees of one commit. */
    ghost function View(key: CommitKey): PushRow
      reads this
    {
      PushRow(Reported(key), Ids(key),
              if key in crLease then crLease[key] else 0, if key in crStatus then crStatus[key] else 0)
    }

    /** Stores an upload under the next id, its files stamped with that id and sorted by path. */
    method CreateUpload(u: Upload) returns (id: nat)
      requires Valid()
      modifies this`upSeq, this`uploads
      ensures Valid() && id == old(upSeq) + 1 == upSeq && id !in old(uploads)
      ensures id in uploads && uploads == old(uploads)[id := u.(files := uploads[id].files)]
      ensures Sorting.IsSortOf(uploads[id].files, Stamped(u.files, id), PathLe)
      ensures View(u.key) == old(View(u.key)).(ids := old(Ids(u.key)) + {id})
      ensures forall k :: k != u.key ==> View(k) == old(View(k))
    {
      upSeq := upSeq + 1;
      id := upSeq;
      var sorted := SortFiles(Stamped(u.files, id));
      uploads := uploads[id := u.(files := sorted)];
      SameReports();
      IdsOfMore(old(uploads), id, uploads[id]);
    }

    /** The newest upload of every part of a commit, oldest first. */
    method LatestUploadsPerPart(key: CommitKey) returns (ids: seq<nat>)
      requires Valid()
      ensures Sorting.Ordered(ids, Sorting.NatLe) && Sorting.Distinct(ids)
      ensures forall id :: id in ids <==> IsLatestOfPart(uploads, key, id)
      ensures forall i :: i in uploads && uploads[i].key == key ==> ListsPart(uploads, ids, uploads[i].part)
    {
      var latest, all := LatestByPart(key);
      LatestAreDistinct(latest, uploads, key, all);
      ids := SortedValues(latest);
      LatestAreParts(latest, uploads, key, all, ids);
    }

    /** The newest upload of each part, with the ids of all uploads it was taken from. */
    method LatestByPart(key: CommitKey) returns (latest: map<string, nat>, all: seq<nat>)
      ensures AreLatest(latest, uploads, key, all) && forall i :: i in uploads ==> i in all
    {
      latest := map[];
      all := Sorting.Keys(uploads);
      ghost var seen: seq<nat> := [];
      for i := 0 to |all|
        invariant seen == all[..i] && AreLatest(latest, uploads, key, seen)
      {
        Sorting.OneMore(all, i);
        latest := TakeLatest(latest, key, all[i], seen);
        seen := seen + [all[i]];
      }
      assert all[..|all|] == all;
    }

    method TakeLatest(start: map<string, nat>, key: CommitKey, id: nat, ghost seen: seq<nat>)
      returns (latest: map<string, nat>)
      requires AreLatest(start, uploads, key, seen) && id in uploads
      ensures AreLatest(latest, uploads, key, seen + [id])
    {
      latest := start;
      LatestOneMore(latest, uploads, key, seen, id);
      var u := uploads[id];
      if u.key == key && (u.part !in latest || id > latest[u.part]) {
        latest := latest[u.part := id];
      }
    }

    /** One report a commit: the first keeps its id through every recompute. */
    method UpsertCommitReport(r: CommitReport) returns (id: nat)
      requires Valid()
      modifies this`crSeq, this`reports
      ensures Valid() && reports == old(reports)[id := r]
      ensures old(Reported(r.key)) ==> id in old(reports) && old(reports[id]).key == r.key && crSeq == old(crSeq)
      ensures !old(Reported(r.key)) ==> id == old(crSeq) + 1 == crSeq && id !in old(reports)
      ensures View(r.key) == old(View(r.key)).(reported := true)
      ensures forall k :: k != r.key ==> View(k) == old(View(k))
    {
      id := FindReport(r.key);
      if id == 0 {
        crSeq := crSeq + 1;
        id := crSeq;
      }
      reports := reports[id := r];
      forall k ensures Reported(k) <==> k == r.key || old(Reported(k)) {
        if k != r.key && old(Reported(k)) {
          ghost var i :| i in old(reports) && old(reports[i]).key == k;
          assert i in reports && reports[i].key == k;
        }
        assert id in reports && reports[id].key == r.key;
      }
    }

    /** The id of a commit's report, or 0. */
    method FindReport(key: CommitKey) returns (id: nat)
      requires Valid()
      ensures Reported(key) <==> id != 0
      ensures id != 0 ==> id in reports && reports[id].key == key
    {
      var ids := Sorting.Keys(reports);
      for i := 0 to |ids|
        invariant forall j :: 0 <= j < i ==> reports[ids[j]].key != key
      {
        if reports[ids[i]].key == key {
          return ids[i];
        }
      }
      id := 0;
    }

    method LatestPassedCommitReport(repo: int, branch: string, beforeId: nat, excluded: string) returns (latest: nat)
      requires Valid()
      ensures IsLatestReport(latest, reports, repo, branch, beforeId, excluded)
    {
      latest := 0;
      var ids := Sorting.Keys(reports);
      for i := 0 to |ids|
        invariant latest != 0 ==>
                  latest in reports && Qualifies(reports[latest], latest, repo, branch, beforeId, excluded)
        invariant forall j :: 0 <= j < i && Qualifies(reports[ids[j]], ids[j], repo, branch, beforeId, excluded) ==>
                  ids[j] <= latest
      {
        if Qualifies(reports[ids[i]], ids[i], repo, branch, beforeId, excluded) && (latest == 0 || ids[i] > latest) {
          latest := ids[i];
        }
      }
    }

    /** Takes the push lease for a version, unless that is superseded or another push holds it. */
    method ClaimPush(key: CommitKey, version: nat, now: Time, lease: nat) returns (claim: PushClaim)
      requires Valid()
      modifies this`crLease
      ensures Valid() && (View(key), claim) == ClaimRow(old(View(key)), version, now, lease)
      ensures forall k :: k != key ==> View(k) == old(View(k))
    {
      var report := FindReport(key);
      var status := if key in crStatus then crStatus[key] else 0;
      if report == 0 || version < status {
        return Superseded;
      }
      if key in crLease && now < crLease[key] {
        return Queued;
      }
      crLease := crLease[key := now + lease];
      SameReportsAndIds();
      assert View(key) == old(View(key)).(lease := now + lease);
      return Granted(crLease[key]);
    }

    method RecordVersion(key: CommitKey, version: nat)
      modifies this`crStatus
      ensures var was := old(View(key)); View(key) == if was.status < version then was.(status := version) else was
      ensures forall k :: k != key ==> View(k) == old(View(k))
    {
      if version > (if key in crStatus then crStatus[key] else 0) {
        crStatus := crStatus[key := version];
      }
      SameReportsAndIds();
    }

    method Release(key: CommitKey)
      modifies this`crLease
      ensures View(key) == old(View(key)).(lease := 0)
      ensures forall k :: k != key ==> View(k) == old(View(k))
    {
      crLease := crLease - {key};
      SameReportsAndIds();
    }

    twostate lemma SameReports()
      requires reports == old(reports)
      ensures forall k :: Reported(k) == old(Reported(k))
    {
      forall k ensures Reported(k) == old(Reported(k)) {
        if old(Reported(k)) {
          var id :| id in old(reports) && old(reports)[id].key == k;
          assert id in reports && reports[id].key == k;
        }
        if Reported(k) {
          var id :| id in reports && reports[id].key == k;
          assert id in old(reports) && old(reports)[id].key == k;
        }
      }
    }

    /** Leases and versions are no part of what else a commit's row shows. */
    twostate lemma SameReportsAndIds()
      requires reports == old(reports) && uploads == old(uploads)
      ensures forall k :: Reported(k) == old(Reported(k)) && Ids(k) == old(Ids(k))
    {
      SameReports();
      forall k ensures Ids(k) == old(Ids(k)) {
      }
    }

    /** Records a pushed version, which only rises, and releases the lease if it is still the caller's. */
    method FinishPush(key: CommitKey, version: nat, token: Time, pushed: bool) returns (again: bool)
      requires Valid()
      modifies this`crLease, this`crStatus
      ensures Valid() && (View(key), again) == FinishRow(old(View(key)), version, token, pushed)
      ensures forall k :: k != key ==> View(k) == old(View(k))
    {
      var report := FindReport(key);
      if report == 0 {
        return false;
      }
      if pushed {
        RecordVersion(key, version);
      }
      if (if key in crLease then crLease[key] else 0) != token {
        return false;
      }
      Release(key);
      again := HasNewer(key, version);
    }

    method HasNewer(key: CommitKey, version: nat) returns (newer: bool)
      ensures newer <==> exists id :: id in Ids(key) && version < id
    {
      var ids := Sorting.Keys(uploads);
      for i := 0 to |ids|
        invariant forall j :: 0 <= j < i ==> !(uploads[ids[j]].key == key && version < ids[j])
      {
        if uploads[ids[i]].key == key && ids[i] > version {
          assert ids[i] in Ids(key);
          return true;
        }
      }
      newer := false;
    }
  }

  method SortFiles(files: seq<UploadFile>) returns (sorted: seq<UploadFile>)
    ensures Sorting.IsSortOf(sorted, files, PathLe)
  {
    Sorting.StringOrder();
    Sorting.SortSorts(files, PathLe);
    sorted := Sorting.Sort(files, PathLe);
  }

  method SortedValues(m: map<string, nat>) returns (ids: seq<nat>)
    requires forall p, q :: p in m && q in m && p != q ==> m[p] != m[q]
    ensures Sorting.Ordered(ids, Sorting.NatLe) && Sorting.Distinct(ids)
    ensures forall id :: id in ids <==> exists p :: p in m && m[p] == id
  {
    var keys := Sorting.Keys(m);
    var all: seq<nat> := [];
    for i := 0 to |keys|
      invariant |all| == i && forall j :: 0 <= j < i ==> all[j] == m[keys[j]]
    {
      all := all + [m[keys[i]]];
    }
    Sorting.NatOrder();
    Sorting.SortSorts(all, Sorting.NatLe);
    ids := Sorting.Sort(all, Sorting.NatLe);
    Sorting.SameElements(ids, all);
    Sorting.SameDistinct(ids, all);
    forall id ensures id in ids <==> exists p :: p in m && m[p] == id {
      if id in ids {
        var j :| 0 <= j < |all| && all[j] == id;
      }
      if p :| p in m && m[p] == id {
        var j :| 0 <= j < |keys| && keys[j] == p;
        assert all[j] == id;
      }
    }
  }
}
