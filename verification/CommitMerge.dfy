/**
  Merging the parts of a commit: files of several uploads into one list, by a
  shortcut that never changes the answer, and the totals a merged report is
  stored with.
*/
module CommitMerge {
  import opened Profile
  import opened ProfileMerge
  import opened CommitStore
  import Sorting

  // ----- what merged files are

  function ProfileOf(rows: seq<UploadFile>): (files: seq<File>)
    ensures |files| == |rows| && forall i :: 0 <= i < |rows| ==> files[i] == File(rows[i].path, rows[i].blocks)
  {
    if rows == [] then [] else [File(rows[0].path, rows[0].blocks)] + ProfileOf(rows[1..])
  }

  /** The counts stored beside the blocks are theirs. */
  predicate CountsMatch(f: UploadFile) {
    f.covered == CoveredStmts(f.blocks) && f.total == TotalStmts(f.blocks)
  }

  /** The newest upload that reported the path. */
  ghost predicate IsOwner(id: nat, rows: seq<UploadFile>, path: string) {
    && (exists f :: f in rows && f.path == path && f.uploadId == id)
    && (forall f :: f in rows && f.path == path ==> f.uploadId <= id)
  }

  ghost predicate IsMergedRow(o: UploadFile, rows: seq<UploadFile>) {
    CountsMatch(o) && IsOwner(o.uploadId, rows, o.path)
  }

  ghost predicate IsMergeOfRows(out: seq<UploadFile>, rows: seq<UploadFile>) {
    && IsMerge(ProfileOf(out), Entries(ProfileOf(rows)), PathsOf(ProfileOf(rows)))
    && (forall o :: o in out ==> IsMergedRow(o, rows))
  }

  /** There is one merge of the rows, so the shortcut and the full merge agree wherever both are one. */
  lemma MergedRowsAreUnique(a: seq<UploadFile>, b: seq<UploadFile>, rows: seq<UploadFile>)
    requires IsMergeOfRows(a, rows) && IsMergeOfRows(b, rows)
    ensures a == b
  {
    MergeIsUnique(ProfileOf(a), ProfileOf(b), Entries(ProfileOf(rows)), PathsOf(ProfileOf(rows)));
    forall i | 0 <= i < |a| ensures a[i] == b[i] {
      assert ProfileOf(a)[i] == ProfileOf(b)[i];
      assert a[i] in a && b[i] in b;
      assert IsMergedRow(a[i], rows) && IsMergedRow(b[i], rows);
      SameOwner(a[i].uploadId, b[i].uploadId, rows, a[i].path);
    }
  }

  lemma SameOwner(i: nat, j: nat, rows: seq<UploadFile>, path: string)
    requires IsOwner(i, rows, path) && IsOwner(j, rows, path)
    ensures i == j
  {
  }

  // ----- merging in full

  /** Covered and total statements of a file, block by block. */
  method Coverage(blocks: seq<Block>) returns (covered: int, total: int)
    ensures covered == CoveredStmts(blocks) && total == TotalStmts(blocks)
  {
    covered, total := 0, 0;
    for i := 0 to |blocks|
      invariant covered + CoveredStmts(blocks[i..]) == CoveredStmts(blocks)
      invariant total + TotalStmts(blocks[i..]) == TotalStmts(blocks)
    {
      var b := blocks[i];
      assert blocks[i..][1..] == blocks[i + 1..];
      total := total + b.numStmts;
      if b.count > 0 {
        covered := covered + b.numStmts;
      }
    }
  }

  method NewUploadFile(f: File, uploadId: nat) returns (row: UploadFile)
    ensures row.path == f.path && row.blocks == f.blocks && row.uploadId == uploadId && CountsMatch(row)
  {
    var c, t := Coverage(f.blocks);
    row := UploadFile(f.path, uploadId, c, t, f.blocks);
  }

  method MergeAll(rows: seq<UploadFile>) returns (out: seq<UploadFile>)
    ensures IsMergeOfRows(out, rows)
  {
    var owner, all := Owners(rows);
    Sorting.JoinOne(all, AsFiles());
    var merged := Merge([all]);
    forall f | f in merged ensures f.path in owner {
      assert HasPath(merged, f.path);
      InPaths(rows, f.path);
    }
    out := OwnedRows(merged, owner, rows);
  }

  /** The merged files as rows, each its path's owner's. */
  method OwnedRows(merged: seq<File>, owner: map<string, nat>, ghost rows: seq<UploadFile>)
      returns (out: seq<UploadFile>)
    requires AreOwners(owner, rows) && forall f :: f in merged ==> f.path in owner
    ensures ProfileOf(out) == merged && forall o :: o in out ==> IsMergedRow(o, rows)
  {
    out := [];
    for i := 0 to |merged|
      invariant |out| == i && forall j :: 0 <= j < i ==> File(out[j].path, out[j].blocks) == merged[j]
      invariant forall j :: 0 <= j < i ==> IsMergedRow(out[j], rows)
    {
      var o := NewUploadFile(merged[i], owner[merged[i].path]);
      out := out + [o];
    }
  }

  ghost predicate AreOwners(owner: map<string, nat>, rows: seq<UploadFile>) {
    && (forall p :: p in owner ==> IsOwner(owner[p], rows, p))
    && (forall f :: f in rows ==> f.path in owner)
  }

  lemma OwnerOneMore(owner: map<string, nat>, rows: seq<UploadFile>, f: UploadFile, id: nat)
    requires AreOwners(owner, rows)
    requires id == if f.path in owner && owner[f.path] > f.uploadId then owner[f.path] else f.uploadId
    ensures AreOwners(owner[f.path := id], rows + [f])
  {
    var more := owner[f.path := id];
    assert f in rows + [f];
    forall p | p in more ensures IsOwner(more[p], rows + [f], p) {
      if p in owner {
        var g :| g in rows && g.path == p && g.uploadId == owner[p];
        assert g in rows + [f];
      }
    }
  }

  method AddOwner(owner: map<string, nat>, f: UploadFile, ghost done: seq<UploadFile>) returns (more: map<string, nat>)
    requires AreOwners(owner, done)
    ensures AreOwners(more, done + [f])
  {
    var id := if f.path in owner && owner[f.path] > f.uploadId then owner[f.path] else f.uploadId;
    OwnerOneMore(owner, done, f, id);
    more := owner[f.path := id];
  }

  lemma ProfileOneMore(rows: seq<UploadFile>, f: UploadFile)
    ensures ProfileOf(rows + [f]) == ProfileOf(rows) + [File(f.path, f.blocks)]
  {
  }

  /** Every path's newest upload, and the rows as one profile. */
  method Owners(rows: seq<UploadFile>) returns (owner: map<string, nat>, all: seq<File>)
    ensures all == ProfileOf(rows) && AreOwners(owner, rows)
  {
    owner := map[];
    all := [];
    ghost var done: seq<UploadFile> := [];
    for i := 0 to |rows|
      invariant done == rows[..i]
      invariant all == ProfileOf(done)
      invariant AreOwners(owner, done)
    {
      var f := rows[i];
      Sorting.OneMore(rows, i);
      ProfileOneMore(done, f);
      owner := AddOwner(owner, f, done);
      all := all + [File(f.path, f.blocks)];
      done := done + [f];
    }
    assert rows[..|rows|] == rows;
  }

  // ----- the shortcut

  /** Files sorted by path that are their own merge: each path once, blocks as a merge leaves them. */
  ghost predicate OwnMerge(sorted: seq<UploadFile>) {
    && Sorting.Rising(ProfileOf(sorted), PathLess)
    && forall f :: f in sorted ==> Sorting.Rising(f.blocks, PosLess)
  }

  method CanonicalFiles(sorted: seq<UploadFile>) returns (r: bool)
    requires Sorting.Ordered(sorted, PathLe)
    ensures r == OwnMerge(sorted)
  {
    for i := 0 to |sorted|
      invariant forall j :: 0 <= j < i ==> Sorting.Rising(sorted[j].blocks, PosLess)
      invariant forall j, k :: 0 <= j < k < i ==> sorted[j].path != sorted[k].path
    {
      if i > 0 && sorted[i].path == sorted[i - 1].path {
        EqualPathsDoNotRise(sorted, i);
        return false;
      }
      var canonical := Canonical(sorted[i].blocks);
      if !canonical {
        assert sorted[i] in sorted;
        return false;
      }
      forall j | 0 <= j < i ensures sorted[j].path != sorted[i].path {
        NotEqualPastNeighbour(sorted, i, j);
      }
    }
    DifferentPathsRise(sorted);
    return true;
  }

  lemma EqualPathsDoNotRise(sorted: seq<UploadFile>, i: nat)
    requires 0 < i < |sorted| && sorted[i].path == sorted[i - 1].path
    ensures !OwnMerge(sorted)
  {
    assert !PathLess(ProfileOf(sorted)[i - 1], ProfileOf(sorted)[i]);
  }

  lemma DifferentPathsRise(sorted: seq<UploadFile>)
    requires Sorting.Ordered(sorted, PathLe)
    requires forall j, k :: 0 <= j < k < |sorted| ==> sorted[j].path != sorted[k].path
    ensures Sorting.Rising(ProfileOf(sorted), PathLess)
  {
    forall j, k | 0 <= j < k < |sorted| ensures PathLess(ProfileOf(sorted)[j], ProfileOf(sorted)[k]) {
      assert PathLe(sorted[j], sorted[k]);
    }
  }

  lemma NotEqualPastNeighbour(sorted: seq<UploadFile>, i: nat, j: nat)
    requires Sorting.Ordered(sorted, PathLe) && j < i < |sorted|
    requires sorted[i].path != sorted[i - 1].path
    ensures sorted[j].path != sorted[i].path
  {
    Sorting.StringOrder();
    assert PathLe(sorted[i - 1], sorted[i]);
    assert j < i - 1 ==> PathLe(sorted[j], sorted[i - 1]);
  }

  /** Canonical files of one upload are the merge of any rearrangement of themselves. */
  lemma OwnMergeIsMerge(sorted: seq<UploadFile>, rows: seq<UploadFile>)
    requires OwnMerge(sorted) && multiset(sorted) == multiset(rows)
    requires forall f :: f in rows ==> f.uploadId == rows[0].uploadId && CountsMatch(f)
    ensures IsMergeOfRows(sorted, rows)
  {
    var out, all := ProfileOf(sorted), ProfileOf(rows);
    CanonicalIsItsMerge(sorted, out);
    SameProfiles(sorted, rows);
    EntriesIgnoreOrder(out, all);
    SameEntriesMerge(out, Entries(out), Entries(all), PathsOf(out));
    Sorting.SameElements(sorted, rows);
    forall o | o in sorted ensures IsMergedRow(o, rows) {
      assert o in rows;
    }
  }

  lemma InPaths(rows: seq<UploadFile>, p: string)
    ensures p in PathsOf(ProfileOf(rows)) <==> exists f :: f in rows && f.path == p
  {
    if f :| f in rows && f.path == p {
      var i :| 0 <= i < |rows| && rows[i] == f;
      assert ProfileOf(rows)[i] in ProfileOf(rows);
    }
    if g :| g in ProfileOf(rows) && g.path == p {
      var i :| 0 <= i < |rows| && ProfileOf(rows)[i] == g;
      assert rows[i] in rows;
    }
  }

  function AsFile(): UploadFile -> seq<File> {
    (f: UploadFile) => [File(f.path, f.blocks)]
  }

  lemma {:induction false} ProfileJoin(rows: seq<UploadFile>)
    ensures ProfileOf(rows) == Sorting.Join(rows, AsFile())
  {
    if rows != [] {
      ProfileJoin(rows[1..]);
    }
  }

  lemma SameProfiles(a: seq<UploadFile>, b: seq<UploadFile>)
    requires multiset(a) == multiset(b)
    ensures multiset(ProfileOf(a)) == multiset(ProfileOf(b))
  {
    ProfileJoin(a);
    ProfileJoin(b);
    Sorting.JoinIgnoresOrder(a, b, AsFile());
  }

  lemma CanonicalFileIsMerged(out: seq<File>, f: File)
    requires OnePerPath(out) && f in out && Sorting.Rising(f.blocks, PosLess)
    ensures IsMergedFile(f, Entries(out))
  {
    PosOrder();
    forall b | b in f.blocks ensures Tallies(b, Entries(out), f.path) {
      CanonicalTallies(out, f, b);
    }
    forall e | e in Entries(out) && e.path == f.path ensures HasPos(f.blocks, PosOf(e.block)) {
      InEntries(out, e);
      var g :| g in out && g.path == e.path && e.block in g.blocks;
      OneFileOfPath(out, f, g);
    }
  }

  /** A canonical profile is the merge of itself. */
  lemma CanonicalIsItsMerge(sorted: seq<UploadFile>, out: seq<File>)
    requires OwnMerge(sorted) && out == ProfileOf(sorted)
    ensures IsMerge(out, Entries(out), PathsOf(out))
  {
    forall f | f in out ensures IsMergedFile(f, Entries(out)) {
      BlocksRise(sorted, f);
      CanonicalFileIsMerged(out, f);
    }
    PathsAreHeld(out);
  }

  lemma BlocksRise(sorted: seq<UploadFile>, f: File)
    requires OwnMerge(sorted) && f in ProfileOf(sorted)
    ensures Sorting.Rising(f.blocks, PosLess)
  {
    var i :| 0 <= i < |sorted| && ProfileOf(sorted)[i] == f;
    assert sorted[i] in sorted;
  }

  lemma OneFileOfPath(files: seq<File>, f: File, g: File)
    requires OnePerPath(files) && f in files && g in files && f.path == g.path
    ensures f == g
  {
  }

  lemma OneBlockAt(blocks: seq<Block>, b: Block, c: Block)
    requires OnePerPos(blocks) && b in blocks && c in blocks && PosOf(b) == PosOf(c)
    ensures b == c
  {
  }

  lemma CanonicalTallies(out: seq<File>, f: File, b: Block)
    requires OnePerPath(out) && f in out && OnePerPos(f.blocks) && b in f.blocks
    ensures Tallies(b, Entries(out), f.path)
  {
    SumInFiles(out, f, b);
    InEntries(out, Entry(f.path, b));
    forall e | e in Entries(out) && At(e, f.path, PosOf(b)) ensures e == Entry(f.path, b) {
      InEntries(out, e);
      var g :| g in out && g.path == e.path && e.block in g.blocks;
      OneFileOfPath(out, f, g);
      OneBlockAt(f.blocks, b, e.block);
    }
    MaxOfOne(Entries(out), f.path, PosOf(b), b);
  }

  /** The merge of the rows, whether or not the shortcut could be taken. */
  method MergeParts(rows: seq<UploadFile>) returns (out: seq<UploadFile>)
    ensures (forall f :: f in rows ==> CountsMatch(f)) ==> IsMergeOfRows(out, rows)
    ensures IsMergeOfRows(out, rows) || multiset(out) == multiset(rows)
  {
    var oneUpload := |rows| > 0;
    for i := 0 to |rows|
      invariant oneUpload <==> |rows| > 0 && forall j :: 0 <= j < i ==> rows[j].uploadId == rows[0].uploadId
    {
      oneUpload := oneUpload && rows[i].uploadId == rows[0].uploadId;
    }
    if oneUpload {
      var sorted := SortFiles(rows);
      var canonical := CanonicalFiles(sorted);
      if canonical {
        if forall f :: f in rows ==> CountsMatch(f) {
          OwnMergeIsMerge(sorted, rows);
        }
        return sorted;
      }
    }
    out := MergeAll(rows);
  }

  // ----- totals

  function SumCovered(rows: seq<UploadFile>): int {
    if rows == [] then 0 else rows[0].covered + SumCovered(rows[1..])
  }

  function SumTotal(rows: seq<UploadFile>): int {
    if rows == [] then 0 else rows[0].total + SumTotal(rows[1..])
  }

  function Stmts(e: Entry): int {
    e.block.numStmts
  }

  function RanStmts(e: Entry): int {
    if e.block.count > 0 then e.block.numStmts else 0
  }

  lemma {:induction false} FileWeights(path: string, blocks: seq<Block>)
    ensures Sorting.Weight(FileEntries(path, blocks), Stmts) == TotalStmts(blocks)
    ensures Sorting.Weight(FileEntries(path, blocks), RanStmts) == CoveredStmts(blocks)
  {
    if blocks != [] {
      FileWeights(path, blocks[1..]);
    }
  }

  /** The counts stored with files add up over their blocks. */
  lemma {:induction false} RowWeights(rows: seq<UploadFile>)
    requires forall f :: f in rows ==> CountsMatch(f)
    ensures SumTotal(rows) == Sorting.Weight(Entries(ProfileOf(rows)), Stmts)
    ensures SumCovered(rows) == Sorting.Weight(Entries(ProfileOf(rows)), RanStmts)
  {
    if rows == [] {
      assert ProfileOf(rows) == [];
    } else {
      var first, rest := FileEntries(rows[0].path, rows[0].blocks), Entries(ProfileOf(rows[1..]));
      RowWeights(rows[1..]);
      assert rows[0] in rows && CountsMatch(rows[0]);
      assert ProfileOf(rows)[1..] == ProfileOf(rows[1..]);
      FileWeights(rows[0].path, rows[0].blocks);
      Sorting.WeightSplit(first, rest, Stmts);
      Sorting.WeightSplit(first, rest, RanStmts);
    }
  }

  // ----- a lone part is its own merge

  /** No path twice, and no position twice in a file. */
  ghost predicate OnePlace(files: seq<File>) {
    OnePerPath(files) && forall f :: f in files ==> OnePerPos(f.blocks)
  }

  lemma {:induction false} DistinctFileEntries(path: string, blocks: seq<Block>)
    requires OnePerPos(blocks)
    ensures Sorting.Distinct(FileEntries(path, blocks))
  {
    if blocks != [] {
      DistinctFileEntries(path, blocks[1..]);
      var first, rest := Entry(path, blocks[0]), FileEntries(path, blocks[1..]);
      if first in rest {
        InFileEntries(path, blocks[1..], first);
        assert false;
      }
    }
  }

  lemma DistinctJoin<T>(a: seq<T>, b: seq<T>)
    requires Sorting.Distinct(a) && Sorting.Distinct(b) && forall x :: x in a ==> x !in b
    ensures Sorting.Distinct(a + b)
  {
    var s := a + b;
    forall i, j | 0 <= i < j < |s| ensures s[i] != s[j] {
      if i < |a| <= j {
        assert s[i] in a && s[j] == b[j - |a|];
      }
    }
  }

  lemma {:induction false} DistinctEntries(files: seq<File>)
    requires OnePlace(files)
    ensures Sorting.Distinct(Entries(files))
  {
    if files != [] {
      var first, rest := FileEntries(files[0].path, files[0].blocks), Entries(files[1..]);
      DistinctEntries(files[1..]);
      assert files[0] in files;
      DistinctFileEntries(files[0].path, files[0].blocks);
      forall e | e in first ensures e !in rest {
        InFileEntries(files[0].path, files[0].blocks, e);
        InEntries(files[1..], e);
      }
      DistinctJoin(first, rest);
    }
  }

  /** Where nothing shares a place, every block survives the merge as it is. */
  lemma EntrySurvives(files: seq<File>, out: seq<File>, e: Entry)
    requires OnePlace(files) && IsMerge(out, Entries(files), PathsOf(files)) && e in Entries(files)
    ensures e in Entries(out)
  {
    InEntries(files, e);
    var f :| f in files && f.path == e.path && e.block in f.blocks;
    var pos := PosOf(e.block);
    CanonicalTallies(files, f, e.block);
    EntriesHavePaths(files);
    assert At(e, e.path, pos);
    var g, b := MergedBlock(out, Entries(files), PathsOf(files), e.path, pos);
    TalliesAreEqual(b, e.block, Entries(files), e.path);
    InEntries(out, e);
  }

  lemma EntryIsOriginal(files: seq<File>, out: seq<File>, e: Entry)
    requires OnePlace(files) && IsMerge(out, Entries(files), PathsOf(files)) && e in Entries(out)
    ensures e in Entries(files)
  {
    InEntries(out, e);
    var f :| f in out && f.path == e.path && e.block in f.blocks;
    assert IsMergedFile(f, Entries(files)) && Tallies(e.block, Entries(files), f.path);
    var d :| d in Entries(files) && At(d, f.path, PosOf(e.block));
    EntrySurvives(files, out, d);
    OneMergedEntry(out, Entries(files), PathsOf(files), f, e.block, d);
  }

  lemma MergeKeepsEntries(files: seq<File>, out: seq<File>)
    requires OnePlace(files) && IsMerge(out, Entries(files), PathsOf(files))
    ensures multiset(Entries(out)) == multiset(Entries(files))
  {
    forall e ensures e in Entries(out) <==> e in Entries(files) {
      if e in Entries(files) {
        EntrySurvives(files, out, e);
      }
      if e in Entries(out) {
        EntryIsOriginal(files, out, e);
      }
    }
    PosOrder();
    DistinctEntries(files);
    forall f | f in out ensures OnePerPos(f.blocks) {
      assert IsMergedFile(f, Entries(files));
    }
    DistinctEntries(out);
    Sorting.SameMembersSameBag(Entries(out), Entries(files));
  }

  /** A lone part's own counts are those of its merge. */
  lemma LonePartIsItsMerge(rows: seq<UploadFile>, out: seq<UploadFile>)
    requires OnePlace(ProfileOf(rows)) && (forall f :: f in rows ==> CountsMatch(f)) && IsMergeOfRows(out, rows)
    ensures SumCovered(out) == SumCovered(rows) && SumTotal(out) == SumTotal(rows)
  {
    MergeKeepsEntries(ProfileOf(rows), ProfileOf(out));
    assert forall o :: o in out ==> IsMergedRow(o, rows);
    RowWeights(rows);
    RowWeights(out);
    Sorting.WeightIgnoresOrder(Entries(ProfileOf(out)), Entries(ProfileOf(rows)), Stmts);
    Sorting.WeightIgnoresOrder(Entries(ProfileOf(out)), Entries(ProfileOf(rows)), RanStmts);
  }

  // ----- a commit's merged report

  /** As an upload is accepted: its files as a parser leaves them, its counts theirs. */
  ghost predicate UploadOk(u: Upload) {
    && OnePlace(ProfileOf(u.files))
    && (forall f :: f in u.files ==> CountsMatch(f))
    && u.covered == SumCovered(u.files) && u.total == SumTotal(u.files)
  }

  lemma {:induction false} StampedKeepsSums(files: seq<UploadFile>, id: nat)
    ensures ProfileOf(Stamped(files, id)) == ProfileOf(files)
    ensures SumCovered(Stamped(files, id)) == SumCovered(files) && SumTotal(Stamped(files, id)) == SumTotal(files)
  {
    if files != [] {
      StampedKeepsSums(files[1..], id);
    }
  }

  lemma {:induction false} StampedKeepsCounts(files: seq<UploadFile>, id: nat)
    requires forall f :: f in files ==> CountsMatch(f)
    ensures forall f :: f in Stamped(files, id) ==> CountsMatch(f)
  {
    if files != [] {
      assert files[0] in files;
      StampedKeepsCounts(files[1..], id);
    }
  }

  /** Rearranging keeps every path and position apart. */
  lemma SameOnePlace(files: seq<File>, sorted: seq<File>)
    requires multiset(files) == multiset(sorted) && OnePlace(files)
    ensures OnePlace(sorted)
  {
    Sorting.SameElements(files, sorted);
    var paths, sortedPaths := Sorting.Join(files, AsPath()), Sorting.Join(sorted, AsPath());
    Sorting.JoinIgnoresOrder(files, sorted, AsPath());
    Sorting.SameDistinct(paths, sortedPaths);
    PathsJoin(files);
    PathsJoin(sorted);
  }

  function AsPath(): File -> seq<string> {
    (f: File) => [f.path]
  }

  lemma {:induction false} PathsJoin(files: seq<File>)
    ensures |Sorting.Join(files, AsPath())| == |files|
    ensures forall i :: 0 <= i < |files| ==> Sorting.Join(files, AsPath())[i] == files[i].path
  {
    if files != [] {
      PathsJoin(files[1..]);
    }
  }

  /** Rearranging files changes neither what they hold nor what they count. */
  lemma SortedIsOk(sorted: seq<UploadFile>, files: seq<UploadFile>)
    requires multiset(sorted) == multiset(files) && OnePlace(ProfileOf(files))
    requires forall f :: f in files ==> CountsMatch(f)
    ensures OnePlace(ProfileOf(sorted)) && (forall f :: f in sorted ==> CountsMatch(f))
    ensures SumCovered(sorted) == SumCovered(files) && SumTotal(sorted) == SumTotal(files)
  {
    Sorting.SameElements(sorted, files);
    SameProfiles(sorted, files);
    SameOnePlace(ProfileOf(files), ProfileOf(sorted));
    EntriesIgnoreOrder(ProfileOf(sorted), ProfileOf(files));
    RowWeights(sorted);
    RowWeights(files);
    Sorting.WeightIgnoresOrder(Entries(ProfileOf(sorted)), Entries(ProfileOf(files)), Stmts);
    Sorting.WeightIgnoresOrder(Entries(ProfileOf(sorted)), Entries(ProfileOf(files)), RanStmts);
  }

  /** Storing an upload keeps it as it was accepted: stamping and sorting its files changes no count and no place. */
  lemma StoredIsOk(u: Upload, id: nat, sorted: seq<UploadFile>)
    requires UploadOk(u) && Sorting.IsSortOf(sorted, Stamped(u.files, id), PathLe)
    ensures UploadOk(u.(files := sorted))
  {
    StampedKeepsSums(u.files, id);
    StampedKeepsCounts(u.files, id);
    SortedIsOk(sorted, Stamped(u.files, id));
  }

  /** The newest uploads of every part, oldest first. */
  ghost predicate AreParts(ids: seq<nat>, uploads: map<nat, Upload>, key: CommitKey) {
    && Sorting.Ordered(ids, Sorting.NatLe) && Sorting.Distinct(ids)
    && forall id :: id in ids <==> IsLatestOfPart(uploads, key, id)
  }

  function PartFiles(uploads: map<nat, Upload>, ids: seq<nat>): seq<UploadFile>
    requires forall id :: id in ids ==> id in uploads
  {
    if ids == [] then [] else uploads[ids[0]].files + PartFiles(uploads, ids[1..])
  }

  lemma {:induction false} InPartFiles(uploads: map<nat, Upload>, ids: seq<nat>)
    requires forall id :: id in ids ==> id in uploads && UploadOk(uploads[id])
    ensures forall f :: f in PartFiles(uploads, ids) ==> CountsMatch(f)
  {
    if ids != [] {
      InPartFiles(uploads, ids[1..]);
      assert ids[0] in ids;
    }
  }

  /** The counts of the merge of the parts' files. */
  ghost predicate CountsParts(covered: int, total: int, uploads: map<nat, Upload>, ids: seq<nat>)
    requires forall id :: id in ids ==> id in uploads
  {
    forall out :: IsMergeOfRows(out, PartFiles(uploads, ids)) ==> covered == SumCovered(out) && total == SumTotal(out)
  }

  /** A report over the merge of every part's newest upload. */
  ghost predicate IsReportOf(r: CommitReport, uploads: map<nat, Upload>) {
    exists ids :: AreParts(ids, uploads, r.key) && r.partCount == |ids| && CountsParts(r.covered, r.total, uploads, ids)
  }

  lemma PartsAreUnique(a: seq<nat>, b: seq<nat>, uploads: map<nat, Upload>, key: CommitKey)
    requires AreParts(a, uploads, key) && AreParts(b, uploads, key)
    ensures a == b
  {
    Sorting.SameMembersSameBag(a, b);
    Sorting.NatOrder();
    Sorting.SortIsUnique(a, b, Sorting.NatLe);
  }

  method MergedCoverage(uploads: map<nat, Upload>, ids: seq<nat>) returns (covered: int, total: int)
    requires forall id :: id in ids ==> id in uploads && UploadOk(uploads[id])
    ensures CountsParts(covered, total, uploads, ids)
  {
    InPartFiles(uploads, ids);
    if |ids| == 1 {
      covered, total := uploads[ids[0]].covered, uploads[ids[0]].total;
      LonePartCounts(uploads, ids, covered, total);
      return;
    }
    var merged := MergeParts(PartFiles(uploads, ids));
    covered, total := 0, 0;
    for i := 0 to |merged|
      invariant covered + SumCovered(merged[i..]) == SumCovered(merged)
      invariant total + SumTotal(merged[i..]) == SumTotal(merged)
    {
      assert merged[i..][1..] == merged[i + 1..];
      covered := covered + merged[i].covered;
      total := total + merged[i].total;
    }
    forall out | IsMergeOfRows(out, PartFiles(uploads, ids)) ensures out == merged {
      MergedRowsAreUnique(out, merged, PartFiles(uploads, ids));
    }
  }

  lemma LonePartCounts(uploads: map<nat, Upload>, ids: seq<nat>, covered: int, total: int)
    requires |ids| == 1 && ids[0] in uploads && UploadOk(uploads[ids[0]])
    requires covered == uploads[ids[0]].covered && total == uploads[ids[0]].total
    ensures CountsParts(covered, total, uploads, ids)
  {
    assert PartFiles(uploads, ids) == uploads[ids[0]].files;
    forall out | IsMergeOfRows(out, uploads[ids[0]].files)
      ensures covered == SumCovered(out) && total == SumTotal(out)
    {
      LonePartIsItsMerge(uploads[ids[0]].files, out);
    }
  }

  /** The report of an upload's commit over the newest upload of every part, not stored yet. */
  method BuildReport(store: Store, trigger: nat, gateFailed: bool) returns (r: CommitReport)
    requires store.Valid() && trigger in store.uploads && CommitOk(store.uploads, store.uploads[trigger].key)
    ensures var u := store.uploads[trigger];
            && r.key == u.key && r.branch == u.branch && r.prId == u.prId && r.gateFailed == gateFailed
                && r.uploadId == trigger
    ensures IsReportOf(r, store.uploads)
  {
    var u := store.uploads[trigger];
    var ids := store.LatestUploadsPerPart(u.key);
    forall id | id in ids ensures id in store.uploads && UploadOk(store.uploads[id]) {
      assert IsLatestOfPart(store.uploads, u.key, id);
    }
    var covered, total := MergedCoverage(store.uploads, ids);
    r := CommitReport(u.key, u.branch, u.prId, gateFailed, covered, total, |ids|, trigger);
    assert AreParts(ids, store.uploads, u.key);
  }

  /** Every upload of the commit is as accepted. */
  ghost predicate CommitOk(uploads: map<nat, Upload>, key: CommitKey) {
    forall id :: id in uploads && uploads[id].key == key ==> UploadOk(uploads[id])
  }

  /** Rebuilds a commit's report from the newest upload of every part and stores it. */
  method Recompute(store: Store, trigger: nat, gateFailed: bool) returns (reportId: nat)
    requires store.Valid() && trigger in store.uploads && CommitOk(store.uploads, store.uploads[trigger].key)
    modifies store`crSeq, store`reports
    ensures store.Valid() && reportId in store.reports
    ensures var r, u := store.reports[reportId], store.uploads[trigger];
            && r.key == u.key && r.branch == u.branch && r.prId == u.prId && r.gateFailed == gateFailed
                && r.uploadId == trigger
            && IsReportOf(r, store.uploads)
    ensures store.reports == old(store.reports)[reportId := store.reports[reportId]]
    ensures old(store.Reported(store.uploads[trigger].key)) ==> reportId in old(store.reports)
    ensures forall k ::
            store.View(k) == old(store.View(k)).(reported := k == store.uploads[trigger].key || old(store.Reported(k)))
  {
    var r := BuildReport(store, trigger, gateFailed);
    reportId := store.UpsertCommitReport(r);
  }
}
