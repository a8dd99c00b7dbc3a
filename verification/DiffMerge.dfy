/**
  Merging the diff coverage of a commit's parts. Each part counts the changed
  lines it could execute and lists those it left uncovered; which lines it
  counted is not recorded, so parts that disagree are merged to a lower bound.
*/
module DiffMerge {
  import opened Options
  import Sorting

  datatype FileCoverage = FileCoverage(path: string, covered: int, total: int, uncovered: seq<int>)

  datatype Coverage = Coverage(files: seq<FileCoverage>, covered: int, total: int, unmatched: seq<string>)

  // ----- what a merged file is

  /** All parts that report the file count the same number of lines. */
  ghost predicate Agree(all: seq<FileCoverage>, p: string) {
    forall f, g :: f in all && g in all && f.path == p && g.path == p ==> f.total == g.total
  }

  function Listing(p: string, line: int): FileCoverage -> int {
    (f: FileCoverage) => if f.path == p then multiset(f.uncovered)[line] else 0
  }

  function Reporting(p: string): FileCoverage -> int {
    (f: FileCoverage) => if f.path == p then 1 else 0
  }

  /** How often the parts of the file list the line as uncovered. */
  function Listed(all: seq<FileCoverage>, p: string, line: int): int {
    Sorting.Weight(all, Listing(p, line))
  }

  /** How many parts report the file. */
  function Parts(all: seq<FileCoverage>, p: string): int {
    Sorting.Weight(all, Reporting(p))
  }

  /** Uncovered in the merge: in every part where the parts agree, in any part where they do not. */
  ghost predicate Left(all: seq<FileCoverage>, p: string, line: int) {
    if Agree(all, p) then Listed(all, p, line) == Parts(all, p) else Listed(all, p, line) > 0
  }

  /** The largest of the parts' totals, and no fewer than the uncovered lines. */
  ghost predicate IsTotal(total: int, uncovered: int, all: seq<FileCoverage>, p: string) {
    && uncovered <= total
    && (forall f :: f in all && f.path == p ==> f.total <= total)
    && (total == uncovered || exists f :: f in all && f.path == p && f.total == total)
  }

  ghost predicate IsMergedFile(r: FileCoverage, all: seq<FileCoverage>) {
    && Sorting.Rising(r.uncovered, Sorting.IntLess)
    && (forall line :: line in r.uncovered <==> Left(all, r.path, line))
    && IsTotal(r.total, |r.uncovered|, all, r.path)
    && r.covered == r.total - |r.uncovered|
  }

  lemma MergedFileIsUnique(r: FileCoverage, s: FileCoverage, all: seq<FileCoverage>)
    requires IsMergedFile(r, all) && IsMergedFile(s, all) && r.path == s.path
    ensures r == s
  {
    forall line ensures line in r.uncovered <==> line in s.uncovered {
      assert line in r.uncovered <==> Left(all, r.path, line);
    }
    Sorting.RisingIsUnique(r.uncovered, s.uncovered, Sorting.IntLess);
  }

  /** The order of the parts does not matter. */
  lemma MergedFileIgnoresOrder(r: FileCoverage, a: seq<FileCoverage>, b: seq<FileCoverage>)
    requires multiset(a) == multiset(b) && IsMergedFile(r, a)
    ensures IsMergedFile(r, b)
  {
    Sorting.SameElements(a, b);
    Sorting.WeightIgnoresOrder(a, b, Reporting(r.path));
    forall line ensures Left(a, r.path, line) <==> Left(b, r.path, line) {
      Sorting.WeightIgnoresOrder(a, b, Listing(r.path, line));
    }
  }

  // ----- merging one file

  method Totals(parts: seq<FileCoverage>) returns (total: int, agree: bool)
    requires |parts| > 0
    ensures exists f :: f in parts && f.total == total
    ensures forall f :: f in parts ==> f.total <= total
    ensures agree <==> forall f, g :: f in parts && g in parts ==> f.total == g.total
  {
    total, agree := parts[0].total, true;
    for i := 1 to |parts|
      invariant exists f :: f in parts[..i] && f.total == total
      invariant forall f :: f in parts[..i] ==> f.total <= total
      invariant agree ==> forall f :: f in parts[..i] ==> f.total == parts[0].total == total
      invariant !agree ==> exists f, g :: f in parts && g in parts && f.total != g.total
    {
      assert parts[..i + 1] == parts[..i] + [parts[i]];
      assert parts[i] in parts && parts[0] in parts;
      if parts[i].total != total {
        ghost var f :| f in parts[..i] && f.total == total;
        assert f in parts;
        agree := false;
      }
      if parts[i].total > total {
        total := parts[i].total;
      }
    }
    assert parts[..|parts|] == parts;
  }

  /** How often each line is listed as uncovered. */
  method CountUncovered(parts: seq<FileCoverage>, ghost p: string) returns (count: map<int, int>)
    requires forall f :: f in parts ==> f.path == p
    ensures Tallied(count, parts, p, [])
  {
    count := map[];
    for i := 0 to |parts|
      invariant Tallied(count, parts[..i], p, [])
    {
      assert parts[..i + 1] == parts[..i] + [parts[i]];
      count := CountLines(count, parts[i].uncovered, parts[..i], p);
      TalliedPart(count, parts[..i], p, parts[i]);
    }
    assert parts[..|parts|] == parts;
  }

  /** The map holds what the parts, and these further lines, list. */
  ghost predicate Tallied(count: map<int, int>, parts: seq<FileCoverage>, p: string, more: seq<int>) {
    && (forall line :: line in count <==> Listed(parts, p, line) + multiset(more)[line] > 0)
    && (forall line :: line in count ==> count[line] == Listed(parts, p, line) + multiset(more)[line])
  }

  lemma {:induction false} ListedIsNat(all: seq<FileCoverage>, p: string, line: int)
    ensures 0 <= Listed(all, p, line)
  {
    if all != [] {
      ListedIsNat(all[1..], p, line);
    }
  }

  lemma TalliedPart(count: map<int, int>, parts: seq<FileCoverage>, p: string, f: FileCoverage)
    requires Tallied(count, parts, p, f.uncovered) && f.path == p
    ensures Tallied(count, parts + [f], p, [])
  {
    forall line ensures Listed(parts + [f], p, line) == Listed(parts, p, line) + multiset(f.uncovered)[line] {
      Sorting.WeightOneMore(parts, f, Listing(p, line));
    }
  }

  lemma TalliedLine(count: map<int, int>, parts: seq<FileCoverage>, p: string, more: seq<int>, line: int)
    requires Tallied(count, parts, p, more)
    ensures Tallied(count[line := (if line in count then count[line] else 0) + 1], parts, p, more + [line])
  {
    ListedIsNat(parts, p, line);
    assert multiset(more + [line]) == multiset(more) + multiset{line};
  }

  method CountLines(start: map<int, int>, lines: seq<int>, ghost parts: seq<FileCoverage>, ghost p: string)
      returns (count: map<int, int>)
    requires Tallied(start, parts, p, [])
    ensures Tallied(count, parts, p, lines)
  {
    count := start;
    for j := 0 to |lines|
      invariant Tallied(count, parts, p, lines[..j])
    {
      assert lines[..j + 1] == lines[..j] + [lines[j]];
      TalliedLine(count, parts, p, lines[..j], lines[j]);
      var n := if lines[j] in count then count[lines[j]] else 0;
      count := count[lines[j] := n + 1];
    }
    assert lines[..|lines|] == lines;
  }

  /** The lines kept by the counts, sorted. */
  method KeptLines(count: map<int, int>, agree: bool, parts: int) returns (uncovered: seq<int>)
    ensures Sorting.Rising(uncovered, Sorting.IntLess)
    ensures forall line :: line in uncovered <==> line in count && (agree ==> count[line] == parts)
  {
    var keys := Sorting.Keys(count);
    var kept: seq<int> := [];
    for i := 0 to |keys|
      invariant forall line :: line in kept <==> line in keys[..i] && (agree ==> count[line] == parts)
      invariant Sorting.Distinct(kept)
    {
      assert keys[..i + 1] == keys[..i] + [keys[i]];
      if (agree && count[keys[i]] == parts) || !agree {
        assert keys[i] !in keys[..i];
        kept := kept + [keys[i]];
      }
    }
    assert keys[..|keys|] == keys;
    Sorting.IntOrder();
    Sorting.SortSorts(kept, Sorting.IntLe);
    uncovered := Sorting.Sort(kept, Sorting.IntLe);
    Sorting.SameElements(uncovered, kept);
    Sorting.SameDistinct(uncovered, kept);
  }

  method MergeFile(path: string, parts: seq<FileCoverage>) returns (r: FileCoverage, conflicted: bool)
    requires |parts| > 0 && forall f :: f in parts ==> f.path == path
    ensures r.path == path && IsMergedFile(r, parts) && conflicted == !Agree(parts, path)
  {
    var total, agree := Totals(parts);
    var count := CountUncovered(parts, path);
    var uncovered := KeptLines(count, agree, |parts|);
    PartsOfOne(parts, path);
    if |uncovered| > total {
      total := |uncovered|;
    }
    r, conflicted := FileCoverage(path, total - |uncovered|, total, uncovered), !agree;
  }

  lemma {:induction false} PartsOfOne(parts: seq<FileCoverage>, p: string)
    requires forall f :: f in parts ==> f.path == p
    ensures Parts(parts, p) == |parts|
  {
    if parts != [] {
      PartsOfOne(parts[1..], p);
    }
  }

  // ----- grouping by file

  function Of(all: seq<FileCoverage>, p: string): seq<FileCoverage> {
    if all == [] then [] else (if all[0].path == p then [all[0]] else []) + Of(all[1..], p)
  }

  lemma {:induction false} OfOneMore(all: seq<FileCoverage>, f: FileCoverage, p: string)
    ensures Of(all + [f], p) == Of(all, p) + if f.path == p then [f] else []
  {
    if all == [] {
      assert all + [f] == [f];
    } else {
      assert (all + [f])[0] == all[0] && (all + [f])[1..] == all[1..] + [f];
      OfOneMore(all[1..], f, p);
      Sorting.Regroup(if all[0].path == p then [all[0]] else [], Of(all[1..], p), if f.path == p then [f] else []);
    }
  }

  lemma {:induction false} InOf(all: seq<FileCoverage>, p: string, f: FileCoverage)
    ensures f in Of(all, p) <==> f in all && f.path == p
  {
    if all != [] {
      InOf(all[1..], p, f);
    }
  }

  lemma {:induction false} OfCounts(all: seq<FileCoverage>, p: string, line: int)
    ensures Listed(Of(all, p), p, line) == Listed(all, p, line)
    ensures Parts(Of(all, p), p) == Parts(all, p)
  {
    if all != [] {
      OfCounts(all[1..], p, line);
      if all[0].path == p {
        assert Of(all, p)[1..] == Of(all[1..], p);
      } else {
        assert Of(all, p) == Of(all[1..], p);
      }
    }
  }

  /** Merging a file from its own parts is merging it from all. */
  lemma MergedFromItsParts(r: FileCoverage, all: seq<FileCoverage>)
    requires IsMergedFile(r, Of(all, r.path))
    ensures IsMergedFile(r, all) && (Agree(Of(all, r.path), r.path) <==> Agree(all, r.path))
  {
    var parts := Of(all, r.path);
    forall f ensures f in parts <==> f in all && f.path == r.path {
      InOf(all, r.path, f);
    }
    assert Agree(parts, r.path) <==> Agree(all, r.path);
    forall line ensures Left(parts, r.path, line) <==> Left(all, r.path, line) {
      OfCounts(all, r.path, line);
    }
  }

  // ----- what a merged result is

  ghost predicate HasPath(files: seq<FileCoverage>, p: string) {
    exists f :: f in files && f.path == p
  }

  predicate PathLess(a: FileCoverage, b: FileCoverage) {
    Sorting.StringLess(a.path, b.path)
  }

  predicate PathLe(a: FileCoverage, b: FileCoverage) {
    Sorting.StringLe(a.path, b.path)
  }

  function Covered(): FileCoverage -> int {
    (f: FileCoverage) => f.covered
  }

  function Total(): FileCoverage -> int {
    (f: FileCoverage) => f.total
  }

  function Files(rs: seq<Coverage>): seq<FileCoverage> {
    Sorting.Join(rs, FilesOf())
  }

  function FilesOf(): Coverage -> seq<FileCoverage> {
    (r: Coverage) => r.files
  }

  ghost predicate Unmatched(rs: seq<Coverage>, p: string) {
    exists r :: r in rs && p in r.unmatched
  }

  ghost predicate AreMergedFiles(files: seq<FileCoverage>, all: seq<FileCoverage>) {
    && Sorting.Rising(files, PathLess)
    && (forall r :: r in files ==> IsMergedFile(r, all))
    && (forall p :: HasPath(files, p) <==> HasPath(all, p))
  }

  ghost predicate AreConflicts(conflicts: seq<string>, all: seq<FileCoverage>) {
    Sorting.Rising(conflicts, Sorting.StringLess) && forall p :: p in conflicts <==> !Agree(all, p)
  }

  ghost predicate IsMerge(out: Coverage, conflicts: seq<string>, rs: seq<Coverage>) {
    var all := Files(rs);
    && AreMergedFiles(out.files, all)
    && AreConflicts(conflicts, all)
    && out.covered == Sorting.Weight(out.files, Covered()) && out.total == Sorting.Weight(out.files, Total())
    && Sorting.Rising(out.unmatched, Sorting.StringLess)
    && (forall p :: p in out.unmatched <==> Unmatched(rs, p) && !HasPath(all, p))
  }

  lemma MergedFilesAreUnique(a: seq<FileCoverage>, b: seq<FileCoverage>, all: seq<FileCoverage>)
    requires AreMergedFiles(a, all) && AreMergedFiles(b, all)
    ensures a == b
  {
    forall f ensures f in a <==> f in b {
      if f in a {
        assert HasPath(b, f.path);
        var g :| g in b && g.path == f.path;
        MergedFileIsUnique(f, g, all);
      }
      if f in b {
        assert HasPath(a, f.path);
        var g :| g in a && g.path == f.path;
        MergedFileIsUnique(f, g, all);
      }
    }
    Sorting.StringLessIsStrict();
    Sorting.RisingIsUnique(a, b, PathLess);
  }

  lemma FilesIgnoreOrder(a: seq<Coverage>, b: seq<Coverage>)
    requires multiset(a) == multiset(b)
    ensures multiset(Files(a)) == multiset(Files(b))
  {
    Sorting.JoinIgnoresOrder(a, b, FilesOf());
  }

  lemma SameFilesMerge(files: seq<FileCoverage>, conflicts: seq<string>, a: seq<FileCoverage>, b: seq<FileCoverage>)
    requires multiset(a) == multiset(b) && AreMergedFiles(files, a) && AreConflicts(conflicts, a)
    ensures AreMergedFiles(files, b) && AreConflicts(conflicts, b)
  {
    Sorting.SameElements(a, b);
    forall r | r in files ensures IsMergedFile(r, b) {
      MergedFileIgnoresOrder(r, a, b);
    }
    assert forall p :: HasPath(a, p) <==> HasPath(b, p);
    assert forall p :: Agree(a, p) <==> Agree(b, p);
  }

  /** Whatever order the parts come in, the merge is the same. */
  lemma MergeIgnoresOrder(a: seq<Coverage>, b: seq<Coverage>, out: Coverage, conflicts: seq<string>, out': Coverage,
      conflicts': seq<string>)
    requires multiset(a) == multiset(b) && IsMerge(out, conflicts, a) && IsMerge(out', conflicts', b)
    ensures out == out' && conflicts == conflicts'
  {
    Sorting.SameElements(a, b);
    FilesIgnoreOrder(a, b);
    SameFilesMerge(out.files, conflicts, Files(a), Files(b));
    MergedFilesAreUnique(out.files, out'.files, Files(b));
    Sorting.StringLessIsStrict();
    Sorting.RisingIsUnique(conflicts, conflicts', Sorting.StringLess);
    SameUnmatched(a, b, out, conflicts, out', conflicts');
  }

  lemma SameUnmatched(a: seq<Coverage>, b: seq<Coverage>, out: Coverage, conflicts: seq<string>, out': Coverage,
      conflicts': seq<string>)
    requires multiset(a) == multiset(b) && IsMerge(out, conflicts, a) && IsMerge(out', conflicts', b)
             && out.files == out'.files
    ensures out.unmatched == out'.unmatched
  {
    Sorting.SameElements(a, b);
    forall p ensures p in out.unmatched <==> p in out'.unmatched {
      assert Unmatched(a, p) <==> Unmatched(b, p);
      assert HasPath(Files(a), p) <==> HasPath(Files(b), p);
    }
    Sorting.StringLessIsStrict();
    Sorting.RisingIsUnique(out.unmatched, out'.unmatched, Sorting.StringLess);
  }

  // ----- merging results

  /** Each file's parts, by path, as the files so far give them. */
  ghost predicate Grouped(byPath: map<string, seq<FileCoverage>>, order: seq<string>, all: seq<FileCoverage>) {
    && Sorting.Distinct(order)
    && (forall p :: p in order <==> p in byPath)
    && (forall p :: p in byPath <==> HasPath(all, p))
    && (forall p :: p in byPath ==> byPath[p] == Of(all, p))
  }

  lemma GroupOneMore(byPath: map<string, seq<FileCoverage>>, order: seq<string>, all: seq<FileCoverage>,
      f: FileCoverage)
    requires Grouped(byPath, order, all)
    ensures var known := f.path in byPath;
            Grouped(byPath[f.path := (if known then byPath[f.path] else []) + [f]],
                    if known then order else order + [f.path], all + [f])
  {
    var next := byPath[f.path := (if f.path in byPath then byPath[f.path] else []) + [f]];
    forall p ensures HasPath(all + [f], p) <==> HasPath(all, p) || f.path == p {
      assert forall g :: g in all + [f] <==> g in all || g == f;
    }
    forall p | p in next ensures next[p] == Of(all + [f], p) {
      OfOneMore(all, f, p);
      if p !in byPath {
        NoneOf(all, p);
      }
    }
  }

  lemma NoneOf(all: seq<FileCoverage>, p: string)
    requires !HasPath(all, p)
    ensures Of(all, p) == []
  {
    if Of(all, p) != [] {
      InOf(all, p, Of(all, p)[0]);
    }
  }

  method GroupResult(start: map<string, seq<FileCoverage>>, startOrder: seq<string>, files: seq<FileCoverage>,
      ghost before: seq<FileCoverage>)
    returns (byPath: map<string, seq<FileCoverage>>, order: seq<string>)
    requires Grouped(start, startOrder, before)
    ensures Grouped(byPath, order, before + files)
  {
    byPath, order := start, startOrder;
    ghost var all := before;
    for j := 0 to |files|
      invariant all == before + files[..j]
      invariant Grouped(byPath, order, all)
    {
      var f := files[j];
      Sorting.OneMoreAfter(before, files, j);
      GroupOneMore(byPath, order, all, f);
      if f.path !in byPath {
        order := order + [f.path];
        byPath := byPath[f.path := [] + [f]];
      } else {
        byPath := byPath[f.path := byPath[f.path] + [f]];
      }
      all := all + [f];
    }
    assert before + files[..|files|] == before + files;
  }

  method Group(rs: seq<Coverage>) returns (byPath: map<string, seq<FileCoverage>>, order: seq<string>)
    ensures Grouped(byPath, order, Files(rs))
  {
    byPath, order := map[], [];
    ghost var all: seq<FileCoverage> := [];
    for i := 0 to |rs|
      invariant all == Files(rs[..i])
      invariant Grouped(byPath, order, all)
    {
      Sorting.JoinOneMore(rs, i, FilesOf());
      byPath, order := GroupResult(byPath, order, rs[i].files, all);
      all := all + rs[i].files;
    }
    assert rs[..|rs|] == rs;
  }

  method MergeGroup(path: string, parts: seq<FileCoverage>, ghost all: seq<FileCoverage>)
      returns (fc: FileCoverage, conflicted: bool)
    requires HasPath(all, path) && parts == Of(all, path)
    ensures fc.path == path && IsMergedFile(fc, all) && conflicted == !Agree(all, path)
  {
    OfIsPart(all, path);
    fc, conflicted := MergeFile(path, parts);
    MergedFromItsParts(fc, all);
  }

  ghost predicate AreDisputed(disputed: seq<string>, done: seq<string>, all: seq<FileCoverage>) {
    Sorting.Distinct(disputed) && forall p :: p in disputed <==> p in done && !Agree(all, p)
  }

  lemma DisputedOneMore(disputed: seq<string>, done: seq<string>, path: string, all: seq<FileCoverage>)
    requires AreDisputed(disputed, done, all) && path !in done
    ensures AreDisputed(if Agree(all, path) then disputed else disputed + [path], done + [path], all)
  {
  }

  ghost predicate AreMergedGroups(merged: seq<FileCoverage>, order: seq<string>, all: seq<FileCoverage>) {
    |merged| == |order| && forall j :: 0 <= j < |merged| ==> merged[j].path == order[j] && IsMergedFile(merged[j], all)
  }

  lemma GroupsOneMore(merged: seq<FileCoverage>, order: seq<string>, all: seq<FileCoverage>, fc: FileCoverage)
    requires AreMergedGroups(merged, order, all) && IsMergedFile(fc, all)
    ensures AreMergedGroups(merged + [fc], order + [fc.path], all)
  {
  }

  method MergeGroups(byPath: map<string, seq<FileCoverage>>, order: seq<string>, ghost all: seq<FileCoverage>)
      returns (merged: seq<FileCoverage>, disputed: seq<string>)
    requires Grouped(byPath, order, all)
    ensures AreMergedGroups(merged, order, all) && AreDisputed(disputed, order, all)
  {
    merged, disputed := [], [];
    ghost var done: seq<string> := [];
    for i := 0 to |order|
      invariant done == order[..i]
      invariant AreMergedGroups(merged, done, all)
      invariant AreDisputed(disputed, done, all)
    {
      var path := order[i];
      Sorting.NextIsNew(order, i);
      var fc, conflicted := MergeGroup(path, byPath[path], all);
      DisputedOneMore(disputed, done, path, all);
      GroupsOneMore(merged, done, all, fc);
      merged := merged + [fc];
      if conflicted {
        disputed := disputed + [path];
      }
      done := done + [path];
    }
    assert order[..|order|] == order;
  }

  method MergeFiles(byPath: map<string, seq<FileCoverage>>, order: seq<string>, ghost all: seq<FileCoverage>)
      returns (files: seq<FileCoverage>, conflicts: seq<string>)
    requires Grouped(byPath, order, all)
    ensures AreMergedFiles(files, all) && AreConflicts(conflicts, all)
  {
    var merged, disputed := MergeGroups(byPath, order, all);
    files := SortFiles(merged, order, all);
    conflicts := Sorting.SortStrings(disputed);
    forall p ensures p in conflicts <==> !Agree(all, p) {
      assert !Agree(all, p) ==> HasPath(all, p);
    }
  }

  lemma OfIsPart(all: seq<FileCoverage>, p: string)
    requires HasPath(all, p)
    ensures |Of(all, p)| > 0 && forall f :: f in Of(all, p) ==> f.path == p
  {
    var f :| f in all && f.path == p;
    InOf(all, p, f);
    forall g | g in Of(all, p) ensures g.path == p {
      InOf(all, p, g);
    }
  }

  method SortFiles(merged: seq<FileCoverage>, order: seq<string>, ghost all: seq<FileCoverage>)
      returns (files: seq<FileCoverage>)
    requires Sorting.Distinct(order) && forall p :: p in order <==> HasPath(all, p)
    requires AreMergedGroups(merged, order, all)
    ensures AreMergedFiles(files, all)
  {
    Sorting.StringOrder();
    Sorting.SortSorts(merged, PathLe);
    files := Sorting.Sort(merged, PathLe);
    SortedAreMerged(files, merged, order, all);
  }

  lemma SortedAreMerged(files: seq<FileCoverage>, merged: seq<FileCoverage>, order: seq<string>, all: seq<FileCoverage>)
    requires Sorting.Distinct(order) && forall p :: p in order <==> HasPath(all, p)
    requires AreMergedGroups(merged, order, all)
    requires Sorting.IsSortOf(files, merged, PathLe)
    ensures AreMergedFiles(files, all)
  {
    Sorting.SameElements(files, merged);
    Sorting.SameDistinct(files, merged);
    forall r | r in files ensures IsMergedFile(r, all) {
      assert r in merged;
    }
    forall p ensures HasPath(files, p) <==> HasPath(all, p) {
      if p in order {
        var j :| 0 <= j < |order| && order[j] == p;
        assert merged[j] in files;
      }
    }
    forall i, j | 0 <= i < j < |files| ensures PathLess(files[i], files[j]) {
      assert PathLe(files[i], files[j]) && files[i] in merged && files[j] in merged && files[i] != files[j];
    }
  }

  method CollectUnmatched(rs: seq<Coverage>, byPath: map<string, seq<FileCoverage>>) returns (unmatched: seq<string>)
    ensures Sorting.Rising(unmatched, Sorting.StringLess)
    ensures forall p :: p in unmatched <==> Unmatched(rs, p) && p !in byPath
  {
    var seen: seq<string> := [];
    for i := 0 to |rs|
      invariant Sorting.Distinct(seen)
      invariant forall p :: p in seen <==> Unmatched(rs[..i], p) && p !in byPath
    {
      ghost var before := seen;
      for j := 0 to |rs[i].unmatched|
        invariant Sorting.Distinct(seen)
        invariant forall p :: p in seen <==> p in before || (p in rs[i].unmatched[..j] && p !in byPath)
      {
        var p := rs[i].unmatched[j];
        assert rs[i].unmatched[..j + 1] == rs[i].unmatched[..j] + [p];
        if p !in seen && p !in byPath {
          seen := seen + [p];
        }
      }
      assert rs[i].unmatched[..|rs[i].unmatched|] == rs[i].unmatched;
      UnmatchedOneMore(rs, i);
    }
    assert rs[..|rs|] == rs;
    unmatched := Sorting.SortStrings(seen);
  }

  lemma UnmatchedOneMore(rs: seq<Coverage>, i: nat)
    requires i < |rs|
    ensures forall p :: Unmatched(rs[..i + 1], p) <==> Unmatched(rs[..i], p) || p in rs[i].unmatched
  {
    assert rs[..i + 1] == rs[..i] + [rs[i]];
  }

  method Merge(results: seq<Option<Coverage>>) returns (r: Option<Coverage>, conflicts: seq<string>)
    ensures Present(results) == [] ==> r == None && conflicts == []
    ensures Present(results) != [] ==> r.Some? && IsMerge(r.value, conflicts, Present(results))
  {
    var present: seq<Coverage> := [];
    for i := 0 to |results|
      invariant present == Present(results[..i])
    {
      Sorting.JoinOneMore(results, i, IfPresent());
      if results[i].Some? {
        present := present + [results[i].value];
      }
    }
    assert results[..|results|] == results;
    if |present| == 0 {
      return None, [];
    }
    var byPath, order := Group(present);
    var files: seq<FileCoverage>;
    files, conflicts := MergeFiles(byPath, order, Files(present));
    var covered, total := 0, 0;
    for i := 0 to |files|
      invariant covered == Sorting.Weight(files[..i], Covered()) && total == Sorting.Weight(files[..i], Total())
    {
      assert files[..i + 1] == files[..i] + [files[i]];
      Sorting.WeightOneMore(files[..i], files[i], Covered());
      Sorting.WeightOneMore(files[..i], files[i], Total());
      covered := covered + files[i].covered;
      total := total + files[i].total;
    }
    assert files[..|files|] == files;
    var unmatched := CollectUnmatched(present, byPath);
    r := Some(Coverage(files, covered, total, unmatched));
  }

  /** The results that are there. */
  function Present(results: seq<Option<Coverage>>): seq<Coverage> {
    Sorting.Join(results, IfPresent())
  }

  function IfPresent(): Option<Coverage> -> seq<Coverage> {
    (r: Option<Coverage>) => if r.Some? then [r.value] else []
  }

  // ----- against the lines that are truly covered

  function LinesOf(s: seq<int>): set<int> {
    set x | x in s
  }

  /**
    The lines each part counted: as many as its total, the uncovered ones among them; parts that agree count the same
    ones.
  */
  ghost predicate Truth(all: seq<FileCoverage>, exec: FileCoverage -> set<int>) {
    && (forall f :: f in all ==>
          |exec(f)| == f.total && LinesOf(f.uncovered) <= exec(f) && Sorting.Distinct(f.uncovered))
    && (forall f, g :: f in all && g in all && f.path == g.path && f.total == g.total ==> exec(f) == exec(g))
  }

  /** The file's changed lines some part can execute. */
  ghost function TrueLines(all: seq<FileCoverage>, p: string, exec: FileCoverage -> set<int>): set<int> {
    if all == [] then {} else (if all[0].path == p then exec(all[0]) else {}) + TrueLines(all[1..], p, exec)
  }

  /** Those some part ran. */
  ghost function TrueRan(all: seq<FileCoverage>, p: string, exec: FileCoverage -> set<int>): set<int> {
    if all == [] then {}
        else (if all[0].path == p then exec(all[0]) - LinesOf(all[0].uncovered) else {}) + TrueRan(all[1..], p, exec)
  }

  lemma {:induction false} InExecutable(all: seq<FileCoverage>, p: string, exec: FileCoverage -> set<int>, l: int)
    ensures l in TrueLines(all, p, exec) <==> exists f :: f in all && f.path == p && l in exec(f)
    ensures l in TrueRan(all, p, exec) <==> exists f :: f in all && f.path == p && l in exec(f) && l !in f.uncovered
  {
    if all != [] {
      InExecutable(all[1..], p, exec, l);
    }
  }

  lemma {:induction false} ListedSomewhere(all: seq<FileCoverage>, p: string, l: int)
    ensures Listed(all, p, l) > 0 <==> exists f :: f in all && f.path == p && l in f.uncovered
  {
    if all != [] {
      ListedSomewhere(all[1..], p, l);
      ListedIsNat(all[1..], p, l);
    }
  }

  /** Where no part repeats a line, it is listed by all parts when it is listed as often as there are parts. */
  lemma {:induction false} ListedEverywhere(all: seq<FileCoverage>, p: string, l: int)
    requires forall f :: f in all ==> Sorting.Distinct(f.uncovered)
    ensures Listed(all, p, l) <= Parts(all, p)
    ensures Listed(all, p, l) == Parts(all, p) <==> forall f :: f in all && f.path == p ==> l in f.uncovered
  {
    if all != [] {
      ListedEverywhere(all[1..], p, l);
      assert all[0] in all;
      Sorting.DistinctCounts(all[0].uncovered);
      assert forall f :: f in all <==> f == all[0] || f in all[1..];
    }
  }

  lemma {:induction false} RisingSize(s: seq<int>)
    requires Sorting.Rising(s, Sorting.IntLess)
    ensures |LinesOf(s)| == |s|
  {
    if s != [] {
      RisingSize(s[1..]);
      assert LinesOf(s) == {s[0]} + LinesOf(s[1..]);
      assert s[0] !in LinesOf(s[1..]);
    }
  }

  /** Every executable line is truly run or left uncovered by the merge; where parts agree, never both. */
  lemma RunOrLeft(r: FileCoverage, all: seq<FileCoverage>, exec: FileCoverage -> set<int>)
    requires Truth(all, exec) && IsMergedFile(r, all) && HasPath(all, r.path)
    ensures TrueLines(all, r.path, exec) <= TrueRan(all, r.path, exec) + LinesOf(r.uncovered)
    ensures LinesOf(r.uncovered) <= TrueLines(all, r.path, exec)
    ensures Agree(all, r.path) ==> LinesOf(r.uncovered) == TrueLines(all, r.path, exec) - TrueRan(all, r.path, exec)
  {
    var f0 :| f0 in all && f0.path == r.path;
    forall l ensures l in r.uncovered ==> l in TrueLines(all, r.path, exec)
      ensures l in TrueLines(all, r.path, exec) ==> l in TrueRan(all, r.path, exec) || l in r.uncovered
      ensures Agree(all, r.path) && l in r.uncovered ==> l !in TrueRan(all, r.path, exec)
    {
      InExecutable(all, r.path, exec, l);
      ListedSomewhere(all, r.path, l);
      ListedEverywhere(all, r.path, l);
      assert l in r.uncovered <==> Left(all, r.path, l);
      assert forall f :: f in all && l in f.uncovered ==> l in LinesOf(f.uncovered);
    }
  }

  lemma {:induction false} RanIsExecutable(all: seq<FileCoverage>, p: string, exec: FileCoverage -> set<int>)
    ensures TrueRan(all, p, exec) <= TrueLines(all, p, exec)
  {
    if all != [] {
      RanIsExecutable(all[1..], p, exec);
    }
  }

  lemma {:induction false} PartIsExecutable(all: seq<FileCoverage>, f: FileCoverage, exec: FileCoverage -> set<int>)
    requires f in all
    ensures exec(f) <= TrueLines(all, f.path, exec)
  {
    if f != all[0] {
      PartIsExecutable(all[1..], f, exec);
    }
  }

  lemma {:induction false} AgreedIsExecutable(all: seq<FileCoverage>, p: string, exec: FileCoverage -> set<int>,
      f: FileCoverage)
    requires Truth(all, exec) && f in all && f.path == p && Agree(all, p)
    ensures TrueLines(all, p, exec) == exec(f)
  {
    forall l ensures l in TrueLines(all, p, exec) <==> l in exec(f) {
      InExecutable(all, p, exec, l);
    }
  }

  /** A merged file against the truth: no larger a total, no more lines taken off it than are truly missed. */
  lemma FileAgainstTruth(r: FileCoverage, all: seq<FileCoverage>, exec: FileCoverage -> set<int>)
    requires Truth(all, exec) && IsMergedFile(r, all) && HasPath(all, r.path)
    ensures 0 <= r.covered && r.covered + |r.uncovered| == r.total
    ensures r.total <= |TrueLines(all, r.path, exec)|
    ensures |TrueLines(all, r.path, exec)| - |r.uncovered| <= |TrueRan(all, r.path, exec)|
  {
    var e, c, u := TrueLines(all, r.path, exec), TrueRan(all, r.path, exec), LinesOf(r.uncovered);
    RunOrLeft(r, all, exec);
    RisingSize(r.uncovered);
    Sorting.SubsetSize(u, e);
    Sorting.SubsetSize(e - u, c);
    if r.total != |r.uncovered| {
      var f :| f in all && f.path == r.path && f.total == r.total;
      PartIsExecutable(all, f, exec);
      Sorting.SubsetSize(exec(f), e);
    }
  }

  /** Where the parts agree, the merged file has the true counts. */
  lemma AgreedIsExact(r: FileCoverage, all: seq<FileCoverage>, exec: FileCoverage -> set<int>)
    requires Truth(all, exec) && IsMergedFile(r, all) && HasPath(all, r.path) && Agree(all, r.path)
    ensures r.total == |TrueLines(all, r.path, exec)| && r.covered == |TrueRan(all, r.path, exec)|
    ensures LinesOf(r.uncovered) == TrueLines(all, r.path, exec) - TrueRan(all, r.path, exec)
  {
    var e, c := TrueLines(all, r.path, exec), TrueRan(all, r.path, exec);
    RunOrLeft(r, all, exec);
    RisingSize(r.uncovered);
    RanIsExecutable(all, r.path, exec);
    Sorting.SubsetSize(c, e);
    AgreedTotal(r, all, exec);
  }

  lemma AgreedTotal(r: FileCoverage, all: seq<FileCoverage>, exec: FileCoverage -> set<int>)
    requires Truth(all, exec) && IsMergedFile(r, all) && HasPath(all, r.path) && Agree(all, r.path)
    ensures r.total == |TrueLines(all, r.path, exec)|
  {
    var e, u := TrueLines(all, r.path, exec), LinesOf(r.uncovered);
    var f :| f in all && f.path == r.path;
    RunOrLeft(r, all, exec);
    RisingSize(r.uncovered);
    Sorting.SubsetSize(u, e);
    AgreedIsExecutable(all, r.path, exec, f);
  }

  /** total - missed over total is at most run over executable. */
  lemma RatioBound(total: int, missed: int, run: int, executable: int)
    requires 0 <= missed <= total <= executable && executable - missed <= run
    ensures (total - missed) * executable <= run * total
  {
    assert (executable - missed) * total <= run * total;
    assert missed * total <= missed * executable;
    assert (total - missed) * executable == total * executable - missed * executable;
    assert (executable - missed) * total == executable * total - missed * total;
  }

  /** A merged file never overstates: not in lines, not in ratio. */
  lemma FileNeverOverstates(r: FileCoverage, all: seq<FileCoverage>, exec: FileCoverage -> set<int>)
    requires Truth(all, exec) && IsMergedFile(r, all) && HasPath(all, r.path)
    ensures r.covered <= |TrueRan(all, r.path, exec)|
    ensures r.covered * |TrueLines(all, r.path, exec)| <= |TrueRan(all, r.path, exec)| * r.total
  {
    FileAgainstTruth(r, all, exec);
    RatioBound(r.total, |r.uncovered|, |TrueRan(all, r.path, exec)|, |TrueLines(all, r.path, exec)|);
  }

  /** Executable changed lines over all merged files. */
  ghost function TrueTotal(files: seq<FileCoverage>, all: seq<FileCoverage>, exec: FileCoverage -> set<int>): nat {
    if files == [] then 0 else |TrueLines(all, files[0].path, exec)| + TrueTotal(files[1..], all, exec)
  }

  ghost function TrueCovered(files: seq<FileCoverage>, all: seq<FileCoverage>, exec: FileCoverage -> set<int>): nat {
    if files == [] then 0 else |TrueRan(all, files[0].path, exec)| + TrueCovered(files[1..], all, exec)
  }

  lemma {:induction false} SumsAgainstTruth(files: seq<FileCoverage>, all: seq<FileCoverage>,
      exec: FileCoverage -> set<int>)
    requires Truth(all, exec) && forall r :: r in files ==> IsMergedFile(r, all) && HasPath(all, r.path)
    ensures var covered, total := Sorting.Weight(files, Covered()), Sorting.Weight(files, Total());
            && 0 <= covered <= total <= TrueTotal(files, all, exec)
            && TrueTotal(files, all, exec) - (total - covered) <= TrueCovered(files, all, exec)
            && ((forall p :: Agree(all, p)) ==>
                  covered == TrueCovered(files, all, exec) && total == TrueTotal(files, all, exec))
  {
    if files != [] {
      assert files[0] in files;
      FileAgainstTruth(files[0], all, exec);
      if Agree(all, files[0].path) {
        AgreedIsExact(files[0], all, exec);
      }
      SumsAgainstTruth(files[1..], all, exec);
    }
  }

  /** The merged result never overstates, and is exact when no parts disagree. */
  lemma MergeNeverOverstates(out: Coverage, conflicts: seq<string>, rs: seq<Coverage>, exec: FileCoverage -> set<int>)
    requires IsMerge(out, conflicts, rs) && Truth(Files(rs), exec)
    ensures 0 <= out.covered <= TrueCovered(out.files, Files(rs), exec)
    ensures out.covered * TrueTotal(out.files, Files(rs), exec) <= TrueCovered(out.files, Files(rs), exec) * out.total
    ensures conflicts == [] ==>
            out.covered == TrueCovered(out.files, Files(rs), exec) && out.total == TrueTotal(out.files, Files(rs), exec)
  {
    var all := Files(rs);
    assert forall r :: r in out.files ==> HasPath(out.files, r.path);
    SumsAgainstTruth(out.files, all, exec);
    RatioBound(out.total, out.total - out.covered, TrueCovered(out.files, all, exec), TrueTotal(out.files, all, exec));
    if conflicts == [] {
      forall p ensures Agree(all, p) {
        assert p !in conflicts;
      }
    }
  }
}
