/**
  Merging coverage profiles: blocks at one position of one file become one
  block, with the counts summed. The result does not depend on the order or
  the grouping of the inputs.
*/
module ProfileMerge {
  import opened Profile
  import Spans
  import Sorting

  /** Where a block is: what blocks are merged by. */
  datatype Pos = Pos(startLine: int, startCol: int, endLine: int, endCol: int)

  /** One block of one file. */
  datatype Entry = Entry(path: string, block: Block)

  function PosOf(b: Block): Pos {
    Pos(b.startLine, b.startCol, b.endLine, b.endCol)
  }

  /** `comparePos(a, b) < 0`: by start, then by end. */
  predicate PosLess(a: Block, b: Block) {
    if a.startLine != b.startLine then a.startLine < b.startLine
    else if a.startCol != b.startCol then a.startCol < b.startCol
    else if a.endLine != b.endLine then a.endLine < b.endLine
    else a.endCol < b.endCol
  }

  predicate PosLe(a: Block, b: Block) {
    !PosLess(b, a)
  }

  predicate PathLess(a: File, b: File) {
    Sorting.StringLess(a.path, b.path)
  }

  // ----- the entries of profiles, and what they add up to

  function FileEntries(path: string, blocks: seq<Block>): seq<Entry> {
    if blocks == [] then [] else [Entry(path, blocks[0])] + FileEntries(path, blocks[1..])
  }

  function Entries(files: seq<File>): seq<Entry> {
    if files == [] then [] else FileEntries(files[0].path, files[0].blocks) + Entries(files[1..])
  }

  predicate At(e: Entry, path: string, pos: Pos) {
    e.path == path && PosOf(e.block) == pos
  }

  ghost predicate Present(es: seq<Entry>, path: string, pos: Pos) {
    exists e :: e in es && At(e, path, pos)
  }

  function SumCount(es: seq<Entry>, path: string, pos: Pos): int {
    if es == [] then 0 else (if At(es[0], path, pos) then es[0].block.count else 0) + SumCount(es[1..], path, pos)
  }

  ghost predicate Reports(es: seq<Entry>, path: string, pos: Pos, n: int) {
    exists e :: e in es && At(e, path, pos) && e.block.numStmts == n
  }

  /** The largest statement count reported for the position. */
  ghost predicate IsMaxStmts(n: int, es: seq<Entry>, path: string, pos: Pos) {
    && Reports(es, path, pos, n)
    && (forall e :: e in es && At(e, path, pos) ==> e.block.numStmts <= n)
  }

  /** The block is what the entries at its position merge to. */
  ghost predicate Tallies(b: Block, es: seq<Entry>, path: string) {
    b.count == SumCount(es, path, PosOf(b)) && IsMaxStmts(b.numStmts, es, path, PosOf(b))
  }

  /** The merge of the entries of the given files, in canonical form. */
  ghost predicate IsMerge(out: seq<File>, es: seq<Entry>, paths: set<string>) {
    && Sorting.Rising(out, PathLess)
    && (forall f :: f in out ==> IsMergedFile(f, es))
    && (forall p :: p in paths <==> HasPath(out, p))
  }

  ghost predicate HasPath(files: seq<File>, path: string) {
    exists f :: f in files && f.path == path
  }

  ghost predicate HasPos(blocks: seq<Block>, pos: Pos) {
    exists b :: b in blocks && PosOf(b) == pos
  }

  ghost predicate IsMergedFile(f: File, es: seq<Entry>) {
    && Sorting.Rising(f.blocks, PosLess)
    && (forall b :: b in f.blocks ==> Tallies(b, es, f.path))
    && (forall e :: e in es && e.path == f.path ==> HasPos(f.blocks, PosOf(e.block)))
  }

  function PathsOf(files: seq<File>): set<string> {
    set f | f in files :: f.path
  }

  // ----- there is one merge, whatever the order or grouping

  lemma TalliesAreEqual(a: Block, b: Block, es: seq<Entry>, path: string)
    requires PosOf(a) == PosOf(b) && Tallies(a, es, path) && Tallies(b, es, path)
    ensures a == b
  {
  }

  lemma MergedFileIsUnique(f: File, g: File, es: seq<Entry>)
    requires IsMergedFile(f, es) && IsMergedFile(g, es) && f.path == g.path
    ensures f == g
  {
    forall b ensures b in f.blocks <==> b in g.blocks {
      if b in f.blocks {
        BlockCarriesOver(b, f, g, es);
      }
      if b in g.blocks {
        BlockCarriesOver(b, g, f, es);
      }
    }
    Sorting.RisingIsUnique(f.blocks, g.blocks, PosLess);
  }

  lemma BlockCarriesOver(b: Block, f: File, g: File, es: seq<Entry>)
    requires IsMergedFile(f, es) && IsMergedFile(g, es) && f.path == g.path && b in f.blocks
    ensures b in g.blocks
  {
    assert Tallies(b, es, f.path);
    assert Reports(es, f.path, PosOf(b), b.numStmts);
    var e :| e in es && At(e, f.path, PosOf(b)) && e.block.numStmts == b.numStmts;
    assert HasPos(g.blocks, PosOf(b));
    var c :| c in g.blocks && PosOf(c) == PosOf(b);
    TalliesAreEqual(b, c, es, f.path);
  }

  lemma MergeIsUnique(a: seq<File>, b: seq<File>, es: seq<Entry>, paths: set<string>)
    requires IsMerge(a, es, paths) && IsMerge(b, es, paths)
    ensures a == b
  {
    forall f ensures f in a <==> f in b {
      if f in a {
        assert HasPath(a, f.path) && HasPath(b, f.path);
        var g :| g in b && g.path == f.path;
        MergedFileIsUnique(f, g, es);
      }
      if f in b {
        assert HasPath(b, f.path) && HasPath(a, f.path);
        var g :| g in a && g.path == f.path;
        MergedFileIsUnique(f, g, es);
      }
    }
    Sorting.StringLessIsStrict();
    Sorting.RisingIsUnique(a, b, PathLess);
  }

  /** Two lists of entries that add up alike at every position merge alike. */
  ghost predicate AddUpAlike(es: seq<Entry>, fs: seq<Entry>) {
    forall path, pos :: AlikeAt(es, fs, path, pos)
  }

  ghost predicate AlikeAt(es: seq<Entry>, fs: seq<Entry>, path: string, pos: Pos) {
    && SumCount(es, path, pos) == SumCount(fs, path, pos)
    && forall n :: IsMaxStmts(n, es, path, pos) <==> IsMaxStmts(n, fs, path, pos)
  }

  lemma {:induction false} MaxExists(es: seq<Entry>, path: string, pos: Pos) returns (n: int)
    requires Present(es, path, pos)
    ensures IsMaxStmts(n, es, path, pos)
  {
    var e :| e in es && At(e, path, pos);
    n := e.block.numStmts;
    for i := 0 to |es|
      invariant Reports(es, path, pos, n)
      invariant forall j :: 0 <= j < i && At(es[j], path, pos) ==> es[j].block.numStmts <= n
    {
      if At(es[i], path, pos) && n < es[i].block.numStmts {
        n := es[i].block.numStmts;
        assert es[i] in es;
      }
    }
  }

  lemma MaxMoves(es: seq<Entry>, fs: seq<Entry>, path: string, pos: Pos, n: int)
    requires IsMaxStmts(n, es, path, pos) && (AlikeAt(es, fs, path, pos) || AlikeAt(fs, es, path, pos))
    ensures IsMaxStmts(n, fs, path, pos)
  {
  }

  lemma MergesAlike(out: seq<File>, es: seq<Entry>, fs: seq<Entry>, paths: set<string>)
    requires AddUpAlike(es, fs) && IsMerge(out, es, paths)
    ensures IsMerge(out, fs, paths)
  {
    forall f | f in out ensures IsMergedFile(f, fs) {
      assert IsMergedFile(f, es);
      forall b | b in f.blocks ensures Tallies(b, fs, f.path) {
        assert Tallies(b, es, f.path);
        assert AlikeAt(es, fs, f.path, PosOf(b));
      }
      forall e | e in fs && e.path == f.path ensures HasPos(f.blocks, PosOf(e.block)) {
        var pos := PosOf(e.block);
        assert At(e, f.path, pos);
        assert AlikeAt(es, fs, f.path, pos);
        var n := MaxExists(fs, f.path, pos);
        MaxMoves(fs, es, f.path, pos, n);
        var e' :| e' in es && At(e', f.path, pos) && e'.block.numStmts == n;
      }
    }
  }

  lemma {:induction false} SumSplit(a: seq<Entry>, b: seq<Entry>, path: string, pos: Pos)
    ensures SumCount(a + b, path, pos) == SumCount(a, path, pos) + SumCount(b, path, pos)
    decreases |a|
  {
    if a == [] {
      assert a + b == b;
    } else {
      assert (a + b)[1..] == a[1..] + b;
      SumSplit(a[1..], b, path, pos);
    }
  }

  lemma SumWithout(es: seq<Entry>, i: nat, path: string, pos: Pos)
    requires i < |es|
    ensures SumCount(es, path, pos) ==
            (if At(es[i], path, pos) then es[i].block.count else 0) + SumCount(es[..i] + es[i + 1..], path, pos)
  {
    var tail := [es[i]] + es[i + 1..];
    assert es == es[..i] + tail && tail[1..] == es[i + 1..];
    SumSplit(es[..i], tail, path, pos);
    SumSplit(es[..i], es[i + 1..], path, pos);
  }

  lemma {:induction false} SumIgnoresOrder(a: seq<Entry>, b: seq<Entry>, path: string, pos: Pos)
    requires multiset(a) == multiset(b)
    ensures SumCount(a, path, pos) == SumCount(b, path, pos)
    decreases |a|
  {
    Sorting.SameElements(a, b);
    if a != [] {
      var i := Sorting.RestIsSame(a, b);
      SumIgnoresOrder(a[1..], b[..i] + b[i + 1..], path, pos);
      SumWithout(b, i, path, pos);
    }
  }

  lemma MaxIgnoresOrder(es: seq<Entry>, fs: seq<Entry>, path: string, pos: Pos)
    requires forall e :: e in es <==> e in fs
    ensures forall n :: IsMaxStmts(n, es, path, pos) <==> IsMaxStmts(n, fs, path, pos)
  {
    forall n ensures Reports(es, path, pos, n) <==> Reports(fs, path, pos, n) {
    }
  }

  /** The order of the entries does not matter. */
  lemma SameEntriesMerge(out: seq<File>, es: seq<Entry>, fs: seq<Entry>, paths: set<string>)
    requires multiset(es) == multiset(fs) && IsMerge(out, es, paths)
    ensures IsMerge(out, fs, paths)
  {
    Sorting.SameElements(es, fs);
    forall path, pos ensures AlikeAt(es, fs, path, pos) {
      SumIgnoresOrder(es, fs, path, pos);
      MaxIgnoresOrder(es, fs, path, pos);
    }
    MergesAlike(out, es, fs, paths);
  }

  // ----- a merge stands for what was merged

  lemma {:induction false} InFileEntries(path: string, blocks: seq<Block>, e: Entry)
    ensures e in FileEntries(path, blocks) <==> e.path == path && e.block in blocks
  {
    if blocks != [] {
      InFileEntries(path, blocks[1..], e);
    }
  }

  lemma {:induction false} InEntries(files: seq<File>, e: Entry)
    ensures e in Entries(files) <==> exists f :: f in files && f.path == e.path && e.block in f.blocks
  {
    if files != [] {
      InFileEntries(files[0].path, files[0].blocks, e);
      InEntries(files[1..], e);
    }
  }

  lemma {:induction false} SumAbsent(es: seq<Entry>, path: string, pos: Pos)
    requires !Present(es, path, pos)
    ensures SumCount(es, path, pos) == 0
  {
    if es != [] {
      assert es[0] in es;
      assert !Present(es[1..], path, pos);
      SumAbsent(es[1..], path, pos);
    }
  }

  ghost predicate OnePerPos(blocks: seq<Block>) {
    forall i, j :: 0 <= i < j < |blocks| ==> PosOf(blocks[i]) != PosOf(blocks[j])
  }

  ghost predicate OnePerPath(files: seq<File>) {
    forall i, j :: 0 <= i < j < |files| ==> files[i].path != files[j].path
  }

  lemma {:induction false} SumInFile(blocks: seq<Block>, path: string, b: Block)
    requires OnePerPos(blocks) && b in blocks
    ensures SumCount(FileEntries(path, blocks), path, PosOf(b)) == b.count
  {
    if b == blocks[0] {
      forall e | e in FileEntries(path, blocks[1..]) ensures !At(e, path, PosOf(b)) {
        InFileEntries(path, blocks[1..], e);
        var j :| 0 <= j < |blocks[1..]| && blocks[1..][j] == e.block;
        assert blocks[j + 1] == e.block;
      }
      SumAbsent(FileEntries(path, blocks[1..]), path, PosOf(b));
    } else {
      assert b in blocks[1..];
      var j :| 0 <= j < |blocks| && blocks[j] == b;
      assert PosOf(blocks[0]) != PosOf(b);
      SumInFile(blocks[1..], path, b);
    }
  }

  lemma OnlyTheFirst(files: seq<File>, pos: Pos)
    requires OnePerPath(files) && files != []
    ensures !Present(Entries(files[1..]), files[0].path, pos)
  {
    forall e | e in Entries(files[1..]) ensures !At(e, files[0].path, pos) {
      InEntries(files[1..], e);
      var g :| g in files[1..] && g.path == e.path;
      var j :| 0 <= j < |files[1..]| && files[1..][j] == g;
      assert files[j + 1] == g;
    }
  }

  lemma {:induction false} SumInFiles(files: seq<File>, f: File, b: Block)
    requires OnePerPath(files) && f in files
    requires OnePerPos(f.blocks) && b in f.blocks
    ensures SumCount(Entries(files), f.path, PosOf(b)) == b.count
  {
    var first, rest := FileEntries(files[0].path, files[0].blocks), Entries(files[1..]);
    SumSplit(first, rest, f.path, PosOf(b));
    if f == files[0] {
      SumInFile(f.blocks, f.path, b);
      OnlyTheFirst(files, PosOf(b));
      SumAbsent(rest, f.path, PosOf(b));
    } else {
      var j :| 0 <= j < |files| && files[j] == f;
      assert files[0].path != f.path;
      forall e | e in first ensures !At(e, f.path, PosOf(b)) {
        InFileEntries(files[0].path, files[0].blocks, e);
      }
      SumAbsent(first, f.path, PosOf(b));
      SumInFiles(files[1..], f, b);
    }
  }

  /** The merged block at a position, when anything is reported there. */
  lemma MergedBlock(out: seq<File>, es: seq<Entry>, paths: set<string>, path: string, pos: Pos)
      returns (f: File, b: Block)
    requires IsMerge(out, es, paths) && (forall e :: e in es ==> e.path in paths) && Present(es, path, pos)
    ensures f in out && f.path == path && IsMergedFile(f, es)
    ensures b in f.blocks && PosOf(b) == pos && Tallies(b, es, path)
  {
    var e :| e in es && At(e, path, pos);
    assert HasPath(out, path);
    f :| f in out && f.path == path;
    assert HasPos(f.blocks, PosOf(e.block));
    b :| b in f.blocks && PosOf(b) == pos;
  }

  /** Positions reported in a merge are those reported in what was merged. */
  lemma MergedPresent(out: seq<File>, es: seq<Entry>, paths: set<string>, path: string, pos: Pos)
    requires IsMerge(out, es, paths) && (forall e :: e in es ==> e.path in paths)
    ensures Present(Entries(out), path, pos) <==> Present(es, path, pos)
  {
    if Present(es, path, pos) {
      var f, b := MergedBlock(out, es, paths, path, pos);
      InEntries(out, Entry(path, b));
      assert At(Entry(path, b), path, pos);
    }
    if Present(Entries(out), path, pos) {
      var e :| e in Entries(out) && At(e, path, pos);
      InEntries(out, e);
      var f :| f in out && f.path == e.path && e.block in f.blocks;
      assert IsMergedFile(f, es) && Tallies(e.block, es, path);
      assert Reports(es, path, pos, e.block.numStmts);
    }
  }

  /** At a reported position the merge holds one entry, the merged block. */
  lemma OneMergedEntry(out: seq<File>, es: seq<Entry>, paths: set<string>, f: File, b: Block, e: Entry)
    requires IsMerge(out, es, paths) && f in out && b in f.blocks && e in Entries(out) && At(e, f.path, PosOf(b))
    ensures e == Entry(f.path, b)
  {
    InEntries(out, e);
    var g :| g in out && g.path == e.path && e.block in g.blocks;
    assert IsMergedFile(f, es) && IsMergedFile(g, es);
    MergedFileIsUnique(f, g, es);
    TalliesAreEqual(b, e.block, es, f.path);
  }

  lemma MergeAddsUp(out: seq<File>, es: seq<Entry>, paths: set<string>)
    requires IsMerge(out, es, paths) && forall e :: e in es ==> e.path in paths
    ensures AddUpAlike(Entries(out), es)
  {
    forall path, pos ensures AlikeAt(Entries(out), es, path, pos) {
      MergedPresent(out, es, paths, path, pos);
      if Present(es, path, pos) {
        var f, b := MergedBlock(out, es, paths, path, pos);
        PosOrder();
        SumInFiles(out, f, b);
        InEntries(out, Entry(path, b));
        assert At(Entry(path, b), path, pos);
        forall e | e in Entries(out) && At(e, path, pos) ensures e == Entry(path, b) {
          OneMergedEntry(out, es, paths, f, b, e);
        }
        MaxOfOne(Entries(out), path, pos, b);
        MaxIsOne(es, path, pos, b.numStmts);
      } else {
        SumAbsent(es, path, pos);
        SumAbsent(Entries(out), path, pos);
        NoMax(es, path, pos);
        NoMax(Entries(out), path, pos);
      }
    }
  }

  lemma NoMax(es: seq<Entry>, path: string, pos: Pos)
    requires !Present(es, path, pos)
    ensures forall n :: !IsMaxStmts(n, es, path, pos)
  {
  }

  lemma MaxIsOne(es: seq<Entry>, path: string, pos: Pos, m: int)
    requires IsMaxStmts(m, es, path, pos)
    ensures forall n :: IsMaxStmts(n, es, path, pos) <==> n == m
  {
  }

  lemma MaxOfOne(es: seq<Entry>, path: string, pos: Pos, b: Block)
    requires Entry(path, b) in es && PosOf(b) == pos && forall e :: e in es && At(e, path, pos) ==> e == Entry(path, b)
    ensures forall n :: IsMaxStmts(n, es, path, pos) <==> n == b.numStmts
  {
    assert At(Entry(path, b), path, pos);
    assert Reports(es, path, pos, b.numStmts);
    MaxIsOne(es, path, pos, b.numStmts);
  }

  lemma AddUpAppend(es: seq<Entry>, fs: seq<Entry>, more: seq<Entry>)
    requires AddUpAlike(es, fs)
    ensures AddUpAlike(es + more, fs + more)
  {
    forall path, pos ensures AlikeAt(es + more, fs + more, path, pos) {
      assert AlikeAt(es, fs, path, pos);
      SumSplit(es, more, path, pos);
      SumSplit(fs, more, path, pos);
      forall n ensures IsMaxStmts(n, es + more, path, pos) <==> IsMaxStmts(n, fs + more, path, pos) {
        if IsMaxStmts(n, es + more, path, pos) {
          MaxCarriesOver(es, fs, more, path, pos, n);
        }
        if IsMaxStmts(n, fs + more, path, pos) {
          MaxCarriesOver(fs, es, more, path, pos, n);
        }
      }
    }
  }

  lemma MaxCarriesOver(es: seq<Entry>, fs: seq<Entry>, more: seq<Entry>, path: string, pos: Pos, n: int)
    requires forall m :: IsMaxStmts(m, es, path, pos) <==> IsMaxStmts(m, fs, path, pos)
    requires IsMaxStmts(n, es + more, path, pos)
    ensures IsMaxStmts(n, fs + more, path, pos)
  {
    if Present(fs, path, pos) {
      var m := MaxExists(fs, path, pos);
      assert IsMaxStmts(m, es, path, pos);
    }
    if Present(es, path, pos) {
      var m := MaxExists(es, path, pos);
      assert IsMaxStmts(m, fs, path, pos);
    }
  }

  lemma AlikeBothWays(es: seq<Entry>, fs: seq<Entry>)
    requires AddUpAlike(es, fs)
    ensures AddUpAlike(fs, es)
  {
    forall path, pos ensures AlikeAt(fs, es, path, pos) {
      assert AlikeAt(es, fs, path, pos);
    }
  }

  /** A part merged first can stand for what it was merged from. */
  lemma PartStandsForIts(part: seq<File>, es: seq<Entry>, partPaths: set<string>, more: seq<Entry>, out: seq<File>,
      paths: set<string>)
    requires IsMerge(part, es, partPaths) && forall e :: e in es ==> e.path in partPaths
    ensures IsMerge(out, Entries(part) + more, paths) <==> IsMerge(out, es + more, paths)
  {
    MergeAddsUp(part, es, partPaths);
    AddUpAppend(Entries(part), es, more);
    if IsMerge(out, Entries(part) + more, paths) {
      MergesAlike(out, Entries(part) + more, es + more, paths);
    }
    if IsMerge(out, es + more, paths) {
      AlikeBothWays(Entries(part) + more, es + more);
      MergesAlike(out, es + more, Entries(part) + more, paths);
    }
  }

  // ----- the merge itself

  function Flatten(profiles: seq<seq<File>>): seq<File> {
    Sorting.Join(profiles, AsFiles())
  }

  function AsFiles(): seq<File> -> seq<File> {
    (files: seq<File>) => files
  }

  /** Blocks by position, by file, as the entries so far add up to them. */
  ghost predicate Gathered(byFile: map<string, map<Pos, Block>>, es: seq<Entry>, paths: set<string>) {
    && byFile.Keys == paths
    && (forall p :: p in byFile ==> GatheredFile(byFile[p], es, p))
    && (forall e :: e in es ==> e.path in byFile)
  }

  ghost predicate GatheredFile(blocks: map<Pos, Block>, es: seq<Entry>, path: string) {
    && (forall k :: k in blocks ==> PosOf(blocks[k]) == k && Tallies(blocks[k], es, path))
    && (forall e :: e in es && e.path == path ==> PosOf(e.block) in blocks)
  }

  /** One more block reported for its position. */
  function Added(blocks: map<Pos, Block>, b: Block): map<Pos, Block> {
    var k := PosOf(b);
    if k in blocks then
      var ex := blocks[k].(count := blocks[k].count + b.count);
      blocks[k := if ex.numStmts < b.numStmts then ex.(numStmts := b.numStmts) else ex]
    else blocks[k := b]
  }

  lemma {:induction false} SumOneMore(es: seq<Entry>, e: Entry, path: string, pos: Pos)
    ensures SumCount(es + [e], path, pos) == SumCount(es, path, pos) + if At(e, path, pos) then e.block.count else 0
  {
    SumSplit(es, [e], path, pos);
  }

  lemma TalliesOneMore(b: Block, es: seq<Entry>, path: string, e: Entry)
    requires Tallies(b, es, path) && !At(e, path, PosOf(b))
    ensures Tallies(b, es + [e], path)
  {
    SumOneMore(es, e, path, PosOf(b));
    var r :| r in es && At(r, path, PosOf(b)) && r.block.numStmts == b.numStmts;
    assert r in es + [e];
  }

  lemma GatherOneMore(blocks: map<Pos, Block>, es: seq<Entry>, path: string, b: Block)
    requires GatheredFile(blocks, es, path)
    ensures GatheredFile(Added(blocks, b), es + [Entry(path, b)], path)
  {
    var e, k, more := Entry(path, b), PosOf(b), Added(blocks, b);
    SumOneMore(es, e, path, k);
    forall j | j in more ensures PosOf(more[j]) == j && Tallies(more[j], es + [e], path) {
      if j != k {
        TalliesOneMore(blocks[j], es, path, e);
      } else if k in blocks {
        assert Tallies(blocks[k], es, path);
        var r :| r in es && At(r, path, k) && r.block.numStmts == blocks[k].numStmts;
        assert r in es + [e] && e in es + [e];
        assert Reports(es + [e], path, k, more[k].numStmts);
      } else {
        assert !Present(es, path, k);
        SumAbsent(es, path, k);
        assert e in es + [e];
        assert Reports(es + [e], path, k, b.numStmts);
      }
    }
  }

  lemma OtherFileGathers(blocks: map<Pos, Block>, es: seq<Entry>, path: string, e: Entry)
    requires GatheredFile(blocks, es, path) && e.path != path
    ensures GatheredFile(blocks, es + [e], path)
  {
    forall k | k in blocks ensures Tallies(blocks[k], es + [e], path) {
      TalliesOneMore(blocks[k], es, path, e);
    }
  }

  lemma {:induction false} OtherFileGathersAll(blocks: map<Pos, Block>, es: seq<Entry>, path: string, more: seq<Entry>)
    requires GatheredFile(blocks, es, path) && forall e :: e in more ==> e.path != path
    ensures GatheredFile(blocks, es + more, path)
    decreases |more|
  {
    if more == [] {
      assert es + more == es;
    } else {
      OtherFileGathers(blocks, es, path, more[0]);
      OtherFileGathersAll(blocks, es + [more[0]], path, more[1..]);
      assert es + more == es + [more[0]] + more[1..];
    }
  }

  lemma GatherFileIn(byFile: map<string, map<Pos, Block>>, es: seq<Entry>, paths: set<string>, f: File,
      blocks: map<Pos, Block>)
    requires Gathered(byFile, es, paths) && GatheredFile(blocks, es + FileEntries(f.path, f.blocks), f.path)
    ensures Gathered(byFile[f.path := blocks], es + FileEntries(f.path, f.blocks), paths + {f.path})
  {
    var more := FileEntries(f.path, f.blocks);
    var next := byFile[f.path := blocks];
    forall e | e in more ensures e.path == f.path {
      InFileEntries(f.path, f.blocks, e);
    }
    forall p | p in next ensures GatheredFile(next[p], es + more, p) {
      if p != f.path {
        OtherFileGathersAll(byFile[p], es, p, more);
      }
    }
  }

  function AsEntries(): File -> seq<Entry> {
    (f: File) => FileEntries(f.path, f.blocks)
  }

  function AsEntry(path: string): Block -> seq<Entry> {
    (b: Block) => [Entry(path, b)]
  }

  lemma {:induction false} EntriesJoin(files: seq<File>)
    ensures Entries(files) == Sorting.Join(files, AsEntries())
  {
    if files != [] {
      EntriesJoin(files[1..]);
    }
  }

  lemma {:induction false} FileEntriesJoin(path: string, blocks: seq<Block>)
    ensures FileEntries(path, blocks) == Sorting.Join(blocks, AsEntry(path))
  {
    if blocks != [] {
      FileEntriesJoin(path, blocks[1..]);
    }
  }

  lemma FileEntriesOneMore(path: string, blocks: seq<Block>, n: nat)
    requires n < |blocks|
    ensures FileEntries(path, blocks[..n + 1]) == FileEntries(path, blocks[..n]) + [Entry(path, blocks[n])]
  {
    FileEntriesJoin(path, blocks[..n + 1]);
    FileEntriesJoin(path, blocks[..n]);
    Sorting.JoinOneMore(blocks, n, AsEntry(path));
  }

  lemma EntriesSplit(a: seq<File>, b: seq<File>)
    ensures Entries(a + b) == Entries(a) + Entries(b)
  {
    EntriesJoin(a);
    EntriesJoin(b);
    EntriesJoin(a + b);
    Sorting.JoinSplit(a, b, AsEntries());
  }

  lemma PosOrder()
    ensures Sorting.TotalOrder(PosLe)
    ensures forall a, b :: PosLe(a, b) && PosOf(a) != PosOf(b) ==> PosLess(a, b)
    ensures forall a, b :: PosLess(a, b) ==> !PosLess(b, a) && PosOf(a) != PosOf(b)
  {
  }

  /** The blocks of a map, gathered in no particular order and sorted by position. */
  method SortedBlocks(blocks: map<Pos, Block>) returns (merged: seq<Block>)
    requires forall k :: k in blocks ==> PosOf(blocks[k]) == k
    ensures Sorting.Rising(merged, PosLess)
    ensures forall b :: b in merged <==> PosOf(b) in blocks && blocks[PosOf(b)] == b
  {
    var keys := Sorting.Keys(blocks);
    var all: seq<Block> := [];
    for i := 0 to |keys|
      invariant |all| == i && forall j :: 0 <= j < i ==> all[j] == blocks[keys[j]]
    {
      all := all + [blocks[keys[i]]];
    }
    ListedBlocks(blocks, keys, all);
    merged := SortByPos(all);
  }

  lemma ListedBlocks(blocks: map<Pos, Block>, keys: seq<Pos>, all: seq<Block>)
    requires forall k :: k in blocks ==> PosOf(blocks[k]) == k
    requires Sorting.Distinct(keys) && forall k :: k in keys <==> k in blocks
    requires |all| == |keys| && forall j :: 0 <= j < |keys| ==> all[j] == blocks[keys[j]]
    ensures forall i, j :: 0 <= i < j < |all| ==> PosOf(all[i]) != PosOf(all[j])
    ensures forall b :: b in all <==> PosOf(b) in blocks && blocks[PosOf(b)] == b
  {
    forall b | PosOf(b) in blocks && blocks[PosOf(b)] == b ensures b in all {
      var j :| 0 <= j < |keys| && keys[j] == PosOf(b);
      assert all[j] == b;
    }
  }

  /** Blocks at distinct positions sorted by position: strictly rising. */
  method SortByPos(all: seq<Block>) returns (merged: seq<Block>)
    requires forall i, j :: 0 <= i < j < |all| ==> PosOf(all[i]) != PosOf(all[j])
    ensures Sorting.Rising(merged, PosLess) && multiset(merged) == multiset(all)
    ensures forall b :: b in merged <==> b in all
  {
    PosOrder();
    Sorting.SortSorts(all, PosLe);
    merged := Sorting.Sort(all, PosLe);
    Sorting.SameElements(merged, all);
    Sorting.SameDistinct(merged, all);
    forall i, j | 0 <= i < j < |merged| ensures PosLess(merged[i], merged[j]) {
      assert PosLe(merged[i], merged[j]) && merged[i] in all && merged[j] in all && merged[i] != merged[j];
    }
  }

  /** A block summed into the one at its position, or entered as it is. */
  method AddBlock(blocks: map<Pos, Block>, b: Block) returns (more: map<Pos, Block>)
    ensures more == Added(blocks, b)
  {
    var key := PosOf(b);
    if key in blocks {
      var ex := blocks[key];
      ex := ex.(count := ex.count + b.count);
      if b.numStmts > ex.numStmts {
        ex := ex.(numStmts := b.numStmts);
      }
      more := blocks[key := ex];
    } else {
      more := blocks[key := b];
    }
  }

  /** One file's blocks taken into what is gathered for its path. */
  method GatherFile(start: map<Pos, Block>, f: File, ghost es: seq<Entry>) returns (blocks: map<Pos, Block>)
    requires GatheredFile(start, es, f.path)
    ensures GatheredFile(blocks, es + FileEntries(f.path, f.blocks), f.path)
  {
    blocks := start;
    ghost var seen := es;
    assert es + FileEntries(f.path, f.blocks[..0]) == es;
    for k := 0 to |f.blocks|
      invariant GatheredFile(blocks, seen, f.path) && seen == es + FileEntries(f.path, f.blocks[..k])
    {
      var b := f.blocks[k];
      FileEntriesOneMore(f.path, f.blocks, k);
      GatherOneMore(blocks, seen, f.path, b);
      blocks := AddBlock(blocks, b);
      seen := seen + [Entry(f.path, b)];
    }
    assert f.blocks[..|f.blocks|] == f.blocks;
  }

  lemma OneMoreFile(done: seq<File>, f: File)
    ensures Entries(done + [f]) == Entries(done) + FileEntries(f.path, f.blocks)
    ensures PathsOf(done + [f]) == PathsOf(done) + {f.path}
  {
    EntriesSplit(done, [f]);
    assert Entries([f]) == FileEntries(f.path, f.blocks);
    assert forall g :: g in done + [f] <==> g in done || g == f;
  }

  /** One more file gathered, into its path's blocks. */
  method GatherOne(start: map<string, map<Pos, Block>>, f: File, ghost done: seq<File>)
      returns (byFile: map<string, map<Pos, Block>>)
    requires Gathered(start, Entries(done), PathsOf(done))
    ensures Gathered(byFile, Entries(done + [f]), PathsOf(done + [f]))
  {
    NothingGathered(start, Entries(done), PathsOf(done), f.path);
    var blocks := GatherFile(if f.path in start then start[f.path] else map[], f, Entries(done));
    GatherFileIn(start, Entries(done), PathsOf(done), f, blocks);
    OneMoreFile(done, f);
    byFile := start[f.path := blocks];
  }

  method GatherProfile(start: map<string, map<Pos, Block>>, files: seq<File>, ghost before: seq<File>)
      returns (byFile: map<string, map<Pos, Block>>)
    requires Gathered(start, Entries(before), PathsOf(before))
    ensures Gathered(byFile, Entries(before + files), PathsOf(before + files))
  {
    byFile := start;
    ghost var done := before;
    for j := 0 to |files|
      invariant done == before + files[..j]
      invariant Gathered(byFile, Entries(done), PathsOf(done))
    {
      Sorting.OneMoreAfter(before, files, j);
      byFile := GatherOne(byFile, files[j], done);
      done := done + [files[j]];
    }
    assert before + files[..|files|] == before + files;
  }

  method Gather(profiles: seq<seq<File>>) returns (byFile: map<string, map<Pos, Block>>)
    ensures Gathered(byFile, Entries(Flatten(profiles)), PathsOf(Flatten(profiles)))
  {
    byFile := map[];
    ghost var done: seq<File> := [];
    for i := 0 to |profiles|
      invariant done == Flatten(profiles[..i])
      invariant Gathered(byFile, Entries(done), PathsOf(done))
    {
      Sorting.JoinOneMore(profiles, i, AsFiles());
      byFile := GatherProfile(byFile, profiles[i], done);
      done := done + profiles[i];
    }
    assert profiles[..|profiles|] == profiles;
  }

  lemma NothingGathered(byFile: map<string, map<Pos, Block>>, es: seq<Entry>, paths: set<string>, path: string)
    requires Gathered(byFile, es, paths)
    ensures GatheredFile(if path in byFile then byFile[path] else map[], es, path)
  {
  }

  method Merge(profiles: seq<seq<File>>) returns (out: seq<File>)
    ensures IsMerge(out, Entries(Flatten(profiles)), PathsOf(Flatten(profiles)))
  {
    var byFile := Gather(profiles);
    ghost var es := Entries(Flatten(profiles));
    var sorted := Sorting.SortedPaths(byFile);
    out := [];
    for i := 0 to |sorted|
      invariant |out| == i && forall j :: 0 <= j < i ==> out[j].path == sorted[j] && IsMergedFile(out[j], es)
    {
      var blocks := byFile[sorted[i]];
      assert GatheredFile(blocks, es, sorted[i]);
      var merged := SortedBlocks(blocks);
      MergedFileIs(sorted[i], merged, blocks, es);
      out := out + [File(sorted[i], merged)];
    }
    OutIsMerge(out, sorted, es, PathsOf(Flatten(profiles)));
  }

  lemma MergedFileIs(path: string, merged: seq<Block>, blocks: map<Pos, Block>, es: seq<Entry>)
    requires GatheredFile(blocks, es, path) && Sorting.Rising(merged, PosLess)
    requires forall b :: b in merged <==> PosOf(b) in blocks && blocks[PosOf(b)] == b
    ensures IsMergedFile(File(path, merged), es)
  {
    forall e | e in es && e.path == path ensures HasPos(merged, PosOf(e.block)) {
      assert blocks[PosOf(e.block)] in merged;
    }
  }

  lemma OutIsMerge(out: seq<File>, sorted: seq<string>, es: seq<Entry>, paths: set<string>)
    requires Sorting.Rising(sorted, Sorting.StringLess) && (forall p :: p in sorted <==> p in paths)
             && |out| == |sorted|
    requires forall j :: 0 <= j < |out| ==> out[j].path == sorted[j] && IsMergedFile(out[j], es)
    ensures IsMerge(out, es, paths)
  {
    forall p ensures p in paths <==> HasPath(out, p) {
      if p in paths {
        var j :| 0 <= j < |sorted| && sorted[j] == p;
        assert out[j] in out;
      }
    }
  }

  /** Whether blocks are as a merge leaves them: merging them again changes nothing. */
  method Canonical(blocks: seq<Block>) returns (r: bool)
    ensures r == Sorting.Rising(blocks, PosLess)
  {
    var i := 1;
    while i < |blocks|
      invariant 1 <= i && (blocks != [] ==> i <= |blocks| && Sorting.Rising(blocks[..i], PosLess))
    {
      if !PosLess(blocks[i - 1], blocks[i]) {
        return false;
      }
      forall j | 0 <= j < i ensures PosLess(blocks[j], blocks[i]) {
        assert j < i - 1 ==> PosLess(blocks[..i][j], blocks[..i][i - 1]);
      }
      i := i + 1;
    }
    assert blocks == [] || blocks[..|blocks|] == blocks;
    return true;
  }

  // ----- any order of profiles, of their files, and of a file's blocks

  /** Rearranging files rearranges their entries, and keeps their paths. */
  lemma EntriesIgnoreOrder(a: seq<File>, b: seq<File>)
    requires multiset(a) == multiset(b)
    ensures multiset(Entries(a)) == multiset(Entries(b)) && PathsOf(a) == PathsOf(b)
  {
    EntriesJoin(a);
    EntriesJoin(b);
    Sorting.JoinIgnoresOrder(a, b, AsEntries());
    Sorting.SameElements(a, b);
  }

  lemma FileEntriesIgnoreOrder(path: string, a: seq<Block>, b: seq<Block>)
    requires multiset(a) == multiset(b)
    ensures multiset(FileEntries(path, a)) == multiset(FileEntries(path, b))
  {
    FileEntriesJoin(path, a);
    FileEntriesJoin(path, b);
    Sorting.JoinIgnoresOrder(a, b, AsEntry(path));
  }

  /** The same files with the same blocks, each file's in any order. */
  ghost predicate SameBlocks(a: seq<File>, b: seq<File>) {
    && |a| == |b|
    && (forall i :: 0 <= i < |a| ==> a[i].path == b[i].path && multiset(a[i].blocks) == multiset(b[i].blocks))
  }

  lemma {:induction false} SameBlocksSameEntries(a: seq<File>, b: seq<File>)
    requires SameBlocks(a, b)
    ensures multiset(Entries(a)) == multiset(Entries(b))
    decreases |a|
  {
    if a != [] {
      FileEntriesIgnoreOrder(a[0].path, a[0].blocks, b[0].blocks);
      SameBlocksSameEntries(a[1..], b[1..]);
    }
  }

  lemma SameBlocksSamePaths(a: seq<File>, b: seq<File>)
    requires SameBlocks(a, b)
    ensures PathsOf(a) == PathsOf(b)
  {
    forall p ensures p in PathsOf(a) <==> p in PathsOf(b) {
      if p in PathsOf(a) {
        var i :| 0 <= i < |a| && a[i].path == p;
        assert b[i] in b;
      }
      if p in PathsOf(b) {
        var i :| 0 <= i < |b| && b[i].path == p;
        assert a[i] in a;
      }
    }
  }

  /** The same profiles but for order: their files in any order (`files`), and each file's blocks in any order. */
  ghost predicate SameButForOrder(a: seq<seq<File>>, b: seq<seq<File>>) {
    exists files :: multiset(files) == multiset(Flatten(a)) && SameBlocks(files, Flatten(b))
  }

  /** Reordering the profiles is one such change of order. */
  lemma ProfilesInAnyOrder(a: seq<seq<File>>, b: seq<seq<File>>)
    requires multiset(a) == multiset(b)
    ensures SameButForOrder(a, b)
  {
    Sorting.JoinIgnoresOrder(a, b, AsFiles());
    assert SameBlocks(Flatten(b), Flatten(b));
  }

  /** Profiles in any order, their files in any order and their blocks in any order merge to the same profile. */
  lemma MergeIgnoresOrder(a: seq<seq<File>>, b: seq<seq<File>>, out: seq<File>, out': seq<File>)
    requires SameButForOrder(a, b)
    requires IsMerge(out, Entries(Flatten(a)), PathsOf(Flatten(a)))
             && IsMerge(out', Entries(Flatten(b)), PathsOf(Flatten(b)))
    ensures out == out'
  {
    var files :| multiset(files) == multiset(Flatten(a)) && SameBlocks(files, Flatten(b));
    EntriesIgnoreOrder(files, Flatten(a));
    SameBlocksSameEntries(files, Flatten(b));
    SameBlocksSamePaths(files, Flatten(b));
    SameEntriesMerge(out, Entries(Flatten(a)), Entries(Flatten(b)), PathsOf(Flatten(a)));
    MergeIsUnique(out, out', Entries(Flatten(b)), PathsOf(Flatten(b)));
  }

  // ----- merging in groups

  lemma PathsSplit(a: seq<File>, b: seq<File>)
    ensures PathsOf(a + b) == PathsOf(a) + PathsOf(b)
  {
  }

  lemma PathsAreHeld(files: seq<File>)
    ensures forall p :: p in PathsOf(files) <==> HasPath(files, p)
  {
  }

  lemma PathsOfMerge(out: seq<File>, es: seq<Entry>, paths: set<string>)
    requires IsMerge(out, es, paths)
    ensures PathsOf(out) == paths
  {
    PathsAreHeld(out);
  }

  lemma EntriesHavePaths(files: seq<File>)
    ensures forall e :: e in Entries(files) ==> e.path in PathsOf(files)
  {
    forall e | e in Entries(files) ensures e.path in PathsOf(files) {
      InEntries(files, e);
    }
  }

  /** Merging some profiles first and the rest into that is merging them all. */
  lemma MergeGroups(part: seq<File>, a: seq<seq<File>>, b: seq<seq<File>>, out: seq<File>)
    requires IsMerge(part, Entries(Flatten(a)), PathsOf(Flatten(a)))
    ensures IsMerge(out, Entries(Flatten([part] + b)), PathsOf(Flatten([part] + b)))
            <==> IsMerge(out, Entries(Flatten(a + b)), PathsOf(Flatten(a + b)))
  {
    var xs, ys := Flatten(a), Flatten(b);
    Sorting.JoinSplit(a, b, AsFiles());
    Sorting.JoinSplit([part], b, AsFiles());
    Sorting.JoinOne(part, AsFiles());
    EntriesSplit(xs, ys);
    EntriesSplit(part, ys);
    PathsSplit(xs, ys);
    PathsSplit(part, ys);
    PathsOfMerge(part, Entries(xs), PathsOf(xs));
    EntriesHavePaths(xs);
    PartStandsForIts(part, Entries(xs), PathsOf(xs), Entries(ys), out, PathsOf(xs) + PathsOf(ys));
  }

  // ----- the lines of a merge

  /** Some entry of the file that `keep` accepts spans the line. */
  ghost predicate EntrySpans(es: seq<Entry>, path: string, keep: Block -> bool, l: int) {
    exists e :: e in es && e.path == path && keep(e.block) && e.block.startLine <= l <= e.block.endLine
  }

  /** Entries at one position agree on whether it holds statements, and no count is negative. */
  ghost predicate Consistent(es: seq<Entry>) {
    && (forall e :: e in es ==> 0 <= e.block.count)
    && (forall d, e :: d in es && e in es && At(d, e.path, PosOf(e.block)) ==>
          (Statement(d.block) <==> Statement(e.block)))
  }

  lemma {:induction false} SumPositive(es: seq<Entry>, path: string, pos: Pos)
    requires forall e :: e in es ==> 0 <= e.block.count
    ensures 0 <= SumCount(es, path, pos)
    ensures 0 < SumCount(es, path, pos) <==> exists e :: e in es && At(e, path, pos) && 0 < e.block.count
  {
    if es != [] {
      SumPositive(es[1..], path, pos);
      assert es == [es[0]] + es[1..];
      if e :| e in es && At(e, path, pos) && 0 < e.block.count && e != es[0] {
        assert e in es[1..];
      }
    }
  }

  lemma StatementCarries(f: File, es: seq<Entry>, b: Block)
    requires IsMergedFile(f, es) && b in f.blocks
    ensures Statement(b) <==> exists e :: e in es && At(e, f.path, PosOf(b)) && Statement(e.block)
  {
    assert Tallies(b, es, f.path);
    var e :| e in es && At(e, f.path, PosOf(b)) && e.block.numStmts == b.numStmts;
  }

  /** A merged file's executable lines are the union of its inputs'. */
  lemma MergedExecutable(f: File, es: seq<Entry>, l: int)
    requires IsMergedFile(f, es)
    ensures Spans.Spanned(f.blocks, Statement, l) <==> EntrySpans(es, f.path, Statement, l)
  {
    if Spans.Spanned(f.blocks, Statement, l) {
      var i :| 0 <= i < |f.blocks| && Statement(f.blocks[i]) && f.blocks[i].startLine <= l <= f.blocks[i].endLine;
      StatementCarries(f, es, f.blocks[i]);
    }
    if e :| e in es && e.path == f.path && Statement(e.block) && e.block.startLine <= l <= e.block.endLine {
      assert HasPos(f.blocks, PosOf(e.block));
      var b :| b in f.blocks && PosOf(b) == PosOf(e.block);
      assert At(e, f.path, PosOf(b));
      StatementCarries(f, es, b);
    }
  }

  lemma RanCarries(f: File, es: seq<Entry>, b: Block)
    requires IsMergedFile(f, es) && Consistent(es) && b in f.blocks
    ensures Ran(b) <==> exists e :: e in es && At(e, f.path, PosOf(b)) && Ran(e.block)
  {
    assert Tallies(b, es, f.path);
    SumPositive(es, f.path, PosOf(b));
    StatementCarries(f, es, b);
  }

  /** And so are the lines it ran, when the inputs are consistent. */
  lemma MergedRan(f: File, es: seq<Entry>, l: int)
    requires IsMergedFile(f, es) && Consistent(es)
    ensures Spans.Spanned(f.blocks, Ran, l) <==> EntrySpans(es, f.path, Ran, l)
  {
    if Spans.Spanned(f.blocks, Ran, l) {
      var i :| 0 <= i < |f.blocks| && Ran(f.blocks[i]) && f.blocks[i].startLine <= l <= f.blocks[i].endLine;
      RanCarries(f, es, f.blocks[i]);
    }
    if e :| e in es && e.path == f.path && Ran(e.block) && e.block.startLine <= l <= e.block.endLine {
      assert HasPos(f.blocks, PosOf(e.block));
      var b :| b in f.blocks && PosOf(b) == PosOf(e.block);
      assert At(e, f.path, PosOf(b));
      RanCarries(f, es, b);
    }
  }
}
