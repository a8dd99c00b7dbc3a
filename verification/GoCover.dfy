/** Parsing Go cover profiles: lines at one position of a file become one block. */
module GoCover {
  import opened Profile
  import opened ProfileMerge
  import Sorting

  /** A line of a profile, trimmed: blank, a mode line, or a block, which may be malformed. */
  datatype Line = Blank | Mode | Data(entry: Entry) | Malformed

  /** The files, or the 1-based number of the line at fault (0: no mode line at all). */
  datatype Parsed = Files(files: seq<File>) | Failed(line: nat)

  function DataOf(lines: seq<Line>): seq<Entry> {
    Sorting.Join(lines, LineData())
  }

  function LineData(): Line -> seq<Entry> {
    (l: Line) => if l.Data? then [l.entry] else []
  }

  /** The line cannot be taken: it is no block, or no mode line came before it. */
  predicate Faulty(lines: seq<Line>, i: nat)
    requires i < |lines|
  {
    lines[i].Malformed? || (lines[i].Data? && Mode !in lines[..i])
  }

  // ----- what a parse is

  /** Statements as the first line at the position has them; 0 where there is none. */
  function FirstStmts(es: seq<Entry>, path: string, pos: Pos): int {
    if es == [] then 0
    else if At(es[0], path, pos) then es[0].block.numStmts
    else FirstStmts(es[1..], path, pos)
  }

  ghost predicate IsParsedBlock(b: Block, es: seq<Entry>, path: string) {
    && Present(es, path, PosOf(b))
    && b.count == SumCount(es, path, PosOf(b))
    && b.numStmts == FirstStmts(es, path, PosOf(b))
  }

  /** Blocks by position, as the lines so far give them. */
  ghost predicate IsParsedMap(blocks: map<Pos, Block>, es: seq<Entry>, path: string) {
    && (forall k :: k in blocks ==> PosOf(blocks[k]) == k && IsParsedBlock(blocks[k], es, path))
    && (forall e :: e in es && e.path == path ==> PosOf(e.block) in blocks)
  }

  ghost predicate IsParsing(files: map<string, map<Pos, Block>>, es: seq<Entry>) {
    && (forall p :: p in files ==> IsParsedMap(files[p], es, p))
    && (forall p :: p in files <==> HasEntry(es, p))
  }

  ghost predicate HasEntry(es: seq<Entry>, path: string) {
    exists e :: e in es && e.path == path
  }

  /** Sorted by where blocks start; blocks that start together are in no particular order. */
  predicate StartLe(a: Block, b: Block) {
    a.startLine < b.startLine || (a.startLine == b.startLine && a.startCol <= b.startCol)
  }

  ghost predicate IsParsedFile(f: File, es: seq<Entry>) {
    && OnePerPos(f.blocks)
    && Sorting.Ordered(f.blocks, StartLe)
    && (forall b :: b in f.blocks ==> IsParsedBlock(b, es, f.path))
    && (forall e :: e in es && e.path == f.path ==> HasPos(f.blocks, PosOf(e.block)))
  }

  ghost predicate IsParse(files: seq<File>, es: seq<Entry>) {
    && Sorting.Rising(files, PathLess)
    && (forall f :: f in files ==> IsParsedFile(f, es))
    && (forall p :: HasPath(files, p) <==> HasEntry(es, p))
  }

  // ----- one more line

  lemma {:induction false} FirstSplit(a: seq<Entry>, b: seq<Entry>, path: string, pos: Pos)
    ensures FirstStmts(a + b, path, pos) ==
            if Present(a, path, pos) then FirstStmts(a, path, pos) else FirstStmts(b, path, pos)
    decreases |a|
  {
    if a == [] {
      assert a + b == b;
    } else {
      assert (a + b)[1..] == a[1..] + b && a[0] in a;
      assert forall e :: e in a <==> e == a[0] || e in a[1..];
      assert !At(a[0], path, pos) ==> (Present(a, path, pos) <==> Present(a[1..], path, pos));
      FirstSplit(a[1..], b, path, pos);
    }
  }

  lemma PresentOneMore(es: seq<Entry>, e: Entry, path: string, pos: Pos)
    ensures Present(es + [e], path, pos) <==> Present(es, path, pos) || At(e, path, pos)
  {
    assert forall d :: d in es + [e] <==> d in es || d == e;
  }

  function Collapsed(blocks: map<Pos, Block>, b: Block): map<Pos, Block> {
    var k := PosOf(b);
    if k in blocks then blocks[k := blocks[k].(count := blocks[k].count + b.count)] else blocks[k := b]
  }

  lemma ParsedOneMore(b: Block, es: seq<Entry>, path: string, e: Entry)
    requires IsParsedBlock(b, es, path)
    ensures IsParsedBlock(if At(e, path, PosOf(b)) then b.(count := b.count + e.block.count) else b, es + [e], path)
  {
    SumOneMore(es, e, path, PosOf(b));
    PresentOneMore(es, e, path, PosOf(b));
    FirstSplit(es, [e], path, PosOf(b));
  }

  lemma FirstAtPosition(es: seq<Entry>, e: Entry)
    requires !Present(es, e.path, PosOf(e.block))
    ensures IsParsedBlock(e.block, es + [e], e.path)
  {
    var pos := PosOf(e.block);
    SumOneMore(es, e, e.path, pos);
    SumAbsent(es, e.path, pos);
    PresentOneMore(es, e, e.path, pos);
    FirstSplit(es, [e], e.path, pos);
  }

  lemma CollapseOneMore(blocks: map<Pos, Block>, es: seq<Entry>, e: Entry)
    requires IsParsedMap(blocks, es, e.path)
    ensures IsParsedMap(Collapsed(blocks, e.block), es + [e], e.path)
  {
    var k, more := PosOf(e.block), Collapsed(blocks, e.block);
    if k !in blocks {
      FirstAtPosition(es, e);
    }
    forall j | j in more ensures PosOf(more[j]) == j && IsParsedBlock(more[j], es + [e], e.path) {
      if j in blocks {
        ParsedOneMore(blocks[j], es, e.path, e);
      }
    }
  }

  lemma OtherFileParsed(blocks: map<Pos, Block>, es: seq<Entry>, path: string, e: Entry)
    requires IsParsedMap(blocks, es, path) && e.path != path
    ensures IsParsedMap(blocks, es + [e], path)
  {
    forall k | k in blocks ensures IsParsedBlock(blocks[k], es + [e], path) {
      ParsedOneMore(blocks[k], es, path, e);
    }
  }

  lemma ParsingOneMore(files: map<string, map<Pos, Block>>, es: seq<Entry>, e: Entry, blocks: map<Pos, Block>)
    requires IsParsing(files, es) && IsParsedMap(blocks, es + [e], e.path)
    ensures IsParsing(files[e.path := blocks], es + [e])
  {
    var next := files[e.path := blocks];
    forall p | p in next ensures IsParsedMap(next[p], es + [e], p) {
      if p != e.path {
        OtherFileParsed(files[p], es, p, e);
      }
    }
    forall p ensures p in next <==> HasEntry(es + [e], p) {
      HasOneMore(es, e, p);
    }
  }

  lemma HasOneMore(es: seq<Entry>, e: Entry, path: string)
    ensures HasEntry(es + [e], path) <==> HasEntry(es, path) || e.path == path
  {
    assert forall d :: d in es + [e] <==> d in es || d == e;
  }

  lemma SoFar(files: map<string, map<Pos, Block>>, es: seq<Entry>, path: string)
    requires IsParsing(files, es)
    ensures IsParsedMap(if path in files then files[path] else map[], es, path)
  {
    if path !in files {
      assert !HasEntry(es, path);
    }
  }

  // ----- the parser

  /** Counts summed by position; the first statement count stays. */
  method Collapse(blocks: map<Pos, Block>, b: Block) returns (more: map<Pos, Block>)
    ensures more == Collapsed(blocks, b)
  {
    var key := PosOf(b);
    if key in blocks {
      var existing := blocks[key];
      existing := existing.(count := existing.count + b.count);
      more := blocks[key := existing];
    } else {
      more := blocks[key := b];
    }
  }

  /** A block line taken in. */
  method TakeLine(start: map<string, map<Pos, Block>>, e: Entry, ghost es: seq<Entry>)
      returns (files: map<string, map<Pos, Block>>)
    requires IsParsing(start, es)
    ensures IsParsing(files, es + [e])
  {
    SoFar(start, es, e.path);
    var before := if e.path in start then start[e.path] else map[];
    CollapseOneMore(before, es, e);
    var blocks := Collapse(before, e.block);
    ParsingOneMore(start, es, e, blocks);
    files := start[e.path := blocks];
  }

  ghost predicate NoFault(lines: seq<Line>, n: nat)
    requires n <= |lines|
  {
    forall i :: 0 <= i < n ==> !Faulty(lines, i)
  }

  lemma LinesOneMore(lines: seq<Line>, n: nat)
    requires n < |lines|
    ensures DataOf(lines[..n + 1]) == DataOf(lines[..n]) + if lines[n].Data? then [lines[n].entry] else []
    ensures Mode in lines[..n + 1] <==> Mode in lines[..n] || lines[n].Mode?
    ensures NoFault(lines, n + 1) <==> NoFault(lines, n) && !Faulty(lines, n)
  {
    Sorting.JoinOneMore(lines, n, LineData());
    assert lines[..n + 1] == lines[..n] + [lines[n]];
  }

  /** The first faulty line fails the parse; without one, and with a mode line, the blocks add up. */
  method Parse(lines: seq<Line>) returns (r: Parsed)
    ensures r.Files? <==> Mode in lines && NoFault(lines, |lines|)
    ensures r.Files? ==> IsParse(r.files, DataOf(lines))
    ensures r.Failed? && r.line > 0 ==> r.line <= |lines| && NoFault(lines, r.line - 1) && Faulty(lines, r.line - 1)
    ensures r.Failed? && r.line == 0 ==> Mode !in lines && NoFault(lines, |lines|)
  {
    var files: map<string, map<Pos, Block>> := map[];
    ghost var es: seq<Entry> := [];
    var seenMode := false;
    for i := 0 to |lines|
      invariant seenMode <==> Mode in lines[..i]
      invariant NoFault(lines, i)
      invariant es == DataOf(lines[..i])
      invariant IsParsing(files, es)
    {
      LinesOneMore(lines, i);
      if lines[i].Blank? {
        continue;
      }
      if lines[i].Mode? {
        seenMode := true;
        continue;
      }
      if !seenMode || lines[i].Malformed? {
        assert Faulty(lines, i);
        return Failed(i + 1);
      }
      files := TakeLine(files, lines[i].entry, es);
      es := es + [lines[i].entry];
    }
    assert lines[..|lines|] == lines;
    if !seenMode {
      return Failed(0);
    }
    var out := ListFiles(files, DataOf(lines));
    return Files(out);
  }

  method ListFiles(files: map<string, map<Pos, Block>>, ghost es: seq<Entry>) returns (out: seq<File>)
    requires IsParsing(files, es)
    ensures IsParse(out, es)
  {
    var paths := Sorting.SortedPaths(files);
    out := [];
    for i := 0 to |paths|
      invariant |out| == i && forall j :: 0 <= j < i ==> out[j].path == paths[j] && IsParsedFile(out[j], es)
    {
      assert IsParsedMap(files[paths[i]], es, paths[i]);
      var f := ListFile(paths[i], files[paths[i]], es);
      out := out + [f];
    }
    ListIsParse(out, paths, files, es);
  }

  lemma ListIsParse(out: seq<File>, paths: seq<string>, files: map<string, map<Pos, Block>>, es: seq<Entry>)
    requires Sorting.Rising(paths, Sorting.StringLess) && (forall p :: p in paths <==> p in files) && |out| == |paths|
    requires IsParsing(files, es)
    requires forall j :: 0 <= j < |out| ==> out[j].path == paths[j] && IsParsedFile(out[j], es)
    ensures IsParse(out, es)
  {
    forall p ensures HasPath(out, p) <==> HasEntry(es, p) {
      if p in files {
        var j :| 0 <= j < |paths| && paths[j] == p;
        assert out[j] in out;
      }
    }
  }

  method ListFile(path: string, blocks: map<Pos, Block>, ghost es: seq<Entry>) returns (f: File)
    requires IsParsedMap(blocks, es, path)
    ensures IsParsedFile(f, es) && f.path == path
  {
    var all: seq<Block> := [];
    var keys := Sorting.Keys(blocks);
    for i := 0 to |keys|
      invariant |all| == i && forall j :: 0 <= j < i ==> all[j] == blocks[keys[j]]
    {
      all := all + [blocks[keys[i]]];
    }
    Sorting.SortSorts(all, StartLe);
    var sorted := Sorting.Sort(all, StartLe);
    f := File(path, sorted);
    SortedIsParsed(all, keys, f, blocks, es);
  }

  lemma SortedIsParsed(all: seq<Block>, keys: seq<Pos>, f: File, blocks: map<Pos, Block>, es: seq<Entry>)
    requires IsParsedMap(blocks, es, f.path) && Sorting.Distinct(keys) && forall k :: k in keys <==> k in blocks
    requires |all| == |keys| && forall j :: 0 <= j < |all| ==> all[j] == blocks[keys[j]]
    requires Sorting.IsSortOf(f.blocks, all, StartLe)
    ensures IsParsedFile(f, es)
  {
    Sorting.SameElements(f.blocks, all);
    Sorting.SameDistinct(f.blocks, all);
    forall e | e in es && e.path == f.path ensures HasPos(f.blocks, PosOf(e.block)) {
      var j :| 0 <= j < |keys| && keys[j] == PosOf(e.block);
      assert all[j] in all;
    }
    forall i, j | 0 <= i < j < |f.blocks| ensures PosOf(f.blocks[i]) != PosOf(f.blocks[j]) {
      assert f.blocks[i] in all && f.blocks[j] in all;
    }
  }

  // ----- parsing lines one after the other, and merging two parses

  /** What a parse holds at a position. */
  lemma ParsedAt(files: seq<File>, es: seq<Entry>, path: string, pos: Pos)
    requires IsParse(files, es)
    ensures Present(Entries(files), path, pos) <==> Present(es, path, pos)
    ensures SumCount(Entries(files), path, pos) == SumCount(es, path, pos)
    ensures Present(es, path, pos) ==> IsMaxStmts(FirstStmts(es, path, pos), Entries(files), path, pos)
  {
    forall e | e in Entries(files) && At(e, path, pos) ensures IsParsedBlock(e.block, es, path) {
      InEntries(files, e);
    }
    if Present(es, path, pos) {
      var f, b := ParsedBlock(files, es, path, pos);
      InEntries(files, Entry(path, b));
      assert At(Entry(path, b), path, pos);
      SumInFiles(files, f, b);
      assert Reports(Entries(files), path, pos, b.numStmts);
    } else {
      SumAbsent(es, path, pos);
      SumAbsent(Entries(files), path, pos);
    }
  }

  lemma ParsedBlock(files: seq<File>, es: seq<Entry>, path: string, pos: Pos) returns (f: File, b: Block)
    requires IsParse(files, es) && Present(es, path, pos)
    ensures f in files && f.path == path && b in f.blocks && PosOf(b) == pos
    ensures IsParsedBlock(b, es, path) && OnePerPos(f.blocks) && OnePerPath(files)
  {
    var e :| e in es && At(e, path, pos);
    assert HasEntry(es, path);
    assert HasPath(files, path);
    f :| f in files && f.path == path;
    assert IsParsedFile(f, es) && HasPos(f.blocks, PosOf(e.block));
    b :| b in f.blocks && PosOf(b) == pos;
  }

  /** Where both parts report a position, the first part has at least the second's statements there. */
  ghost predicate FirstRules(a: seq<Entry>, b: seq<Entry>) {
    forall path, pos :: Present(a, path, pos) && Present(b, path, pos) ==>
        FirstStmts(b, path, pos) <= FirstStmts(a, path, pos)
  }

  function Larger(m: int, n: int): int {
    if m < n then n else m
  }

  /** Statements a merge of the two parses has at a position. */
  ghost function MergedStmts(a: seq<Entry>, b: seq<Entry>, path: string, pos: Pos): int {
    if !Present(b, path, pos) then FirstStmts(a, path, pos)
    else if !Present(a, path, pos) then FirstStmts(b, path, pos)
    else Larger(FirstStmts(a, path, pos), FirstStmts(b, path, pos))
  }

  lemma PresentSplit(a: seq<Entry>, b: seq<Entry>, path: string, pos: Pos)
    ensures Present(a + b, path, pos) <==> Present(a, path, pos) || Present(b, path, pos)
  {
    assert forall e :: e in a + b <==> e in a || e in b;
  }

  lemma BothParsedAt(a: seq<Entry>, b: seq<Entry>, pa: seq<File>, pb: seq<File>, path: string, pos: Pos)
    requires IsParse(pa, a) && IsParse(pb, b)
    ensures SumCount(Entries(pa + pb), path, pos) == SumCount(a + b, path, pos)
    ensures Present(Entries(pa + pb), path, pos) <==> Present(a + b, path, pos)
    ensures Present(a + b, path, pos) ==> IsMaxStmts(MergedStmts(a, b, path, pos), Entries(pa + pb), path, pos)
  {
    var ea, eb := Entries(pa), Entries(pb);
    EntriesSplit(pa, pb);
    SumSplit(a, b, path, pos);
    SumSplit(ea, eb, path, pos);
    PresentSplit(a, b, path, pos);
    PresentSplit(ea, eb, path, pos);
    ParsedAt(pa, a, path, pos);
    ParsedAt(pb, b, path, pos);
    MaxOfBoth(ea, eb, a, b, path, pos);
  }

  lemma MaxOfBoth(ea: seq<Entry>, eb: seq<Entry>, a: seq<Entry>, b: seq<Entry>, path: string, pos: Pos)
    requires Present(ea, path, pos) <==> Present(a, path, pos)
    requires Present(eb, path, pos) <==> Present(b, path, pos)
    requires Present(a, path, pos) ==> IsMaxStmts(FirstStmts(a, path, pos), ea, path, pos)
    requires Present(b, path, pos) ==> IsMaxStmts(FirstStmts(b, path, pos), eb, path, pos)
    ensures Present(ea + eb, path, pos) ==> IsMaxStmts(MergedStmts(a, b, path, pos), ea + eb, path, pos)
  {
    assert forall e :: e in ea + eb <==> e in ea || e in eb;
    if Present(ea + eb, path, pos) {
      assert Reports(ea + eb, path, pos, MergedStmts(a, b, path, pos)) by {
        if Present(ea, path, pos) {
          var e :| e in ea && At(e, path, pos) && e.block.numStmts == FirstStmts(a, path, pos);
        }
        if Present(eb, path, pos) {
          var e :| e in eb && At(e, path, pos) && e.block.numStmts == FirstStmts(b, path, pos);
        }
      }
    }
  }

  lemma FirstRulesAt(a: seq<Entry>, b: seq<Entry>, path: string, pos: Pos)
    requires Present(a + b, path, pos)
    requires FirstRules(a, b)
    ensures MergedStmts(a, b, path, pos) == FirstStmts(a + b, path, pos)
  {
    PresentSplit(a, b, path, pos);
    FirstSplit(a, b, path, pos);
    if !Present(b, path, pos) {
    } else if Present(a, path, pos) {
    }
  }

  lemma ParsedIsMerged(a: seq<Entry>, b: seq<Entry>, pa: seq<File>, pb: seq<File>, f: File, g: File, x: Block)
    requires IsParse(pa, a) && IsParse(pb, b) && FirstRules(a, b)
    requires IsParsedFile(f, a + b) && IsMergedFile(g, Entries(pa + pb)) && f.path == g.path
    ensures x in f.blocks <==> x in g.blocks
  {
    var pos := PosOf(x);
    BothParsedAt(a, b, pa, pb, f.path, pos);
    if Present(a + b, f.path, pos) {
      FirstRulesAt(a, b, f.path, pos);
      MaxIsOne(Entries(pa + pb), f.path, pos, MergedStmts(a, b, f.path, pos));
      var e :| e in a + b && At(e, f.path, pos);
      var d :| d in Entries(pa + pb) && At(d, f.path, pos);
      assert HasPos(f.blocks, pos) && HasPos(g.blocks, pos);
      var y :| y in f.blocks && PosOf(y) == pos;
      var z :| z in g.blocks && PosOf(z) == pos;
      assert IsParsedBlock(y, a + b, f.path) && Tallies(z, Entries(pa + pb), f.path);
      assert y == z;
      assert x in f.blocks ==> x == y;
      assert x in g.blocks ==> x == z;
    } else {
      assert x in f.blocks ==> IsParsedBlock(x, a + b, f.path);
      forall y | y in g.blocks ensures Reports(Entries(pa + pb), f.path, PosOf(y), y.numStmts) {
        assert Tallies(y, Entries(pa + pb), f.path);
      }
    }
  }

  lemma SameFile(a: seq<Entry>, b: seq<Entry>, pa: seq<File>, pb: seq<File>, f: File, g: File)
    requires IsParse(pa, a) && IsParse(pb, b) && FirstRules(a, b)
    requires IsParsedFile(f, a + b) && IsMergedFile(g, Entries(pa + pb)) && f.path == g.path
    ensures multiset(f.blocks) == multiset(g.blocks)
  {
    forall x ensures x in f.blocks <==> x in g.blocks {
      ParsedIsMerged(a, b, pa, pb, f, g, x);
    }
    PosOrder();
    Sorting.SameMembersSameBag(f.blocks, g.blocks);
  }

  function PathList(files: seq<File>): (r: seq<string>)
    ensures |r| == |files| && forall i :: 0 <= i < |files| ==> r[i] == files[i].path
  {
    if files == [] then [] else [files[0].path] + PathList(files[1..])
  }

  lemma HasEntrySplit(a: seq<Entry>, b: seq<Entry>, path: string)
    ensures HasEntry(a + b, path) <==> HasEntry(a, path) || HasEntry(b, path)
  {
    assert forall e :: e in a + b <==> e in a || e in b;
  }

  /** Both list the same paths, in the same order. */
  lemma SamePaths(a: seq<Entry>, b: seq<Entry>, pa: seq<File>, pb: seq<File>, whole: seq<File>, out: seq<File>)
    requires IsParse(pa, a) && IsParse(pb, b) && IsParse(whole, a + b)
    requires IsMerge(out, Entries(pa + pb), PathsOf(pa + pb))
    ensures PathList(whole) == PathList(out)
  {
    var ws, os := PathList(whole), PathList(out);
    forall p ensures p in ws <==> p in os {
      HasEntrySplit(a, b, p);
      assert HasPath(whole, p) <==> HasPath(pa, p) || HasPath(pb, p);
      PathsOfBoth(pa, pb, p);
      assert HasPath(out, p) <==> p in PathsOf(pa + pb);
      InPathList(whole, p);
      InPathList(out, p);
    }
    Sorting.StringLessIsStrict();
    Sorting.RisingIsUnique(ws, os, Sorting.StringLess);
  }

  lemma InPathList(files: seq<File>, p: string)
    ensures p in PathList(files) <==> HasPath(files, p)
  {
    if p in PathList(files) {
      var i :| 0 <= i < |files| && PathList(files)[i] == p;
      assert files[i] in files;
    }
    if f :| f in files && f.path == p {
      var i :| 0 <= i < |files| && files[i] == f;
      assert PathList(files)[i] == p;
    }
  }

  lemma PathsOfBoth(pa: seq<File>, pb: seq<File>, p: string)
    ensures p in PathsOf(pa + pb) <==> HasPath(pa, p) || HasPath(pb, p)
  {
    assert forall f :: f in pa + pb <==> f in pa || f in pb;
  }

  /** Only the first lines' statement counts stay in one parse, so it tells where they are not the larger. */
  lemma SameSaysFirstRules(a: seq<Entry>, b: seq<Entry>, pa: seq<File>, pb: seq<File>, whole: seq<File>, out: seq<File>,
      path: string, pos: Pos)
    requires IsParse(pa, a) && IsParse(pb, b) && IsParse(whole, a + b)
    requires IsMerge(out, Entries(pa + pb), PathsOf(pa + pb)) && SameBlocks(whole, out)
    requires Present(a, path, pos) && Present(b, path, pos)
    ensures FirstStmts(b, path, pos) <= FirstStmts(a, path, pos)
  {
    PresentSplit(a, b, path, pos);
    FirstSplit(a, b, path, pos);
    BothParsedAt(a, b, pa, pb, path, pos);
    var f, x := ParsedBlock(whole, a + b, path, pos);
    var i :| 0 <= i < |whole| && whole[i] == f;
    Sorting.SameElements(f.blocks, out[i].blocks);
    assert out[i] in out && IsMergedFile(out[i], Entries(pa + pb)) && x in out[i].blocks;
    assert Tallies(x, Entries(pa + pb), path);
    MaxIsOne(Entries(pa + pb), path, pos, x.numStmts);
  }

  /**
    One parse of both parts' lines has the blocks of the two parses merged,
    exactly when no position gets more statements from the second part than
    the first gave it.
  */
  lemma ParsingBothIsMerging(a: seq<Entry>, b: seq<Entry>, pa: seq<File>, pb: seq<File>, whole: seq<File>,
      out: seq<File>)
    requires IsParse(pa, a) && IsParse(pb, b) && IsParse(whole, a + b)
    requires IsMerge(out, Entries(pa + pb), PathsOf(pa + pb))
    ensures SameBlocks(whole, out) <==> FirstRules(a, b)
  {
    SamePaths(a, b, pa, pb, whole, out);
    if FirstRules(a, b) {
      forall i | 0 <= i < |whole|
        ensures whole[i].path == out[i].path && multiset(whole[i].blocks) == multiset(out[i].blocks)
      {
        assert PathList(whole)[i] == PathList(out)[i];
        assert IsParsedFile(whole[i], a + b) && IsMergedFile(out[i], Entries(pa + pb));
        SameFile(a, b, pa, pb, whole[i], out[i]);
      }
    }
    if SameBlocks(whole, out) {
      forall path, pos | Present(a, path, pos) && Present(b, path, pos)
        ensures FirstStmts(b, path, pos) <= FirstStmts(a, path, pos)
      {
        SameSaysFirstRules(a, b, pa, pb, whole, out, path, pos);
      }
    }
  }

  /** Two profiles that parse still parse when one follows the other in one text. */
  lemma ConcatenationParses(x: seq<Line>, y: seq<Line>)
    requires Mode in x && NoFault(x, |x|) && NoFault(y, |y|)
    ensures Mode in x + y && NoFault(x + y, |x + y|)
    ensures DataOf(x + y) == DataOf(x) + DataOf(y)
  {
    Sorting.JoinSplit(x, y, LineData());
    forall i | 0 <= i < |x + y| ensures !Faulty(x + y, i) {
      if i < |x| {
        assert (x + y)[..i] == x[..i] && !Faulty(x, i);
      } else {
        assert (x + y)[..i] == x + y[..i - |x|] && !Faulty(y, i - |x|);
      }
    }
  }

  /** Parts that disagree on a block's statements need not satisfy it. */
  lemma SecondPartCanHaveMore(path: string, b: Block, count: int)
    ensures !FirstRules([Entry(path, b)], [Entry(path, b.(numStmts := b.numStmts + 1, count := count))])
  {
    var a, more := Entry(path, b), Entry(path, b.(numStmts := b.numStmts + 1, count := count));
    var pos := PosOf(b);
    assert At(a, path, pos) && At(more, path, pos);
    assert a in [a] && more in [more];
    assert Present([a], path, pos) && Present([more], path, pos);
    assert FirstStmts([more], path, pos) > FirstStmts([a], path, pos);
  }
}
