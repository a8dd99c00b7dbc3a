/** Coverage of the lines a diff adds: each changed file paired with a profile file and measured over its blocks. */
module DiffCoverage {
  import opened Profile
  import opened Options
  import opened DiffMerge
  import opened PathIndex
  import LineHits
  import Spans
  import Sorting

  /** Lines of the diff that a block `keep` accepts spans. */
  ghost function Measured(lines: seq<int>, blocks: seq<Block>, keep: Block -> bool): set<int> {
    set l | l in lines && 1 <= l && Spans.Spanned(blocks, keep, l)
  }

  /** Executable changed lines counted once each, those some block ran among them, and the rest listed. */
  ghost predicate IsMeasured(fc: FileCoverage, lines: seq<int>, blocks: seq<Block>) {
    && fc.total == |Measured(lines, blocks, Statement)|
    && fc.covered == |Measured(lines, blocks, Ran)|
    && Sorting.Rising(fc.uncovered, Sorting.IntLess)
    && (forall l :: l in fc.uncovered <==>
          l in Measured(lines, blocks, Statement) && l !in Measured(lines, blocks, Ran))
  }

  ghost predicate IsUnmatched(p: string, files: seq<File>, added: map<string, seq<int>>, prefix: string) {
    p in added && added[p] != [] && Picks(files, p, prefix, None)
  }

  /** The diff path is paired with a file that has executable changed lines. */
  ghost predicate IsPaired(p: string, files: seq<File>, added: map<string, seq<int>>, prefix: string) {
    && p in added
    && exists i: nat :: i < |files| && Picks(files, p, prefix, Some(i))
        && Measured(added[p], files[i].blocks, Statement) != {}
  }

  ghost predicate IsMeasuredFile(fc: FileCoverage, files: seq<File>, added: map<string, seq<int>>, prefix: string) {
    && fc.path in added
    && exists i: nat :: i < |files| && Picks(files, fc.path, prefix, Some(i))
        && IsMeasured(fc, added[fc.path], files[i].blocks)
  }

  ghost predicate IsComputed(res: Coverage, files: seq<File>, added: map<string, seq<int>>, prefix: string) {
    && Sorting.Rising(res.files, PathLess)
    && (forall fc :: fc in res.files ==> IsMeasuredFile(fc, files, added, prefix))
    && (forall p :: HasPath(res.files, p) <==> IsPaired(p, files, added, prefix))
    && Sorting.Rising(res.unmatched, Sorting.StringLess)
    && (forall p :: p in res.unmatched <==> IsUnmatched(p, files, added, prefix))
    && res.covered == Sorting.Weight(res.files, Covered()) && res.total == Sorting.Weight(res.files, Total())
  }

  // ----- one file

  /** Executable changed lines, with whether some block ran them. */
  method Executable(lines: seq<int>, blocks: seq<Block>) returns (executable: map<int, bool>)
    ensures executable.Keys == Measured(lines, blocks, Statement)
    ensures forall l :: l in executable ==> (executable[l] <==> l in Measured(lines, blocks, Ran))
  {
    var all := Spans.MergedSpans(blocks, Statement);
    var ran := Spans.MergedSpans(blocks, Ran);
    executable := map[];
    for i := 0 to |lines|
      invariant forall l :: l in executable <==> l in lines[..i] && Spans.Has(all, l)
      invariant forall l :: l in executable ==> (executable[l] <==> Spans.Has(ran, l))
    {
      var l := lines[i];
      assert lines[..i + 1] == lines[..i] + [l];
      var hit := Spans.InSpans(all, l);
      if hit {
        var r := Spans.InSpans(ran, l);
        executable := executable[l := r];
      }
    }
    assert lines[..|lines|] == lines;
  }

  lemma RanIsStatement(lines: seq<int>, blocks: seq<Block>)
    ensures Measured(lines, blocks, Ran) <= Measured(lines, blocks, Statement)
  {
    forall l | Spans.Spanned(blocks, Ran, l) ensures Spans.Spanned(blocks, Statement, l) {
      var i :| 0 <= i < |blocks| && Ran(blocks[i]) && blocks[i].startLine <= l <= blocks[i].endLine;
      assert Statement(blocks[i]);
    }
  }

  function RanKeys(executable: map<int, bool>, keys: seq<int>): set<int> {
    set l | l in keys && l in executable && executable[l]
  }

  lemma RanKeysOneMore(executable: map<int, bool>, keys: seq<int>, l: int)
    requires l !in keys && l in executable
    ensures |RanKeys(executable, keys + [l])| == |RanKeys(executable, keys)| + if executable[l] then 1 else 0
  {
    if executable[l] {
      assert RanKeys(executable, keys + [l]) == RanKeys(executable, keys) + {l};
    } else {
      assert RanKeys(executable, keys + [l]) == RanKeys(executable, keys);
    }
  }

  ghost predicate AreMissed(missed: seq<int>, executable: map<int, bool>, keys: seq<int>) {
    Sorting.Distinct(missed) && forall l :: l in missed <==> l in keys && l in executable && !executable[l]
  }

  lemma MissedOneMore(missed: seq<int>, executable: map<int, bool>, keys: seq<int>, l: int)
    requires AreMissed(missed, executable, keys) && l !in keys && l in executable
    ensures AreMissed(if executable[l] then missed else missed + [l], executable, keys + [l])
  {
  }

  /** The number of lines that ran, and the rest sorted. */
  method SplitLines(executable: map<int, bool>) returns (covered: int, uncovered: seq<int>)
    ensures covered == |set l | l in executable && executable[l]|
    ensures Sorting.Rising(uncovered, Sorting.IntLess)
    ensures forall l :: l in uncovered <==> l in executable && !executable[l]
  {
    var keys := Sorting.Keys(executable);
    var missed: seq<int> := [];
    ghost var done: seq<int> := [];
    covered := 0;
    for i := 0 to |keys|
      invariant done == keys[..i] && covered == |RanKeys(executable, done)|
      invariant AreMissed(missed, executable, done)
    {
      var l := keys[i];
      assert keys[..i + 1] == keys[..i] + [l];
      assert l !in keys[..i];
      RanKeysOneMore(executable, done, l);
      MissedOneMore(missed, executable, done, l);
      if executable[l] {
        covered := covered + 1;
      } else {
        missed := missed + [l];
      }
      done := done + [l];
    }
    assert keys[..|keys|] == keys;
    assert RanKeys(executable, keys) == set l | l in executable && executable[l];
    Sorting.IntOrder();
    Sorting.SortSorts(missed, Sorting.IntLe);
    uncovered := Sorting.Sort(missed, Sorting.IntLe);
    Sorting.SameElements(uncovered, missed);
    Sorting.SameDistinct(uncovered, missed);
  }

  method Measure(path: string, lines: seq<int>, blocks: seq<Block>, executable: map<int, bool>)
      returns (fc: FileCoverage)
    requires executable.Keys == Measured(lines, blocks, Statement)
    requires forall l :: l in executable ==> (executable[l] <==> l in Measured(lines, blocks, Ran))
    ensures fc.path == path && IsMeasured(fc, lines, blocks)
  {
    var covered, uncovered := SplitLines(executable);
    RanIsStatement(lines, blocks);
    assert (set l | l in executable && executable[l]) == Measured(lines, blocks, Ran);
    assert |executable| == |executable.Keys|;
    fc := FileCoverage(path, covered, |executable|, uncovered);
  }

  // ----- every file of the diff

  ghost predicate FilesDone(measured: seq<FileCoverage>, done: seq<string>, files: seq<File>,
      added: map<string, seq<int>>, prefix: string) {
    && Sorting.Rising(measured, PathLess)
    && (forall fc :: fc in measured ==> fc.path in done && IsMeasuredFile(fc, files, added, prefix))
    && (forall p :: HasPath(measured, p) <==> p in done && IsPaired(p, files, added, prefix))
  }

  ghost predicate UnmatchedDone(unmatched: seq<string>, done: seq<string>, files: seq<File>,
      added: map<string, seq<int>>, prefix: string) {
    && Sorting.Rising(unmatched, Sorting.StringLess)
    && (forall p :: p in unmatched <==> p in done && IsUnmatched(p, files, added, prefix))
  }

  lemma UnmatchedStays(unmatched: seq<string>, done: seq<string>, files: seq<File>, added: map<string, seq<int>>,
      prefix: string, p: string)
    requires UnmatchedDone(unmatched, done, files, added, prefix) && !IsUnmatched(p, files, added, prefix)
    ensures UnmatchedDone(unmatched, done + [p], files, added, prefix)
  {
  }

  /** What is computed once these paths of the diff are done. */
  ghost predicate Done(res: Coverage, done: seq<string>, files: seq<File>, added: map<string, seq<int>>,
      prefix: string) {
    && FilesDone(res.files, done, files, added, prefix)
    && UnmatchedDone(res.unmatched, done, files, added, prefix)
    && res.covered == Sorting.Weight(res.files, Covered()) && res.total == Sorting.Weight(res.files, Total())
  }

  /** The path gives nothing: no added lines, or none that are executable. */
  lemma NothingMore(res: Coverage, done: seq<string>, files: seq<File>, added: map<string, seq<int>>, prefix: string,
      p: string)
    requires Done(res, done, files, added, prefix)
    requires !IsUnmatched(p, files, added, prefix) && !IsPaired(p, files, added, prefix)
    ensures Done(res, done + [p], files, added, prefix)
  {
  }

  lemma UnmatchedMore(res: Coverage, done: seq<string>, files: seq<File>, added: map<string, seq<int>>, prefix: string,
      p: string)
    requires Done(res, done, files, added, prefix)
    requires IsUnmatched(p, files, added, prefix) && forall q :: q in done ==> Sorting.StringLess(q, p)
    ensures Done(res.(unmatched := res.unmatched + [p]), done + [p], files, added, prefix)
  {
    forall i: nat | i < |files| ensures !Picks(files, p, prefix, Some(i)) {
      if Picks(files, p, prefix, Some(i)) {
        PicksIsUnique(files, p, prefix, Some(i), None);
      }
    }
    assert !IsPaired(p, files, added, prefix);
  }

  lemma FilesMore(measured: seq<FileCoverage>, done: seq<string>, files: seq<File>, added: map<string, seq<int>>,
      prefix: string, fc: FileCoverage)
    requires FilesDone(measured, done, files, added, prefix)
    requires IsPaired(fc.path, files, added, prefix) && IsMeasuredFile(fc, files, added, prefix)
             && forall q :: q in done ==> Sorting.StringLess(q, fc.path)
    ensures FilesDone(measured + [fc], done + [fc.path], files, added, prefix)
  {
    forall p ensures HasPath(measured + [fc], p) <==> HasPath(measured, p) || fc.path == p {
      assert forall g :: g in measured + [fc] <==> g in measured || g == fc;
    }
  }

  lemma PairedNotUnmatched(p: string, files: seq<File>, added: map<string, seq<int>>, prefix: string)
    requires IsPaired(p, files, added, prefix)
    ensures !IsUnmatched(p, files, added, prefix)
  {
    var i: nat :| i < |files| && Picks(files, p, prefix, Some(i));
    if Picks(files, p, prefix, None) {
      PicksIsUnique(files, p, prefix, Some(i), None);
    }
  }

  lemma MeasuredMore(res: Coverage, done: seq<string>, files: seq<File>, added: map<string, seq<int>>, prefix: string,
      fc: FileCoverage)
    requires Done(res, done, files, added, prefix)
    requires IsPaired(fc.path, files, added, prefix) && IsMeasuredFile(fc, files, added, prefix)
             && forall q :: q in done ==> Sorting.StringLess(q, fc.path)
    ensures Done(res.(files := res.files + [fc], covered := res.covered + fc.covered, total := res.total + fc.total),
              done + [fc.path], files, added, prefix)
  {
    FilesMore(res.files, done, files, added, prefix, fc);
    PairedNotUnmatched(fc.path, files, added, prefix);
    UnmatchedStays(res.unmatched, done, files, added, prefix, fc.path);
    Sorting.WeightOneMore(res.files, fc, Covered());
    Sorting.WeightOneMore(res.files, fc, Total());
  }

  lemma EarlierPaths(paths: seq<string>, k: nat)
    requires Sorting.Rising(paths, Sorting.StringLess) && k < |paths|
    ensures paths[..k + 1] == paths[..k] + [paths[k]]
    ensures forall q :: q in paths[..k] ==> Sorting.StringLess(q, paths[k])
  {
  }

  lemma PairedWith(files: seq<File>, added: map<string, seq<int>>, prefix: string, p: string, i: nat)
    requires i < |files| && Picks(files, p, prefix, Some(i)) && p in added
    ensures IsPaired(p, files, added, prefix) <==> Measured(added[p], files[i].blocks, Statement) != {}
    ensures !IsUnmatched(p, files, added, prefix)
  {
    forall j: nat | j < |files| && Picks(files, p, prefix, Some(j)) ensures j == i {
      PicksIsUnique(files, p, prefix, Some(i), Some(j));
    }
    if Picks(files, p, prefix, None) {
      PicksIsUnique(files, p, prefix, Some(i), None);
    }
  }

  lemma NoLinesNoCoverage(files: seq<File>, added: map<string, seq<int>>, prefix: string, p: string)
    requires p in added && added[p] == []
    ensures !IsPaired(p, files, added, prefix) && !IsUnmatched(p, files, added, prefix)
  {
  }

  /** One path of the diff: the file it is paired with, and its coverage if it has executable changed lines. */
  method MeasurePath(idx: Index, dp: string, added: map<string, seq<int>>, prefix: string)
      returns (m: Option<nat>, fc: Option<FileCoverage>)
    requires IndexOk(idx, prefix) && dp in added && added[dp] != []
    ensures m.None? ==> fc.None? && IsUnmatched(dp, idx.files, added, prefix)
    ensures m.Some? ==>
            !IsUnmatched(dp, idx.files, added, prefix) && (fc.Some? <==> IsPaired(dp, idx.files, added, prefix))
    ensures fc.Some? ==> fc.value.path == dp && IsMeasuredFile(fc.value, idx.files, added, prefix)
  {
    fc := None;
    m := Match(idx, dp, prefix);
    if m.Some? {
      PickedIsTouched(idx.files, dp, prefix, m.value);
      PairedWith(idx.files, added, prefix, dp, m.value);
      var executable := Executable(added[dp], idx.files[m.value].blocks);
      assert |executable| == |executable.Keys|;
      if |executable| != 0 {
        var r := Measure(dp, added[dp], idx.files[m.value].blocks, executable);
        fc := Some(r);
      }
    }
  }

  lemma NothingYet(files: seq<File>, added: map<string, seq<int>>, prefix: string)
    ensures Done(Coverage([], 0, 0, []), [], files, added, prefix)
  {
  }

  /** Only paths of the diff are paired or unmatched, so with all of them done the result is complete. */
  lemma AllDone(res: Coverage, paths: seq<string>, files: seq<File>, added: map<string, seq<int>>, prefix: string)
    requires Done(res, paths, files, added, prefix) && forall p :: p in paths <==> p in added
    ensures IsComputed(res, files, added, prefix)
  {
  }

  /** The path's coverage taken into the result: nothing, an unmatched path, or a measured file. */
  lemma OutcomeMore(start: Coverage, done: seq<string>, files: seq<File>, added: map<string, seq<int>>, prefix: string,
      dp: string,
                    m: Option<nat>, fc: Option<FileCoverage>, res: Coverage)
    requires Done(start, done, files, added, prefix) && forall q :: q in done ==> Sorting.StringLess(q, dp)
    requires m.None? ==> fc.None? && IsUnmatched(dp, files, added, prefix)
    requires m.Some? ==> !IsUnmatched(dp, files, added, prefix) && (fc.Some? <==> IsPaired(dp, files, added, prefix))
    requires fc.Some? ==> fc.value.path == dp && IsMeasuredFile(fc.value, files, added, prefix)
    requires res == if m.None? then start.(unmatched := start.unmatched + [dp])
                    else if fc.None? then start
                    else start.(files := start.files + [fc.value], covered := start.covered + fc.value.covered,
                          total := start.total + fc.value.total)
    ensures Done(res, done + [dp], files, added, prefix)
  {
    if m.None? {
      UnmatchedMore(start, done, files, added, prefix, dp);
    } else if fc.None? {
      NothingMore(start, done, files, added, prefix, dp);
    } else {
      MeasuredMore(start, done, files, added, prefix, fc.value);
    }
  }

  method AddPath(start: Coverage, ghost done: seq<string>, idx: Index, dp: string, added: map<string, seq<int>>,
      prefix: string) returns (res: Coverage)
    requires IndexOk(idx, prefix) && dp in added && forall q :: q in done ==> Sorting.StringLess(q, dp)
    requires Done(start, done, idx.files, added, prefix)
    ensures Done(res, done + [dp], idx.files, added, prefix)
  {
    if |added[dp]| == 0 {
      NoLinesNoCoverage(idx.files, added, prefix, dp);
      NothingMore(start, done, idx.files, added, prefix, dp);
      return start;
    }
    var m, fc := MeasurePath(idx, dp, added, prefix);
    if m.None? {
      res := start.(unmatched := start.unmatched + [dp]);
    } else if fc.None? {
      res := start;
    } else {
      res := start.(files := start.files + [fc.value], covered := start.covered + fc.value.covered,
            total := start.total + fc.value.total);
    }
    OutcomeMore(start, done, idx.files, added, prefix, dp, m, fc, res);
  }

  /** Every path of the diff in turn. */
  method AddPaths(idx: Index, paths: seq<string>, added: map<string, seq<int>>, prefix: string) returns (res: Coverage)
    requires IndexOk(idx, prefix) && Sorting.Rising(paths, Sorting.StringLess)
    requires forall k :: 0 <= k < |paths| ==> paths[k] in added
    ensures Done(res, paths, idx.files, added, prefix)
  {
    res := Coverage([], 0, 0, []);
    ghost var done: seq<string> := [];
    NothingYet(idx.files, added, prefix);
    for k := 0 to |paths|
      invariant done == paths[..k]
      invariant Done(res, done, idx.files, added, prefix)
    {
      EarlierPaths(paths, k);
      res := AddPath(res, done, idx, paths[k], added, prefix);
      done := done + [paths[k]];
    }
    assert paths[..|paths|] == paths;
  }

  method Compute(files: seq<File>, added: map<string, seq<int>>, prefix: string) returns (res: Coverage)
    ensures IsComputed(res, files, added, prefix)
  {
    var idx := NewProfileIndex(files, prefix);
    var paths := Sorting.SortedPaths(added);
    assert forall k :: 0 <= k < |paths| ==> paths[k] in paths && paths[k] in added;
    res := AddPaths(idx, paths, added, prefix);
    AllDone(res, paths, files, added, prefix);
  }

  // ----- what is measured

  /** Measured counts are what the merge of parts takes for true: so many lines, the uncovered ones among them. */
  lemma MeasuredIsTruth(fc: FileCoverage, lines: seq<int>, blocks: seq<Block>)
    requires IsMeasured(fc, lines, blocks)
    ensures LinesOf(fc.uncovered) <= Measured(lines, blocks, Statement) && Sorting.Distinct(fc.uncovered)
    ensures Measured(lines, blocks, Statement) - LinesOf(fc.uncovered) == Measured(lines, blocks, Ran)
    ensures fc.covered + |fc.uncovered| == fc.total
  {
    RanIsStatement(lines, blocks);
    var e, r := Measured(lines, blocks, Statement), Measured(lines, blocks, Ran);
    assert LinesOf(fc.uncovered) == e - r;
    RisingSize(fc.uncovered);
    Sorting.SubsetSize(r, e);
  }

  /** Blocks made from line hits measure exactly the changed lines that have a hit count. */
  lemma HitsAreMeasured(lines: seq<int>, blocks: seq<Block>, hits: map<int, int>)
    requires LineHits.MaximalRuns(blocks, hits) && forall l :: LineHits.Held(blocks, l) <==> l in hits
    ensures Measured(lines, blocks, Statement) == set l | l in lines && 1 <= l && l in hits
    ensures Measured(lines, blocks, Ran) == set l | l in lines && 1 <= l && l in hits && 0 < hits[l]
  {
    LineHits.HitsSurvive(blocks, hits);
  }

  /** Every file that is measured is one the diff is said to touch. */
  lemma MeasuredIsTouched(res: Coverage, files: seq<File>, added: map<string, seq<int>>, prefix: string,
      fc: FileCoverage)
    requires IsComputed(res, files, added, prefix) && fc in res.files
    ensures exists i: nat ::
              && i < |files| && Picks(files, fc.path, prefix, Some(i))
              && Picks([File(files[i].path, [])], fc.path, prefix, Some(0))
  {
    assert IsMeasuredFile(fc, files, added, prefix);
    var i: nat :| i < |files| && Picks(files, fc.path, prefix, Some(i))
        && IsMeasured(fc, added[fc.path], files[i].blocks);
    PickedIsTouched(files, fc.path, prefix, i);
  }
}
