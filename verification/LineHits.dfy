/** Per-line hit counts, as line-oriented report formats give them, turned into blocks. */
module LineHits {
  import opened Profile
  import Spans
  import Sorting

  /** One run of lines with the same count, one statement a line. */
  predicate IsRun(b: Block, lines: map<int, int>) {
    && b.startLine <= b.endLine && b.startCol == 1 && b.endCol == 1
    && b.numStmts == b.endLine - b.startLine + 1
    && forall l :: b.startLine <= l <= b.endLine ==> l in lines && lines[l] == b.count
  }

  /** In order; and neighbours are not one run cut in two. */
  predicate Apart(a: Block, b: Block, neighbours: bool) {
    a.endLine < b.startLine && (neighbours ==> a.endLine + 1 < b.startLine || a.count != b.count)
  }

  /** Nothing but `lines`' own lines, in order, in runs as long as they can be. */
  ghost predicate MaximalRuns(blocks: seq<Block>, lines: map<int, int>) {
    && (forall i :: 0 <= i < |blocks| ==> IsRun(blocks[i], lines))
    && (forall i, j :: 0 <= i < j < |blocks| ==> Apart(blocks[i], blocks[j], i + 1 == j))
  }

  ghost predicate Held(blocks: seq<Block>, l: int) {
    exists i :: 0 <= i < |blocks| && blocks[i].startLine <= l <= blocks[i].endLine
  }

  ghost function HitLines(keys: seq<int>, lines: map<int, int>): set<int> {
    set l | l in keys && l in lines && 0 < lines[l]
  }

  /** The blocks made of the first keys. */
  ghost predicate Made(blocks: seq<Block>, keys: seq<int>, lines: map<int, int>) {
    && MaximalRuns(blocks, lines)
    && (forall l :: Held(blocks, l) <==> l in keys)
    && TotalStmts(blocks) == |keys|
    && CoveredStmts(blocks) == |HitLines(keys, lines)|
  }

  lemma {:induction false} StmtsAppend(blocks: seq<Block>, b: Block)
    ensures TotalStmts(blocks + [b]) == TotalStmts(blocks) + b.numStmts
    ensures CoveredStmts(blocks + [b]) == CoveredStmts(blocks) + if b.count > 0 then b.numStmts else 0
  {
    if blocks != [] {
      assert (blocks + [b])[1..] == blocks[1..] + [b];
      StmtsAppend(blocks[1..], b);
    }
  }

  lemma HitOneMore(keys: seq<int>, l: int, lines: map<int, int>)
    requires l !in keys && l in lines
    ensures |HitLines(keys + [l], lines)| == |HitLines(keys, lines)| + if 0 < lines[l] then 1 else 0
  {
    assert HitLines(keys + [l], lines) == HitLines(keys, lines) + if 0 < lines[l] then {l} else {};
  }

  lemma NewRun(blocks: seq<Block>, keys: seq<int>, l: int, lines: map<int, int>)
    requires Made(blocks, keys, lines) && l in lines && forall k :: k in keys ==> k < l
    requires blocks != [] ==> blocks[|blocks| - 1].endLine + 1 != l || blocks[|blocks| - 1].count != lines[l]
    ensures Made(blocks + [Block(l, 1, l, 1, 1, lines[l])], keys + [l], lines)
  {
    var b := Block(l, 1, l, 1, 1, lines[l]);
    var more := blocks + [b];
    forall i | 0 <= i < |blocks| ensures blocks[i].endLine < l {
      assert Held(blocks, blocks[i].endLine);
    }
    forall m ensures Held(more, m) <==> m in keys + [l] {
      if Held(blocks, m) {
        var i :| 0 <= i < |blocks| && blocks[i].startLine <= m <= blocks[i].endLine;
        assert more[i] == blocks[i];
      }
      assert more[|blocks|] == b;
    }
    StmtsAppend(blocks, b);
    HitOneMore(keys, l, lines);
  }

  /** The last run taken one line further. */
  function Extended(blocks: seq<Block>, l: int): seq<Block>
    requires blocks != []
  {
    var last := blocks[|blocks| - 1];
    blocks[|blocks| - 1 := last.(endLine := l, numStmts := last.numStmts + 1)]
  }

  lemma LongerRunHolds(blocks: seq<Block>, l: int)
    requires blocks != [] && blocks[|blocks| - 1].endLine + 1 == l && blocks[|blocks| - 1].startLine <= l
    ensures forall m :: Held(Extended(blocks, l), m) <==> Held(blocks, m) || m == l
  {
    var n, more := |blocks| - 1, Extended(blocks, l);
    forall m ensures Held(more, m) <==> Held(blocks, m) || m == l {
      if i :| 0 <= i < |blocks| && blocks[i].startLine <= m <= blocks[i].endLine {
        assert more[i].startLine <= m <= more[i].endLine;
      }
      if i :| 0 <= i < |more| && m != l && more[i].startLine <= m <= more[i].endLine {
        assert blocks[i].startLine <= m <= blocks[i].endLine;
      }
      assert more[n].startLine <= l <= more[n].endLine;
    }
  }

  lemma LongerRunCounts(blocks: seq<Block>, l: int)
    requires blocks != []
    ensures TotalStmts(Extended(blocks, l)) == TotalStmts(blocks) + 1
    ensures CoveredStmts(Extended(blocks, l)) == CoveredStmts(blocks) + if blocks[|blocks| - 1].count > 0 then 1 else 0
  {
    var n, more := |blocks| - 1, Extended(blocks, l);
    assert blocks == blocks[..n] + [blocks[n]] && more == blocks[..n] + [more[n]];
    StmtsAppend(blocks[..n], blocks[n]);
    StmtsAppend(blocks[..n], more[n]);
  }

  lemma LongerRun(blocks: seq<Block>, keys: seq<int>, l: int, lines: map<int, int>)
    requires Made(blocks, keys, lines) && l in lines && forall k :: k in keys ==> k < l
    requires blocks != [] && blocks[|blocks| - 1].endLine + 1 == l && blocks[|blocks| - 1].count == lines[l]
    ensures Made(Extended(blocks, l), keys + [l], lines)
  {
    assert IsRun(blocks[|blocks| - 1], lines);
    LongerRunHolds(blocks, l);
    LongerRunCounts(blocks, l);
    HitOneMore(keys, l, lines);
  }

  lemma SortedBefore(nums: seq<int>, i: nat)
    requires i < |nums| && Sorting.Ordered(nums, Sorting.IntLe) && Sorting.Distinct(nums)
    ensures forall k :: k in nums[..i] ==> k < nums[i]
  {
    assert forall k :: 0 <= k < i ==> Sorting.IntLe(nums[k], nums[i]) && nums[k] != nums[i];
  }

  /** The blocks with one more line, given in line order. */
  function Next(blocks: seq<Block>, l: int, count: int): seq<Block> {
    if blocks != [] && l == blocks[|blocks| - 1].endLine + 1 && count == blocks[|blocks| - 1].count
    then Extended(blocks, l)
    else blocks + [Block(l, 1, l, 1, 1, count)]
  }

  lemma NextIsMade(blocks: seq<Block>, nums: seq<int>, i: nat, lines: map<int, int>)
    requires i < |nums| && Sorting.Ordered(nums, Sorting.IntLe) && Sorting.Distinct(nums) && nums[i] in lines
    requires Made(blocks, nums[..i], lines)
    ensures Made(Next(blocks, nums[i], lines[nums[i]]), nums[..i + 1], lines)
  {
    SortedBefore(nums, i);
    assert nums[..i + 1] == nums[..i] + [nums[i]];
    if Next(blocks, nums[i], lines[nums[i]]) == blocks + [Block(nums[i], 1, nums[i], 1, 1, lines[nums[i]])] {
      NewRun(blocks, nums[..i], nums[i], lines);
    } else {
      LongerRun(blocks, nums[..i], nums[i], lines);
    }
  }

  /** The line numbers, gathered from the map and sorted. */
  method SortedKeys(lines: map<int, int>) returns (nums: seq<int>)
    ensures Sorting.Ordered(nums, Sorting.IntLe) && Sorting.Distinct(nums) && |nums| == |lines|
    ensures forall l :: l in nums <==> l in lines
  {
    var keys := Sorting.Keys(lines);
    Sorting.IntOrder();
    Sorting.SortSorts(keys, Sorting.IntLe);
    nums := Sorting.Sort(keys, Sorting.IntLe);
    Sorting.SameElements(nums, keys);
    Sorting.SameDistinct(nums, keys);
  }

  lemma AllHitLines(nums: seq<int>, lines: map<int, int>)
    requires forall l :: l in nums <==> l in lines
    ensures HitLines(nums, lines) == set l | l in lines && 0 < lines[l]
  {
    assert forall l :: l in HitLines(nums, lines) <==> l in (set m | m in lines && 0 < lines[m]);
  }

  method BlocksFromLineHits(lines: map<int, int>) returns (blocks: seq<Block>)
    ensures MaximalRuns(blocks, lines)
    ensures forall l :: Held(blocks, l) <==> l in lines
    ensures TotalStmts(blocks) == |lines|
    ensures CoveredStmts(blocks) == |set l | l in lines && 0 < lines[l]|
  {
    var nums := SortedKeys(lines);
    blocks := [];
    for i := 0 to |nums|
      invariant Made(blocks, nums[..i], lines)
    {
      var l := nums[i];
      var count := lines[l];
      var n := |blocks|;
      NextIsMade(blocks, nums, i, lines);
      ghost var next := Next(blocks, l, count);
      if n > 0 && l == blocks[n - 1].endLine + 1 && count == blocks[n - 1].count {
        blocks := blocks[n - 1 := blocks[n - 1].(endLine := l, numStmts := blocks[n - 1].numStmts + 1)];
      } else {
        blocks := blocks + [Block(l, 1, l, 1, 1, count)];
      }
      assert blocks == next;
    }
    assert nums[..|nums|] == nums;
    AllHitLines(nums, lines);
  }

  /** Maximal runs give the hit counts back, by the one rule every view of a line uses. */
  lemma HitsSurvive(blocks: seq<Block>, lines: map<int, int>)
    requires MaximalRuns(blocks, lines) && forall l :: Held(blocks, l) <==> l in lines
    ensures forall l :: Spans.Spanned(blocks, Statement, l) <==> l in lines
    ensures forall l :: Spans.Spanned(blocks, Ran, l) <==> l in lines && 0 < lines[l]
  {
    forall l ensures Spans.Spanned(blocks, Statement, l) <==> l in lines
             ensures Spans.Spanned(blocks, Ran, l) <==> l in lines && 0 < lines[l] {
      if l in lines {
        var i :| 0 <= i < |blocks| && blocks[i].startLine <= l <= blocks[i].endLine;
        assert IsRun(blocks[i], lines);
        assert Statement(blocks[i]);
      }
      if Spans.Spanned(blocks, Ran, l) {
        var i :| 0 <= i < |blocks| && Ran(blocks[i]) && blocks[i].startLine <= l <= blocks[i].endLine;
        assert IsRun(blocks[i], lines);
      }
      if Spans.Spanned(blocks, Statement, l) {
        assert Held(blocks, l);
      }
    }
  }

  /** There is one way to write the counts as maximal runs. */
  lemma {:induction false} MaximalRunsAreUnique(a: seq<Block>, b: seq<Block>, lines: map<int, int>)
    requires MaximalRuns(a, lines) && MaximalRuns(b, lines) && forall l :: Held(a, l) <==> Held(b, l)
    ensures a == b
  {
    if a == [] || b == [] {
      assert a != [] ==> Held(a, a[0].startLine);
      assert b != [] ==> Held(b, b[0].startLine);
    } else {
      FirstRunNotShorter(a, b, lines);
      FirstRunNotShorter(b, a, lines);
      assert IsRun(a[0], lines) && IsRun(b[0], lines);
      forall l ensures Held(a[1..], l) <==> Held(b[1..], l) {
        RestHeld(a, l, lines);
        RestHeld(b, l, lines);
      }
      assert a[0].count == lines[a[0].startLine] && b[0].count == lines[b[0].startLine];
      assert a[0] == b[0];
      TailRuns(a, lines);
      TailRuns(b, lines);
      MaximalRunsAreUnique(a[1..], b[1..], lines);
      assert a == [a[0]] + a[1..] && b == [b[0]] + b[1..];
    }
  }

  lemma TailRuns(a: seq<Block>, lines: map<int, int>)
    requires MaximalRuns(a, lines) && a != []
    ensures MaximalRuns(a[1..], lines)
  {
  }

  lemma RestHeld(a: seq<Block>, l: int, lines: map<int, int>)
    requires MaximalRuns(a, lines) && a != []
    ensures Held(a[1..], l) <==> Held(a, l) && !(a[0].startLine <= l <= a[0].endLine)
  {
    if Held(a, l) && !(a[0].startLine <= l <= a[0].endLine) {
      var i :| 0 <= i < |a| && a[i].startLine <= l <= a[i].endLine;
      assert a[1..][i - 1] == a[i];
    }
    if Held(a[1..], l) {
      var i :| 0 <= i < |a| - 1 && a[1..][i].startLine <= l <= a[1..][i].endLine;
      assert a[i + 1].startLine <= l <= a[i + 1].endLine && IsRun(a[0], lines);
    }
  }

  /** The line after the first run, if it is held at all, has another count. */
  lemma NextRunDiffers(a: seq<Block>, lines: map<int, int>)
    requires MaximalRuns(a, lines) && a != [] && Held(a, a[0].endLine + 1)
    ensures a[0].endLine + 1 in lines && lines[a[0].endLine + 1] != a[0].count
  {
    var l := a[0].endLine + 1;
    var i :| 0 <= i < |a| && a[i].startLine <= l <= a[i].endLine;
    assert i > 0 && IsRun(a[i], lines) && IsRun(a[1], lines);
    assert i == 1 && a[1].startLine == l;
  }

  lemma FirstRunNotShorter(a: seq<Block>, b: seq<Block>, lines: map<int, int>)
    requires MaximalRuns(a, lines) && MaximalRuns(b, lines) && a != [] && b != []
    requires forall l :: Held(a, l) <==> Held(b, l)
    ensures b[0].startLine <= a[0].startLine
    ensures a[0].startLine == b[0].startLine ==> b[0].endLine <= a[0].endLine
  {
    assert IsRun(a[0], lines) && IsRun(b[0], lines);
    assert Held(a, a[0].startLine);
    if a[0].startLine == b[0].startLine && a[0].endLine < b[0].endLine {
      assert Held(b, a[0].endLine + 1);
      assert lines[a[0].endLine + 1] == b[0].count == lines[b[0].startLine];
      assert a[0].count == lines[a[0].startLine];
      NextRunDiffers(a, lines);
    }
  }
}
