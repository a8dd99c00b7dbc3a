/**
  Line spans: sorted, disjoint, non-adjacent runs of line numbers. Every
  operation is a two-pointer pass over such lists, and is exact set algebra on
  the lines they stand for.
*/
module Spans {
  import opened Profile
  import Sorting

  datatype Span = Span(start: int, end: int)

  predicate In(l: int, sp: Span) {
    sp.start <= l <= sp.end
  }

  /** Some span holds the line. */
  ghost predicate Has(spans: seq<Span>, l: int) {
    exists i :: 0 <= i < |spans| && In(l, spans[i])
  }

  /** Sorted, disjoint and non-adjacent: the one way to write a set of lines. */
  ghost predicate Canonical(spans: seq<Span>) {
    && (forall i :: 0 <= i < |spans| ==> spans[i].start <= spans[i].end)
    && (forall i, j :: 0 <= i < j < |spans| ==> spans[i].end + 1 < spans[j].start)
  }

  /** Two canonical lists of the same lines are the same list. */
  lemma {:induction false} CanonicalIsUnique(a: seq<Span>, b: seq<Span>)
    requires Canonical(a) && Canonical(b)
    requires forall l :: Has(a, l) <==> Has(b, l)
    ensures a == b
  {
    if a == [] || b == [] {
      assert a != [] ==> Has(a, a[0].start);
      assert b != [] ==> Has(b, b[0].start);
    } else {
      FirstLines(a, b);
      FirstLines(b, a);
      assert a[0] == b[0];
      forall l ensures Has(a[1..], l) <==> Has(b[1..], l) {
        RestHas(a, l);
        RestHas(b, l);
      }
      CanonicalIsUnique(a[1..], b[1..]);
      assert a == [a[0]] + a[1..] && b == [b[0]] + b[1..];
    }
  }

  lemma RestHas(a: seq<Span>, l: int)
    requires Canonical(a) && a != []
    ensures Has(a[1..], l) <==> Has(a, l) && !In(l, a[0])
  {
    if Has(a, l) && !In(l, a[0]) {
      var i :| 0 <= i < |a| && In(l, a[i]);
      assert a[1..][i - 1] == a[i];
    }
    if Has(a[1..], l) {
      var i :| 0 <= i < |a| - 1 && In(l, a[1..][i]);
      assert In(l, a[i + 1]);
    }
  }

  /** The first span starts no later and, starting together, ends no later. */
  lemma FirstLines(a: seq<Span>, b: seq<Span>)
    requires Canonical(a) && Canonical(b) && a != [] && b != []
    requires forall l :: Has(a, l) <==> Has(b, l)
    ensures a[0].start >= b[0].start
    ensures a[0].start == b[0].start ==> a[0].end >= b[0].end
  {
    assert In(a[0].start, a[0]);
    assert Has(a, a[0].start);
    if a[0].start == b[0].start && a[0].end < b[0].end {
      assert In(a[0].end + 1, b[0]);
      assert Has(b, a[0].end + 1);
    }
  }

  /** Adding a span after the last one of a canonical list. */
  lemma AppendHas(spans: seq<Span>, sp: Span)
    ensures forall l :: Has(spans + [sp], l) <==> Has(spans, l) || In(l, sp)
  {
    forall l ensures Has(spans + [sp], l) <==> Has(spans, l) || In(l, sp) {
      if Has(spans, l) {
        var i :| 0 <= i < |spans| && In(l, spans[i]);
        assert In(l, (spans + [sp])[i]);
      }
      if In(l, sp) {
        assert In(l, (spans + [sp])[|spans|]);
      }
    }
  }

  /** The first `n` spans end before `l`. */
  ghost predicate EndBefore(spans: seq<Span>, n: nat, l: int)
    requires n <= |spans|
  {
    forall i :: 0 <= i < n ==> spans[i].end < l
  }

  /** Between two neighbouring spans there is nothing. */
  lemma Gap(b: seq<Span>, k: nat, lo: int, hi: int)
    requires Canonical(b) && k <= |b| && EndBefore(b, k, lo) && (k < |b| ==> hi < b[k].start)
    ensures forall l :: lo <= l <= hi ==> !Has(b, l)
  {
  }

  /** The lines of `a` that are not in `b`. */
  method SubtractSpans(a: seq<Span>, b: seq<Span>) returns (out: seq<Span>)
    requires Canonical(a) && Canonical(b)
    ensures Canonical(out)
    ensures forall l :: Has(out, l) <==> Has(a, l) && !Has(b, l)
  {
    out := [];
    var j := 0;
    for i := 0 to |a|
      invariant 0 <= j <= |b| && Canonical(out)
      invariant i < |a| ==> EndBefore(out, |out|, a[i].start - 1) && EndBefore(b, j, a[i].start)
      invariant forall l :: Has(out, l) <==> Has(a[..i], l) && !Has(b, l)
    {
      var sp := a[i];
      var start := sp.start;
      while j < |b| && b[j].end < start
        invariant 0 <= j <= |b| && EndBefore(b, j, start)
      {
        j := j + 1;
      }
      var k := j;
      while k < |b| && b[k].start <= sp.end
        invariant j <= k <= |b| && sp.start <= start && EndBefore(b, k, start) && (k < |b| ==> start <= b[k].end)
        invariant Canonical(out) && EndBefore(out, |out|, start - 1) && EndBefore(out, |out|, sp.end + 1)
        invariant forall l :: Has(out, l) <==> (Has(a[..i], l) || (In(l, sp) && l < start)) && !Has(b, l)
      {
        assert forall l :: In(l, b[k]) ==> Has(b, l);
        Gap(b, k, start, b[k].start - 1);
        if b[k].start > start {
          AppendHas(out, Span(start, b[k].start - 1));
          out := out + [Span(start, b[k].start - 1)];
        }
        start := if start < b[k].end + 1 then b[k].end + 1 else start;
        k := k + 1;
      }
      Gap(b, k, start, sp.end);
      if start <= sp.end {
        AppendHas(out, Span(start, sp.end));
        out := out + [Span(start, sp.end)];
      }
      AppendHas(a[..i], sp);
      assert a[..i + 1] == a[..i] + [sp];
    }
    assert a[..|a|] == a;
  }

  /** Every line before `settled` is settled, and the spans that end before it are passed. */
  ghost predicate Settled(a: seq<Span>, b: seq<Span>, i: nat, j: nat, out: seq<Span>, settled: int) {
    && i <= |a| && j <= |b|
    && EndBefore(a, i, settled) && EndBefore(b, j, settled) && EndBefore(out, |out|, settled)
    && (i < |a| && j < |b| ==>
          && settled <= a[i].end + 1 && settled <= b[j].end + 1
          && (out != [] ==> settled < a[i].start || settled < b[j].start))
    && Canonical(out)
    && (forall l :: Has(out, l) <==> Has(a, l) && Has(b, l) && l < settled)
  }

  /** The lines from `settled` to the end of an overlap that are in both lists are those of the overlap. */
  lemma OverlapHas(a: seq<Span>, b: seq<Span>, i: nat, j: nat, out: seq<Span>, settled: int, start: int, end: int)
    requires Canonical(a) && Canonical(b) && i < |a| && j < |b| && Settled(a, b, i, j, out, settled)
    requires start == (if a[i].start < b[j].start then b[j].start else a[i].start)
    requires end == (if a[i].end < b[j].end then a[i].end else b[j].end)
    ensures var more := if start <= end then out + [Span(start, end)] else out;
            forall l :: Has(more, l) <==> Has(a, l) && Has(b, l) && l < end + 1
  {
    Gap(a, i, settled, a[i].start - 1);
    Gap(b, j, settled, b[j].start - 1);
    if start <= end {
      assert forall l :: start <= l <= end ==> In(l, a[i]) && In(l, b[j]);
      AppendHas(out, Span(start, end));
    }
  }

  lemma OverlapSettled(a: seq<Span>, b: seq<Span>, i: nat, j: nat, out: seq<Span>, settled: int, start: int, end: int)
    requires Canonical(a) && Canonical(b) && i < |a| && j < |b| && Settled(a, b, i, j, out, settled)
    requires start == (if a[i].start < b[j].start then b[j].start else a[i].start)
    requires end == (if a[i].end < b[j].end then a[i].end else b[j].end)
    ensures var more := if start <= end then out + [Span(start, end)] else out;
            if a[i].end < b[j].end
            then Settled(a, b, i + 1, j, more, end + 1)
            else Settled(a, b, i, j + 1, more, end + 1)
  {
    OverlapHas(a, b, i, j, out, settled, start, end);
    OverlapFollows(out, settled, start, end);
    StillBefore(a, i, settled, end + 1);
    StillBefore(b, j, settled, end + 1);
  }

  lemma OverlapFollows(out: seq<Span>, settled: int, start: int, end: int)
    requires Canonical(out) && EndBefore(out, |out|, settled) && settled <= end + 1 && (out != [] ==> settled < start)
    ensures var more := if start <= end then out + [Span(start, end)] else out;
            Canonical(more) && EndBefore(more, |more|, end + 1)
  {
  }

  lemma StillBefore(spans: seq<Span>, n: nat, l: int, l': int)
    requires n <= |spans| && EndBefore(spans, n, l) && l <= l'
    ensures EndBefore(spans, n, l')
  {
  }

  /** The lines in both `a` and `b`. */
  method IntersectSpans(a: seq<Span>, b: seq<Span>) returns (out: seq<Span>)
    requires Canonical(a) && Canonical(b)
    ensures Canonical(out)
    ensures forall l :: Has(out, l) <==> Has(a, l) && Has(b, l)
  {
    out := [];
    var i, j := 0, 0;
    ghost var settled := FirstLine(a, b);
    NothingSettled(a, b);
    while i < |a| && j < |b|
      invariant Settled(a, b, i, j, out, settled)
      decreases |a| - i + |b| - j
    {
      var start := if a[i].start < b[j].start then b[j].start else a[i].start;
      var end := if a[i].end < b[j].end then a[i].end else b[j].end;
      OverlapSettled(a, b, i, j, out, settled, start, end);
      if start <= end {
        out := out + [Span(start, end)];
      }
      if a[i].end < b[j].end {
        i := i + 1;
      } else {
        j := j + 1;
      }
      settled := end + 1;
    }
    AllSettled(a, b, i, j, out, settled);
  }

  lemma AllSettled(a: seq<Span>, b: seq<Span>, i: nat, j: nat, out: seq<Span>, settled: int)
    requires Settled(a, b, i, j, out, settled) && (i == |a| || j == |b|)
    ensures forall l :: Has(out, l) <==> Has(a, l) && Has(b, l)
  {
    if i == |a| {
      assert forall l :: Has(a, l) ==> l < settled;
    } else {
      assert forall l :: Has(b, l) ==> l < settled;
    }
  }

  lemma NothingSettled(a: seq<Span>, b: seq<Span>)
    requires Canonical(a) && Canonical(b)
    ensures Settled(a, b, 0, 0, [], FirstLine(a, b))
  {
  }

  /** No line of both lists comes before it. */
  function FirstLine(a: seq<Span>, b: seq<Span>): int {
    if a == [] then 0 else if b == [] || a[0].start < b[0].start then a[0].start else b[0].start
  }

  // ----- from blocks to spans

  /** A block `keep` accepts spans the line. */
  ghost predicate Spanned(blocks: seq<Block>, keep: Block -> bool, l: int) {
    exists i :: 0 <= i < |blocks| && keep(blocks[i]) && blocks[i].startLine <= l <= blocks[i].endLine
  }

  predicate StartLe(a: Span, b: Span) {
    a.start <= b.start
  }

  /** `slices.SortFunc` by start: any ordered rearrangement, as spans may tie. */
  method SortByStart(spans: seq<Span>) returns (r: seq<Span>)
    ensures Sorting.IsSortOf(r, spans, StartLe)
    ensures forall l :: Has(r, l) <==> Has(spans, l)
  {
    Sorting.SortSorts(spans, StartLe);
    r := Sorting.Sort(spans, StartLe);
    Sorting.SameElements(r, spans);
    forall l ensures Has(r, l) <==> Has(spans, l) {
      assert Has(r, l) <==> exists sp :: sp in r && In(l, sp);
      assert Has(spans, l) <==> exists sp :: sp in spans && In(l, sp);
    }
  }

  /** Widening the last span of a canonical list to take in one that meets it. */
  lemma WidenHas(spans: seq<Span>, sp: Span)
    requires spans != [] && spans[|spans| - 1].start <= sp.start <= spans[|spans| - 1].end + 1
    requires spans[|spans| - 1].start <= spans[|spans| - 1].end
    ensures var last := spans[|spans| - 1];
            var wide := spans[|spans| - 1 := Span(last.start, if last.end < sp.end then sp.end else last.end)];
            forall l :: Has(wide, l) <==> Has(spans, l) || In(l, sp)
  {
    var n, last := |spans| - 1, spans[|spans| - 1];
    var wide := spans[n := Span(last.start, if last.end < sp.end then sp.end else last.end)];
    AppendHas(spans[..n], last);
    AppendHas(spans[..n], wide[n]);
    assert spans == spans[..n] + [last] && wide == spans[..n] + [wide[n]];
  }

  /** The lines from 1 up that the blocks `keep` accepts span. */
  method MergedSpans(blocks: seq<Block>, keep: Block -> bool) returns (merged: seq<Span>)
    ensures Canonical(merged)
    ensures forall l :: Has(merged, l) <==> 1 <= l && Spanned(blocks, keep, l)
  {
    var spans := KeptSpans(blocks, keep);
    var sorted := SortByStart(spans);
    Sorting.SameElements(sorted, spans);
    merged := [];
    for n := 0 to |sorted|
      invariant Canonical(merged) && (n < |sorted| ==> StartsBy(merged, sorted[n].start))
      invariant forall l :: Has(merged, l) <==> Has(sorted[..n], l)
    {
      assert sorted[n] in spans;
      Sorting.OneMore(sorted, n);
      AppendHas(sorted[..n], sorted[n]);
      merged := TakeSpan(merged, sorted[n]);
      assert n + 1 < |sorted| ==> StartLe(sorted[n], sorted[n + 1]);
    }
    assert sorted[..|sorted|] == sorted;
  }

  /** The lines from 1 up of every block `keep` accepts. */
  method KeptSpans(blocks: seq<Block>, keep: Block -> bool) returns (spans: seq<Span>)
    ensures forall sp :: sp in spans ==> 1 <= sp.start <= sp.end
    ensures forall l :: Has(spans, l) <==> 1 <= l && Spanned(blocks, keep, l)
  {
    spans := [];
    for n := 0 to |blocks|
      invariant forall sp :: sp in spans ==> 1 <= sp.start <= sp.end
      invariant forall l :: Has(spans, l) <==> 1 <= l && Spanned(blocks[..n], keep, l)
    {
      var b := blocks[n];
      var start := if b.startLine < 1 then 1 else b.startLine;
      SpannedOneMore(blocks, n, keep);
      if keep(b) && start <= b.endLine {
        AppendHas(spans, Span(start, b.endLine));
        spans := spans + [Span(start, b.endLine)];
      }
    }
    assert blocks[..|blocks|] == blocks;
  }

  /** The last span starts no later than `start`. */
  predicate StartsBy(merged: seq<Span>, start: int) {
    merged != [] ==> merged[|merged| - 1].start <= start
  }

  /** One span taken in: it widens the last one or follows it. */
  method TakeSpan(merged: seq<Span>, sp: Span) returns (more: seq<Span>)
    requires Canonical(merged) && StartsBy(merged, sp.start) && 1 <= sp.start <= sp.end
    ensures Canonical(more) && StartsBy(more, sp.start)
    ensures forall l :: Has(more, l) <==> Has(merged, l) || In(l, sp)
  {
    var k := |merged|;
    if k > 0 && sp.start <= merged[k - 1].end + 1 {
      WidenHas(merged, sp);
      var last := merged[k - 1];
      more := merged[k - 1 := Span(last.start, if last.end < sp.end then sp.end else last.end)];
    } else {
      AppendHas(merged, sp);
      more := merged + [sp];
    }
  }

  lemma SpannedOneMore(blocks: seq<Block>, n: nat, keep: Block -> bool)
    requires n < |blocks|
    ensures forall l :: Spanned(blocks[..n + 1], keep, l) <==>
                        Spanned(blocks[..n], keep, l)
                            || (keep(blocks[n]) && blocks[n].startLine <= l <= blocks[n].endLine)
  {
    forall l | Spanned(blocks[..n], keep, l) ensures Spanned(blocks[..n + 1], keep, l) {
      var i :| 0 <= i < n && keep(blocks[..n][i]) && blocks[..n][i].startLine <= l <= blocks[..n][i].endLine;
      assert blocks[..n + 1][i] == blocks[..n][i];
    }
    assert blocks[..n + 1][n] == blocks[n];
  }

  /** Membership by binary search on the spans' ends. */
  method InSpans(spans: seq<Span>, l: int) returns (r: bool)
    requires Canonical(spans)
    ensures r == Has(spans, l)
  {
    var i, j := 0, |spans|;
    while i < j
      invariant 0 <= i <= j <= |spans| && EndBefore(spans, i, l)
      invariant j < |spans| ==> l <= spans[j].end
    {
      var h := (i + j) / 2;
      if spans[h].end < l {
        i := h + 1;
      } else {
        j := h;
      }
    }
    return i < |spans| && spans[i].start <= l;
  }

  /** Sorted line numbers as runs of consecutive lines; a repeated line stays in its run. */
  method LineSpans(lines: seq<int>) returns (spans: seq<Span>)
    requires Sorting.Ordered(lines, Sorting.IntLe)
    ensures Canonical(spans)
    ensures forall l :: Has(spans, l) <==> l in lines
  {
    if |lines| == 0 {
      return [];
    }
    spans := [];
    var sp := Span(lines[0], lines[0]);
    assert lines[..1] == [lines[0]];
    for n := 1 to |lines|
      invariant sp.start <= sp.end == lines[n - 1]
      invariant Canonical(spans) && EndBefore(spans, |spans|, sp.start - 1)
      invariant forall l :: (Has(spans, l) || In(l, sp)) <==> l in lines[..n]
    {
      var l := lines[n];
      assert Sorting.IntLe(lines[n - 1], l);
      assert lines[..n + 1] == lines[..n] + [l];
      if l == sp.end || l == sp.end + 1 {
        sp := Span(sp.start, l);
        continue;
      }
      AppendHas(spans, sp);
      spans := spans + [sp];
      sp := Span(l, l);
    }
    assert lines[..|lines|] == lines;
    AppendHas(spans, sp);
    return spans + [sp];
  }

  // ----- lines the tests missed, and lines they newly miss

  /** The executable lines no block ran over. */
  method MissedSpans(blocks: seq<Block>) returns (out: seq<Span>)
    ensures Canonical(out)
    ensures forall l :: Has(out, l) <==> 1 <= l && Spanned(blocks, Statement, l) && !Spanned(blocks, Ran, l)
  {
    var all := MergedSpans(blocks, Statement);
    var ran := MergedSpans(blocks, Ran);
    out := SubtractSpans(all, ran);
  }

  /** The lines missed now that the baseline ran. */
  method RegressedSpans(cur: seq<Block>, base: seq<Block>) returns (out: seq<Span>)
    ensures Canonical(out)
    ensures forall l :: Has(out, l) <==>
            1 <= l && Spanned(cur, Statement, l) && !Spanned(cur, Ran, l) && Spanned(base, Ran, l)
  {
    var missed := MissedSpans(cur);
    var ran := MergedSpans(base, Ran);
    out := IntersectSpans(missed, ran);
  }
}
