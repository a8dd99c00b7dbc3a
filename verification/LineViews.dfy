/**
  Line by line views of a file's blocks: the source view's hit counts, and the
  lines flagged as newly uncovered.
*/
module LineViews {
  import opened Options
  import opened Profile
  import opened Spans

  datatype SourceLine = SourceLine(no: int, text: string, hits: Option<int>, newMiss: bool)

  function Min(a: int, b: int): int {
    if a < b then a else b
  }

  function Max(a: int, b: int): int {
    if a < b then b else a
  }

  /** `count` is the highest count, and at least 0, of the statement blocks over the line. */
  ghost predicate HighestCount(blocks: seq<Block>, l: int, count: int) {
    && 0 <= count
    && (forall i :: 0 <= i < |blocks| && Statement(blocks[i]) && blocks[i].startLine <= l <= blocks[i].endLine ==>
          blocks[i].count <= count)
    && (0 < count ==>
          exists i ::
            && 0 <= i < |blocks| && Statement(blocks[i])
            && blocks[i].startLine <= l <= blocks[i].endLine && blocks[i].count == count)
  }

  /** What the source view knows of the lines 1 to `limit`. */
  ghost predicate CountsOf(blocks: seq<Block>, limit: int, counts: map<int, int>) {
    && (forall l :: l in counts <==> 1 <= l <= limit && Spanned(blocks, Statement, l))
    && (forall l :: l in counts ==> HighestCount(blocks, l, counts[l]))
  }

  lemma HighestCountOneMore(blocks: seq<Block>, n: nat, l: int, before: int)
    requires n < |blocks|
             && (HighestCount(blocks[..n], l, before) || (before == 0 && !Spanned(blocks[..n], Statement, l)))
    ensures var b := blocks[n];
            var spans := Statement(b) && b.startLine <= l <= b.endLine;
            HighestCount(blocks[..n + 1], l, if spans then Max(before, b.count) else before)
  {
    var b := blocks[n];
    assert blocks[..n + 1] == blocks[..n] + [b];
    if before > 0 {
      var i :| 0 <= i < n && Statement(blocks[..n][i]) && blocks[..n][i].startLine <= l <= blocks[..n][i].endLine
          && blocks[..n][i].count == before;
      assert blocks[..n + 1][i] == blocks[..n][i];
    }
    assert blocks[..n + 1][n] == b;
  }

  predicate Over(b: Block, l: int, upTo: int, limit: int) {
    1 <= l && b.startLine <= l < upTo && l <= b.endLine && l <= limit
  }

  /** `was` with the block's count taken over its lines before `upTo`. */
  ghost predicate Raised(counts: map<int, int>, was: map<int, int>, b: Block, upTo: int, limit: int) {
    && (forall l :: l in counts <==> l in was || Over(b, l, upTo, limit))
    && (forall l :: l in counts ==>
          var before := if l in was then was[l] else 0;
          counts[l] == if Over(b, l, upTo, limit) then Max(before, b.count) else before)
  }

  lemma CountsOneMore(blocks: seq<Block>, n: nat, limit: int, was: map<int, int>, counts: map<int, int>)
    requires n < |blocks| && CountsOf(blocks[..n], limit, was)
    requires if Statement(blocks[n])
             then exists upTo :: blocks[n].endLine < upTo && Raised(counts, was, blocks[n], upTo, limit)
             else counts == was
    ensures CountsOf(blocks[..n + 1], limit, counts)
  {
    SpannedOneMore(blocks, n, Statement);
    forall l | l in counts ensures HighestCount(blocks[..n + 1], l, counts[l]) {
      HighestCountOneMore(blocks, n, l, if l in was then was[l] else 0);
    }
  }

  lemma PositiveIsRan(blocks: seq<Block>, limit: int, counts: map<int, int>)
    requires CountsOf(blocks, limit, counts)
    ensures forall l :: l in counts && 0 < counts[l] <==> 1 <= l <= limit && Spanned(blocks, Ran, l)
  {
    forall l ensures l in counts && 0 < counts[l] <==> 1 <= l <= limit && Spanned(blocks, Ran, l) {
      if 1 <= l <= limit && Spanned(blocks, Ran, l) {
        var i :| 0 <= i < |blocks| && Ran(blocks[i]) && blocks[i].startLine <= l <= blocks[i].endLine;
        assert Statement(blocks[i]);
        assert Spanned(blocks, Statement, l);
      }
      if l in counts && 0 < counts[l] {
        assert HighestCount(blocks, l, counts[l]);
        var i :| 0 <= i < |blocks| && Statement(blocks[i]) && blocks[i].startLine <= l <= blocks[i].endLine
            && blocks[i].count == counts[l];
        assert Ran(blocks[i]);
      }
    }
  }

  method LineCounts(blocks: seq<Block>, limit: int) returns (counts: map<int, int>)
    ensures CountsOf(blocks, limit, counts)
    ensures forall l :: l in counts && 0 < counts[l] <==> 1 <= l <= limit && Spanned(blocks, Ran, l)
  {
    counts := map[];
    for n := 0 to |blocks|
      invariant CountsOf(blocks[..n], limit, counts)
    {
      var b := blocks[n];
      ghost var was := counts;
      if Statement(b) {
        var l := Max(b.startLine, 1);
        while l <= Min(b.endLine, limit)
          invariant Max(b.startLine, 1) <= l && Raised(counts, was, b, l, limit)
        {
          counts := counts[l := Max(if l in counts then counts[l] else 0, b.count)];
          l := l + 1;
        }
        assert Raised(counts, was, b, Max(l, b.endLine + 1), limit);
      }
      CountsOneMore(blocks, n, limit, was, counts);
    }
    assert blocks[..|blocks|] == blocks;
    PositiveIsRan(blocks, limit, counts);
  }

  /** Overlays the blocks on the source's lines: a line has hits iff it is executable. */
  method RenderSourceLines(text: seq<string>, blocks: seq<Block>) returns (lines: seq<SourceLine>)
    ensures |lines| == |text|
    ensures forall k :: 0 <= k < |text| ==> lines[k].no == k + 1 && lines[k].text == text[k] && !lines[k].newMiss
    ensures forall k :: 0 <= k < |text| ==> (lines[k].hits.Some? <==> Spanned(blocks, Statement, k + 1))
    ensures forall k :: 0 <= k < |text| && lines[k].hits.Some? ==>
              HighestCount(blocks, k + 1, lines[k].hits.value)
                  && (0 < lines[k].hits.value <==> Spanned(blocks, Ran, k + 1))
  {
    var counts := LineCounts(blocks, |text|);
    lines := [];
    for i := 0 to |text|
      invariant |lines| == i
      invariant forall k :: 0 <= k < i ==>
        lines[k] == SourceLine(k + 1, text[k], if k + 1 in counts then Some(counts[k + 1]) else None, false)
    {
      var no := i + 1;
      lines := lines + [SourceLine(no, text[i], if no in counts then Some(counts[no]) else None, false)];
    }
  }

  // ----- newly uncovered lines

  /** Executable and missed now, and run at the baseline. */
  ghost predicate NewlyMissed(cur: seq<Block>, base: seq<Block>, l: int) {
    Spanned(cur, Statement, l) && !Spanned(cur, Ran, l) && Spanned(base, Ran, l)
  }

  /** The flags and the count with the lines before `upTo` looked at. */
  ghost predicate Flagged(lines: seq<SourceLine>, was: seq<SourceLine>, spans: seq<Span>, upTo: int, n: nat) {
    && |lines| == |was|
    && (forall k :: 0 <= k < |was| ==>
          lines[k] == if Has(spans, k + 1) && k + 1 < upTo then was[k].(newMiss := true) else was[k])
    && n == |LinesBefore(spans, upTo, |was|)|
  }

  ghost function LinesBefore(spans: seq<Span>, upTo: int, limit: int): set<int> {
    set l | 1 <= l <= limit && l < upTo && Has(spans, l)
  }

  lemma FlagOne(lines: seq<SourceLine>, was: seq<SourceLine>, spans: seq<Span>, l: int, n: nat)
    requires Flagged(lines, was, spans, l, n) && 1 <= l <= |was| && Has(spans, l)
    ensures Flagged(lines[l - 1 := lines[l - 1].(newMiss := true)], was, spans, l + 1, n + 1)
  {
    OneLineMore(spans, l, |was|);
  }

  lemma OneLineMore(spans: seq<Span>, l: int, limit: int)
    requires 1 <= l <= limit && Has(spans, l)
    ensures |LinesBefore(spans, l + 1, limit)| == |LinesBefore(spans, l, limit)| + 1
  {
    assert LinesBefore(spans, l + 1, limit) == LinesBefore(spans, l, limit) + {l};
  }

  lemma FlagNone(lines: seq<SourceLine>, was: seq<SourceLine>, spans: seq<Span>, l: int, l': int, n: nat)
    requires Flagged(lines, was, spans, l, n) && l <= l'
    requires forall m :: l <= m < l' && 1 <= m <= |was| ==> !Has(spans, m)
    ensures Flagged(lines, was, spans, l', n)
  {
    assert LinesBefore(spans, l', |was|) == LinesBefore(spans, l, |was|);
  }

  /** Flags one span's lines, those past the end of the source left out. */
  method FlagSpan(lines: array<SourceLine>, ghost was: seq<SourceLine>, ghost spans: seq<Span>, ghost i: nat,
      ghost upTo: int, sp: Span, before: nat) returns (n: nat)
    requires Canonical(spans) && i < |spans| && sp == spans[i] && 1 <= sp.start && upTo <= sp.start
    requires EndBefore(spans, i, upTo) && Flagged(lines[..], was, spans, upTo, before)
    modifies lines
    ensures Flagged(lines[..], was, spans, sp.end + 1, n)
  {
    Gap(spans, i, upTo, sp.start - 1);
    FlagNone(lines[..], was, spans, upTo, sp.start, before);
    n := FlagLines(lines, was, spans, i, sp, before);
  }

  method FlagLines(lines: array<SourceLine>, ghost was: seq<SourceLine>, ghost spans: seq<Span>, ghost i: nat, sp: Span,
      before: nat) returns (n: nat)
    requires i < |spans| && sp == spans[i] && 1 <= sp.start <= sp.end + 1
    requires Flagged(lines[..], was, spans, sp.start, before)
    modifies lines
    ensures Flagged(lines[..], was, spans, sp.end + 1, n)
  {
    n := before;
    var l := sp.start;
    while l <= Min(sp.end, lines.Length)
      invariant sp.start <= l <= sp.end + 1
      invariant Flagged(lines[..], was, spans, l, n)
    {
      assert In(l, spans[i]);
      FlagOne(lines[..], was, spans, l, n);
      lines[l - 1] := lines[l - 1].(newMiss := true);
      n := n + 1;
      l := l + 1;
    }
    FlagNone(lines[..], was, spans, l, sp.end + 1, n);
  }

  /** Flags the newly missed lines in place and counts them. */
  method MarkNewlyUncovered(lines: array<SourceLine>, cur: seq<Block>, base: seq<Block>) returns (n: nat)
    modifies lines
    ensures forall k :: 0 <= k < lines.Length ==>
              lines[k] == if NewlyMissed(cur, base, k + 1) then old(lines[k]).(newMiss := true) else old(lines[k])
    ensures n == |set l | 1 <= l <= lines.Length && NewlyMissed(cur, base, l)|
  {
    n := 0;
    var spans := RegressedSpans(cur, base);
    forall i | 0 <= i < |spans| ensures 1 <= spans[i].start {
      assert In(spans[i].start, spans[i]);
      assert Has(spans, spans[i].start);
    }
    ghost var was := lines[..];
    ghost var upTo := 0;
    for i := 0 to |spans|
      invariant Flagged(lines[..], was, spans, upTo, n)
      invariant EndBefore(spans, i, upTo) && (i < |spans| ==> upTo <= spans[i].start)
    {
      n := FlagSpan(lines, was, spans, i, upTo, spans[i], n);
      upTo := spans[i].end + 1;
    }
    FlagNone(lines[..], was, spans, upTo, Max(upTo, lines.Length + 1), n);
    assert LinesBefore(spans, Max(upTo, lines.Length + 1), lines.Length)
           == set l | 1 <= l <= lines.Length && NewlyMissed(cur, base, l);
  }
}
