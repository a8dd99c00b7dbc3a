/**
  Ignore patterns: slash-separated globs matched against report paths, segment
  by segment. A segment's own glob (`path.Match`) is the parameter `glob`.
*/
module Ignore {
  import opened Options

  type Segment = string
  type Glob = (Segment, Segment) -> bool

  const STARS: Segment := "**"

  // ----- what a pattern means

  /** The pattern stands for exactly these segments, each `**` for a run of any length. */
  ghost predicate Denotes(pat: seq<Segment>, segs: seq<Segment>, glob: Glob)
    decreases |pat|
  {
    if pat == [] then segs == []
    else if pat[0] == STARS then exists k :: 0 <= k <= |segs| && Denotes(pat[1..], segs[k..], glob)
    else segs != [] && glob(pat[0], segs[0]) && Denotes(pat[1..], segs[1..], glob)
  }

  /** The pattern matches the path or a directory above it. */
  ghost predicate Covers(pat: seq<Segment>, segs: seq<Segment>, glob: Glob) {
    exists n :: 0 <= n <= |segs| && Denotes(pat, segs[..n], glob)
  }

  predicate NoStars(pat: seq<Segment>, lo: int, hi: int)
    requires 0 <= lo && hi <= |pat|
  {
    forall i :: lo <= i < hi ==> pat[i] != STARS
  }

  predicate OnlyStars(pat: seq<Segment>) {
    forall i :: 0 <= i < |pat| ==> pat[i] == STARS
  }

  // ----- laws of that meaning

  lemma CoversNothingLeft(segs: seq<Segment>, glob: Glob)
    ensures Covers([], segs, glob)
  {
    assert Denotes([], segs[..0], glob);
  }

  lemma CoversStars(pat: seq<Segment>, segs: seq<Segment>, glob: Glob)
    requires pat != [] && pat[0] == STARS
    ensures Covers(pat, segs, glob) <==> exists k :: 0 <= k <= |segs| && Covers(pat[1..], segs[k..], glob)
  {
    if Covers(pat, segs, glob) {
      var n :| 0 <= n <= |segs| && Denotes(pat, segs[..n], glob);
      var k :| 0 <= k <= n && Denotes(pat[1..], segs[..n][k..], glob);
      assert segs[..n][k..] == segs[k..][..n - k];
      assert Covers(pat[1..], segs[k..], glob);
    }
    if k :| 0 <= k <= |segs| && Covers(pat[1..], segs[k..], glob) {
      var n :| 0 <= n <= |segs[k..]| && Denotes(pat[1..], segs[k..][..n], glob);
      assert segs[..n + k][k..] == segs[k..][..n];
      assert Denotes(pat, segs[..n + k], glob);
    }
  }

  lemma CoversOne(pat: seq<Segment>, segs: seq<Segment>, glob: Glob)
    requires pat != [] && pat[0] != STARS
    ensures Covers(pat, segs, glob) <==> segs != [] && glob(pat[0], segs[0]) && Covers(pat[1..], segs[1..], glob)
  {
    if Covers(pat, segs, glob) {
      var n :| 0 <= n <= |segs| && Denotes(pat, segs[..n], glob);
      assert segs[..n][1..] == segs[1..][..n - 1];
    }
    if segs != [] && glob(pat[0], segs[0]) && Covers(pat[1..], segs[1..], glob) {
      var n :| 0 <= n <= |segs[1..]| && Denotes(pat[1..], segs[1..][..n], glob);
      assert segs[..n + 1][1..] == segs[1..][..n];
      assert Denotes(pat, segs[..n + 1], glob);
    }
  }

  lemma {:induction false} CoversEmptyPath(pat: seq<Segment>, glob: Glob)
    ensures Covers(pat, [], glob) <==> OnlyStars(pat)
  {
    if pat == [] {
      CoversNothingLeft([], glob);
    } else if pat[0] == STARS {
      CoversStars(pat, [], glob);
      CoversEmptyPath(pat[1..], glob);
      var nothing: seq<Segment> := [];
      assert nothing[0..] == nothing;
      assert OnlyStars(pat[1..]) ==> forall i :: 0 < i < |pat| ==> pat[i] == pat[1..][i - 1];
    } else {
      CoversOne(pat, [], glob);
    }
  }

  /**
    Earlier `**`s never need revisiting: if a run without `**` can match later
    in the path, then what follows it can still match from there.
  */
  lemma {:induction false} RunMoves(pat: seq<Segment>, segs: seq<Segment>, len: nat, glob: Glob)
    requires len <= |pat| && NoStars(pat, 0, len) && Covers(pat, segs, glob)
    ensures len <= |segs| && Covers(pat[len..], segs[len..], glob)
  {
    if len == 0 {
      assert pat[0..] == pat && segs[0..] == segs;
    } else {
      CoversOne(pat, segs, glob);
      RunMoves(pat[1..], segs[1..], len - 1, glob);
      assert pat[1..][len - 1..] == pat[len..] && segs[1..][len - 1..] == segs[len..];
    }
  }

  /** Something matches with the pattern's tail moved further down the path. */
  ghost predicate Later(pat: seq<Segment>, segs: seq<Segment>, pi: nat, si: nat, glob: Glob)
    requires pi <= |pat|
  {
    exists k :: si < k <= |segs| && Covers(pat[pi..], segs[k..], glob)
  }

  /** What is left to find out at a position of the loop, whose last `**` is at `starPi`. */
  ghost predicate Open(pat: seq<Segment>, segs: seq<Segment>, pi: nat, si: nat, starPi: int, starSi: nat, glob: Glob)
    requires -1 <= starPi < pi <= |pat| && si <= |segs|
  {
    Covers(pat[pi..], segs[si..], glob) || (starPi >= 0 && Later(pat, segs, starPi + 1, starSi, glob))
  }

  lemma StarsFrom(pat: seq<Segment>, segs: seq<Segment>, pi: nat, si: nat, glob: Glob)
    requires pi < |pat| && pat[pi] == STARS && si <= |segs|
    ensures Covers(pat[pi..], segs[si..], glob) <==>
            exists k :: si <= k <= |segs| && Covers(pat[pi + 1..], segs[k..], glob)
  {
    CoversStars(pat[pi..], segs[si..], glob);
    assert pat[pi..][1..] == pat[pi + 1..];
    if j :| 0 <= j <= |segs| - si && Covers(pat[pi + 1..], segs[si..][j..], glob) {
      assert segs[si..][j..] == segs[si + j..];
    }
    if k :| si <= k <= |segs| && Covers(pat[pi + 1..], segs[k..], glob) {
      assert segs[si..][k - si..] == segs[k..];
    }
  }

  /** A new `**` takes over from the one before it. */
  lemma NewStar(pat: seq<Segment>, segs: seq<Segment>, pi: nat, si: nat, starPi: int, starSi: nat, glob: Glob)
    requires -1 <= starPi < pi < |pat| && si <= |segs| && si - starSi == pi - starPi - 1
    requires NoStars(pat, starPi + 1, pi) && pat[pi] == STARS
    ensures Open(pat, segs, pi, si, starPi, starSi, glob) <==> Open(pat, segs, pi + 1, si, pi, si, glob)
  {
    StarsFrom(pat, segs, pi, si, glob);
    if starPi >= 0 && Later(pat, segs, starPi + 1, starSi, glob) {
      var k :| starSi < k <= |segs| && Covers(pat[starPi + 1..], segs[k..], glob);
      LaterMoves(pat, segs, pi, starPi, k, glob);
      StarsFrom(pat, segs, pi, k + (pi - starPi - 1), glob);
    }
  }

  lemma LaterMoves(pat: seq<Segment>, segs: seq<Segment>, pi: nat, starPi: nat, k: nat, glob: Glob)
    requires starPi < pi <= |pat| && k <= |segs| && NoStars(pat, starPi + 1, pi)
    requires Covers(pat[starPi + 1..], segs[k..], glob)
    ensures k + (pi - starPi - 1) <= |segs| && Covers(pat[pi..], segs[k + (pi - starPi - 1)..], glob)
  {
    var run := pi - starPi - 1;
    RunMoves(pat[starPi + 1..], segs[k..], run, glob);
    assert pat[starPi + 1..][run..] == pat[pi..] && segs[k..][run..] == segs[k + run..];
  }

  /** A comparison decides the position: on to the next cell, or back to the last `**`. */
  lemma AfterComparison(pat: seq<Segment>, segs: seq<Segment>, pi: nat, si: nat, starPi: int, starSi: nat, glob: Glob)
    requires -1 <= starPi < pi < |pat| && starSi <= si < |segs| && pat[pi] != STARS
    ensures glob(pat[pi], segs[si]) ==>
              (Open(pat, segs, pi, si, starPi, starSi, glob) <==> Open(pat, segs, pi + 1, si + 1, starPi, starSi, glob))
    ensures !glob(pat[pi], segs[si]) && starPi >= 0 ==>
              (Open(pat, segs, pi, si, starPi, starSi, glob) <==>
                    Open(pat, segs, starPi + 1, starSi + 1, starPi, starSi + 1, glob))
    ensures !glob(pat[pi], segs[si]) && starPi < 0 ==> !Open(pat, segs, pi, si, starPi, starSi, glob)
  {
    CoversOne(pat[pi..], segs[si..], glob);
    assert pat[pi..][1..] == pat[pi + 1..] && segs[si..][1..] == segs[si + 1..];
  }

  lemma PathUsedUp(pat: seq<Segment>, segs: seq<Segment>, pi: nat, starPi: int, starSi: nat, glob: Glob)
    requires -1 <= starPi < pi <= |pat| && |segs| - starSi == pi - starPi - 1
    requires NoStars(pat, starPi + 1, pi)
    ensures Open(pat, segs, pi, |segs|, starPi, starSi, glob) <==> OnlyStars(pat[pi..])
  {
    assert segs[|segs|..] == [];
    CoversEmptyPath(pat[pi..], glob);
    if starPi >= 0 && Later(pat, segs, starPi + 1, starSi, glob) {
      var k :| starSi < k <= |segs| && Covers(pat[starPi + 1..], segs[k..], glob);
      LaterMoves(pat, segs, pi, starPi, k, glob);
    }
  }

  // `cmd/preview`, with or without a trailing double star, ignores the same files.
  lemma {:induction false} DirectoryPattern(pat: seq<Segment>, segs: seq<Segment>, glob: Glob)
    ensures Covers(pat + [STARS], segs, glob) <==> Covers(pat, segs, glob)
  {
    var longer := pat + [STARS];
    if pat == [] {
      CoversStars(longer, segs, glob);
      CoversNothingLeft(segs, glob);
      CoversNothingLeft(segs[0..], glob);
      assert longer[1..] == [];
    } else {
      assert longer[1..] == pat[1..] + [STARS];
      if pat[0] == STARS {
        CoversStars(longer, segs, glob);
        CoversStars(pat, segs, glob);
        forall k | 0 <= k <= |segs|
          ensures Covers(longer[1..], segs[k..], glob) <==> Covers(pat[1..], segs[k..], glob)
        {
          DirectoryPattern(pat[1..], segs[k..], glob);
        }
      } else {
        CoversOne(longer, segs, glob);
        CoversOne(pat, segs, glob);
        if segs != [] {
          DirectoryPattern(pat[1..], segs[1..], glob);
        }
      }
    }
  }

  /** A pattern without a leading slash matches at any directory level. */
  lemma FloatingPattern(pat: seq<Segment>, segs: seq<Segment>, glob: Glob)
    ensures Covers([STARS] + pat, segs, glob) <==> exists k :: 0 <= k <= |segs| && Covers(pat, segs[k..], glob)
  {
    CoversStars([STARS] + pat, segs, glob);
    assert ([STARS] + pat)[1..] == pat;
  }

  lemma TwoStars(pat: seq<Segment>, segs: seq<Segment>, glob: Glob)
    ensures Covers([STARS] + ([STARS] + pat), segs, glob) <==> Covers([STARS] + pat, segs, glob)
  {
    FloatingPattern([STARS] + pat, segs, glob);
    FloatingPattern(pat, segs, glob);
    if j :| 0 <= j <= |segs| && Covers([STARS] + pat, segs[j..], glob) {
      FloatingPattern(pat, segs[j..], glob);
      var k :| 0 <= k <= |segs| - j && Covers(pat, segs[j..][k..], glob);
      assert segs[j..][k..] == segs[j + k..];
    }
    assert segs[0..] == segs;
  }

  /** A `**` right after another adds nothing. */
  lemma {:induction false} StarsCollapse(a: seq<Segment>, b: seq<Segment>, segs: seq<Segment>, glob: Glob)
    requires a != [] && a[|a| - 1] == STARS
    ensures Covers(a + ([STARS] + b), segs, glob) <==> Covers(a + b, segs, glob)
  {
    var long, short := a + ([STARS] + b), a + b;
    if |a| == 1 {
      assert a == [STARS];
      TwoStars(b, segs, glob);
    } else {
      assert long[1..] == a[1..] + ([STARS] + b) && short[1..] == a[1..] + b;
      if a[0] == STARS {
        CoversStars(long, segs, glob);
        CoversStars(short, segs, glob);
        forall k | 0 <= k <= |segs|
          ensures Covers(long[1..], segs[k..], glob) <==> Covers(short[1..], segs[k..], glob)
        {
          StarsCollapse(a[1..], b, segs[k..], glob);
        }
      } else {
        CoversOne(long, segs, glob);
        CoversOne(short, segs, glob);
        if segs != [] {
          StarsCollapse(a[1..], b, segs[1..], glob);
        }
      }
    }
  }

  // ----- compiling one pattern, already split at its slashes

  /** What compiling gives; `Panics` is an index out of range. */
  datatype Compiled = Panics | Bad | Ok(segs: seq<Segment>)

  predicate HasStars(seg: Segment) {
    exists i :: 0 <= i < |seg| - 1 && seg[i] == '*' && seg[i + 1] == '*'
  }

  /** `strings.ReplaceAll(seg, "**", "*")`. */
  function SingleStars(seg: Segment): Segment {
    if |seg| < 2 then seg
    else if seg[0] == '*' && seg[1] == '*' then "*" + SingleStars(seg[2..])
    else [seg[0]] + SingleStars(seg[1..])
  }

  /** The glob a segment compiles to; inside a segment `**` reads as `**` and then `*`. */
  function Spelled(seg: Segment): seq<Segment> {
    if HasStars(seg) && seg != STARS then [STARS, SingleStars(seg)] else [seg]
  }

  function SpelledAll(raw: seq<Segment>): seq<Segment> {
    if raw == [] then [] else Spelled(raw[0]) + SpelledAll(raw[1..])
  }

  /** The pattern as written, before repeated `**` are dropped. */
  function Written(anchored: bool, raw: seq<Segment>): seq<Segment> {
    (if anchored then [] else [STARS]) + SpelledAll(raw)
  }

  ghost predicate SameMeaning(p: seq<Segment>, q: seq<Segment>, glob: Glob) {
    forall segs :: Covers(p, segs, glob) <==> Covers(q, segs, glob)
  }

  predicate Usable(seg: Segment, valid: Segment -> bool) {
    seg != "" && var last := Spelled(seg)[|Spelled(seg)| - 1]; last == STARS || valid(last)
  }

  lemma StarsCollapseMeaning(a: seq<Segment>, b: seq<Segment>, glob: Glob)
    requires a != [] && a[|a| - 1] == STARS
    ensures SameMeaning(a + ([STARS] + b), a + b, glob)
  {
    forall segs ensures Covers(a + ([STARS] + b), segs, glob) <==> Covers(a + b, segs, glob) {
      StarsCollapse(a, b, segs, glob);
    }
  }

  /** One segment appended, dropping a `**` that would repeat the one before it. */
  function Appended(segs: seq<Segment>, seg: Segment): seq<Segment> {
    if HasStars(seg) && seg != STARS then
      segs + [STARS] + (if SingleStars(seg) == STARS then [] else [SingleStars(seg)])
    else if seg == STARS && segs != [] && segs[|segs| - 1] == STARS then segs
    else segs + [seg]
  }

  lemma AppendedMeans(segs: seq<Segment>, raw: seq<Segment>, n: nat, goal: seq<Segment>, glob: Glob)
    requires n < |raw| && SameMeaning(segs + SpelledAll(raw[n..]), goal, glob)
    ensures SameMeaning(Appended(segs, raw[n]) + SpelledAll(raw[n + 1..]), goal, glob)
  {
    var seg, rest := raw[n], SpelledAll(raw[n + 1..]);
    var todo, next := segs + SpelledAll(raw[n..]), Appended(segs, seg);
    assert raw[n..][1..] == raw[n + 1..];
    if HasStars(seg) && seg != STARS && SingleStars(seg) == STARS {
      assert todo == next + ([STARS] + rest);
      StarsCollapseMeaning(next, rest, glob);
    } else if seg == STARS && next == segs {
      assert todo == next + ([STARS] + rest);
      StarsCollapseMeaning(next, rest, glob);
    } else {
      assert todo == next + rest;
    }
  }

  method CompilePattern(anchored: bool, raw: seq<Segment>, valid: Segment -> bool, ghost glob: Glob)
      returns (r: Compiled)
    requires raw != []
    ensures r.Panics? <==> anchored && raw[0] == STARS
    ensures r.Bad? <==> !(anchored && raw[0] == STARS) && exists i :: 0 <= i < |raw| && !Usable(raw[i], valid)
    ensures r.Ok? ==> SameMeaning(r.segs, Written(anchored, raw), glob)
  {
    var segs: seq<Segment> := if anchored then [] else [STARS];
    assert raw[0..] == raw;
    for n := 0 to |raw|
      invariant n > 0 ==> segs != [] && !(anchored && raw[0] == STARS)
      invariant n == 0 ==> segs == if anchored then [] else [STARS]
      invariant forall i :: 0 <= i < n ==> Usable(raw[i], valid)
      invariant SameMeaning(segs + SpelledAll(raw[n..]), Written(anchored, raw), glob)
    {
      var seg := raw[n];
      AppendedMeans(segs, raw, n, Written(anchored, raw), glob);
      ghost var next := Appended(segs, seg);
      if seg == "" {
        return Bad;
      }
      if HasStars(seg) && seg != STARS {
        segs := segs + [STARS];
        seg := SingleStars(seg);
      }
      if seg == STARS {
        if segs == [] {
          return Panics;
        }
        if segs[|segs| - 1] != STARS {
          segs := segs + [seg];
        }
      } else {
        if !valid(seg) {
          return Bad;
        }
        segs := segs + [seg];
      }
      assert segs == next;
    }
    assert raw[|raw|..] == [] && segs + [] == segs;
    return Ok(segs);
  }

  // ----- the loop's position, and the work done to get there

  /** `a` times `b`, as a sum. */
  function Mul(a: nat, b: nat): nat {
    if a == 0 then 0 else b + Mul(a - 1, b)
  }

  lemma {:induction false} MulIsProduct(a: nat, b: nat)
    ensures Mul(a, b) == a * b
  {
    if a != 0 {
      MulIsProduct(a - 1, b);
    }
  }

  lemma {:induction false} MulAdds(a: nat, b: nat, c: nat)
    ensures Mul(a + b, c) == Mul(a, c) + Mul(b, c)
  {
    if a != 0 {
      MulAdds(a - 1, b, c);
    }
  }

  lemma MulGrows(a: nat, b: nat, c: nat)
    requires a <= b
    ensures Mul(a, c) <= Mul(b, c)
  {
    MulAdds(a, b - a, c);
  }

  lemma MulCommutes(a: nat, b: nat)
    ensures Mul(a, b) == Mul(b, a)
  {
    MulIsProduct(a, b);
    MulIsProduct(b, a);
  }

  /**
    The most comparisons made before the loop's position: every earlier pattern
    segment against every path segment; since the last `**`, a run as long as
    the pattern has been looked into for each move of it; and the current run.
  */
  function Most(cols: nat, pi: nat, starPi: int, starSi: nat, reach: nat): nat
    requires -1 <= starPi < pi <= reach
  {
    Mul(if starPi < 0 then 0 else starPi, cols) + Mul(starSi, reach - starPi - 1) + (pi - starPi - 1)
  }

  /** A whole block of the pattern against the whole path is the most there can be. */
  lemma MostIsTable(cols: nat, pi: nat, starPi: int, starSi: nat, reach: nat)
    requires -1 <= starPi < pi <= reach && starSi < cols
    ensures Most(cols, pi, starPi, starSi, reach) <= Mul(reach, cols)
  {
    var above, run := if starPi < 0 then 0 else starPi, reach - starPi - 1;
    MulGrows(starSi + 1, cols, run);
    MulCommutes(cols, run);
    MulAdds(above, run, cols);
    MulGrows(above + run, reach, cols);
  }

  lemma MostAtNewStar(cols: nat, pi: nat, si: nat, starPi: int, starSi: nat)
    requires -1 <= starPi < pi && starSi <= si < cols
    ensures Most(cols, pi, starPi, starSi, pi) <= Most(cols, pi + 1, pi, si, pi + 1)
  {
    MostIsTable(cols, pi, starPi, starSi, pi);
  }

  lemma MostAfterComparison(cols: nat, pi: nat, starPi: int, starSi: nat, reach: nat)
    requires -1 <= starPi < pi <= reach
    ensures var far := if pi < reach then reach else pi + 1;
            && Most(cols, pi, starPi, starSi, reach) + 1 <= Most(cols, pi + 1, starPi, starSi, far)
            && Most(cols, pi, starPi, starSi, reach) + 1 <= Most(cols, starPi + 1, starPi, starSi + 1, far)
  {
    var far := if pi < reach then reach else pi + 1;
    var run, longer := reach - starPi - 1, far - starPi - 1;
    MulCommutes(starSi, run);
    MulCommutes(starSi, longer);
    MulGrows(run, longer, starSi);
  }

  /** Where the loop stands, how far into the pattern it has been, and how many comparisons it took. */
  datatype Place = Place(pat: seq<Segment>, segs: seq<Segment>, pi: nat, si: nat, starPi: int, starSi: nat, reach: nat,
      count: nat)

  ghost predicate PlaceOk(c: Place) {
    && c.starSi <= c.si <= |c.segs| && -1 <= c.starPi < c.pi <= c.reach <= |c.pat|
    && c.si - c.starSi == c.pi - c.starPi - 1 && NoStars(c.pat, c.starPi + 1, c.reach)
    && c.count <= Most(|c.segs|, c.pi, c.starPi, c.starSi, c.reach) && c.count <= Mul(|c.pat|, |c.segs|)
  }

  type Cursor = c: Place | PlaceOk(c) witness Place([], [], 0, 0, -1, 0, 0, 0)

  ghost predicate OpenAt(c: Cursor, glob: Glob) {
    Open(c.pat, c.segs, c.pi, c.si, c.starPi, c.starSi, glob)
  }

  lemma AtStart(pat: seq<Segment>, segs: seq<Segment>, glob: Glob) returns (c: Cursor)
    ensures c == Place(pat, segs, 0, 0, -1, 0, 0, 0) && OpenAt(c, glob) == Covers(pat, segs, glob)
  {
    assert pat[0..] == pat && segs[0..] == segs;
    c := Place(pat, segs, 0, 0, -1, 0, 0, 0);
  }

  /** The loop takes a `**` as the one to come back to. */
  lemma AtStar(c: Cursor, glob: Glob) returns (next: Cursor)
    requires c.pi < |c.pat| && c.si < |c.segs| && c.pat[c.pi] == STARS
    ensures next == c.(pi := c.pi + 1, starPi := c.pi, starSi := c.si, reach := c.pi + 1)
            && OpenAt(next, glob) == OpenAt(c, glob)
  {
    NewStar(c.pat, c.segs, c.pi, c.si, c.starPi, c.starSi, glob);
    MostAtNewStar(|c.segs|, c.pi, c.si, c.starPi, c.starSi);
    next := c.(pi := c.pi + 1, starPi := c.pi, starSi := c.si, reach := c.pi + 1);
  }

  lemma CountAfterOne(c: Cursor, far: nat)
    requires c.pi < |c.pat| && c.si < |c.segs| && far == if c.pi < c.reach then c.reach else c.pi + 1
    ensures c.count + 1 <= Most(|c.segs|, c.pi + 1, c.starPi, c.starSi, far)
            && c.count + 1 <= Most(|c.segs|, c.starPi + 1, c.starPi, c.starSi + 1, far)
    ensures c.count + 1 <= Mul(|c.pat|, |c.segs|)
  {
    MostAfterComparison(|c.segs|, c.pi, c.starPi, c.starSi, c.reach);
    MostIsTable(|c.segs|, c.pi + 1, c.starPi, c.starSi, far);
    MulGrows(far, |c.pat|, |c.segs|);
  }

  /** A comparison made: the loop goes on if it matched, or back to the last `**` if there is one. */
  lemma AfterOne(c: Cursor) returns (on: Cursor, back: Cursor)
    requires c.pi < |c.pat| && c.si < |c.segs| && c.pat[c.pi] != STARS
    ensures var far := if c.pi < c.reach then c.reach else c.pi + 1;
            && on == c.(pi := c.pi + 1, si := c.si + 1, reach := far, count := c.count + 1)
            && back == c.(pi := c.starPi + 1, si := c.starSi + 1, starSi := c.starSi + 1, reach := far,
                  count := c.count + 1)
  {
    var far := if c.pi < c.reach then c.reach else c.pi + 1;
    CountAfterOne(c, far);
    on := c.(pi := c.pi + 1, si := c.si + 1, reach := far, count := c.count + 1);
    back := c.(pi := c.starPi + 1, si := c.starSi + 1, starSi := c.starSi + 1, reach := far, count := c.count + 1);
  }

  /** A match leaves as much open one cell on. */
  lemma OpenOn(c: Cursor, on: Cursor, glob: Glob)
    requires c.pi < |c.pat| && c.si < |c.segs| && c.pat[c.pi] != STARS && glob(c.pat[c.pi], c.segs[c.si])
    requires on.pat == c.pat && on.segs == c.segs && on.pi == c.pi + 1 && on.si == c.si + 1 && on.starPi == c.starPi
             && on.starSi == c.starSi
    ensures OpenAt(c, glob) == OpenAt(on, glob)
  {
    AfterComparison(c.pat, c.segs, c.pi, c.si, c.starPi, c.starSi, glob);
  }

  /** A mismatch leaves open what can still match after the last `**`. */
  lemma OpenBack(c: Cursor, back: Cursor, glob: Glob)
    requires c.pi < |c.pat| && c.si < |c.segs| && c.pat[c.pi] != STARS && !glob(c.pat[c.pi], c.segs[c.si])
             && c.starPi >= 0
    requires back.pat == c.pat && back.segs == c.segs && back.pi == c.starPi + 1
             && back.si == back.starSi == c.starSi + 1 && back.starPi == c.starPi
    ensures OpenAt(c, glob) == OpenAt(back, glob)
  {
    AfterComparison(c.pat, c.segs, c.pi, c.si, c.starPi, c.starSi, glob);
  }

  lemma NothingOpen(c: Cursor, glob: Glob)
    requires c.pi < |c.pat| && c.si < |c.segs| && c.pat[c.pi] != STARS && !glob(c.pat[c.pi], c.segs[c.si])
             && c.starPi < 0
    ensures !OpenAt(c, glob)
  {
    AfterComparison(c.pat, c.segs, c.pi, c.si, c.starPi, c.starSi, glob);
  }

  lemma AtEnd(c: Cursor, glob: Glob)
    ensures c.pi == |c.pat| ==> OpenAt(c, glob)
    ensures c.si == |c.segs| ==> (OpenAt(c, glob) <==> OnlyStars(c.pat[c.pi..]))
  {
    if c.pi == |c.pat| {
      CoversNothingLeft(c.segs[c.si..], glob);
      assert c.pat[c.pi..] == [];
    }
    if c.si == |c.segs| {
      PathUsedUp(c.pat, c.segs, c.pi, c.starPi, c.starSi, glob);
    }
  }

  /** How many `**` the pattern starts with. */
  function StarRun(pat: seq<Segment>): (n: nat)
    ensures n <= |pat| && (forall i :: 0 <= i < n ==> pat[i] == STARS) && (n < |pat| ==> pat[n] != STARS)
  {
    if pat == [] || pat[0] != STARS then 0
    else
      var n := StarRun(pat[1..]);
      assert forall i :: 0 < i <= n ==> pat[i] == pat[1..][i - 1];
      n + 1
  }

  // ----- the matcher and its budget

  predicate HasWildcard(pat: Segment) {
    exists i :: 0 <= i < |pat| && pat[i] in {'*', '?', '[', '\\'}
  }

  function Cost(pat: Segment, seg: Segment): nat {
    var cost := |seg| + 1;
    (if HasWildcard(pat) then cost * (|pat| + 1) else cost) + 8
  }

  /** A report path as segments, and what is left of it after the upload's prefix when it has that prefix. */
  datatype Path = Path(segs: seq<Segment>, rest: Option<seq<Segment>>)

  datatype Trimmed = TooCostly | AllIgnored | Kept(files: seq<Path>)

  ghost predicate AnyCovers(patterns: seq<seq<Segment>>, segs: seq<Segment>, glob: Glob) {
    exists i :: 0 <= i < |patterns| && Covers(patterns[i], segs, glob)
  }

  ghost predicate AnyOnlyStars(patterns: seq<seq<Segment>>) {
    exists i :: 0 <= i < |patterns| && OnlyStars(patterns[i])
  }

  ghost predicate Ignored(patterns: seq<seq<Segment>>, path: Path, glob: Glob) {
    AnyCovers(patterns, path.segs, glob) || (path.rest.Some? && AnyCovers(patterns, path.rest.value, glob))
  }

  ghost function Unignored(patterns: seq<seq<Segment>>, files: seq<Path>, glob: Glob): seq<Path> {
    if files == [] then []
    else
      var last := files[|files| - 1];
      Unignored(patterns, files[..|files| - 1], glob) + (if Ignored(patterns, last, glob) then [] else [last])
  }

  /** Whatever pattern is left can match nothing: only `**` can. */
  method RestIsStars(pat: seq<Segment>, from: nat) returns (r: bool)
    requires from <= |pat|
    ensures r == OnlyStars(pat[from..])
  {
    var pi := from;
    while pi < |pat| && pat[pi] == STARS
      invariant from <= pi <= |pat| && forall i :: from <= i < pi ==> pat[i] == STARS
    {
      pi := pi + 1;
    }
    assert pi < |pat| ==> pat[from..][pi - from] == pat[pi];
    return pi == |pat|;
  }

  class Rules {
    var patterns: seq<seq<Segment>>
    var limited: bool
    var budget: int

    constructor (patterns: seq<seq<Segment>>)
      ensures this.patterns == patterns && !limited
    {
      this.patterns := patterns;
      limited, budget := false, 0;
    }

    method Limit(units: int)
      modifies `limited, `budget
      ensures limited && budget == units
    {
      limited, budget := true, units;
    }

    /** True once the budget has run out. */
    predicate Spent()
      reads `limited, `budget
    {
      limited && budget < 0
    }

    method Charge(pat: Segment, seg: Segment) returns (ok: bool)
      modifies `budget
      ensures ok == !Spent()
      ensures budget == if limited then old(budget) - Cost(pat, seg) else old(budget)
    {
      if !limited {
        return true;
      }
      budget := budget - Cost(pat, seg);
      return budget >= 0;
    }

    /** One comparison: on to the next cell, back to the last `**`, or a stop. */
    method CompareAt(pat: seq<Segment>, segs: seq<Segment>, pi: nat, si: nat, starPi: int, starSi: nat, glob: Glob,
        ghost c: Cursor)
      returns (stop: bool, pi': nat, si': nat, starSi': nat, ghost next: Cursor)
      requires c.pat == pat && c.segs == segs && c.pi == pi && c.si == si && c.starPi == starPi && c.starSi == starSi
      requires pi < |pat| && si < |segs| && pat[pi] != STARS
      modifies `budget
      ensures budget <= old(budget) && (old(Spent()) ==> stop)
      ensures stop ==> Spent() || !OpenAt(c, glob)
      ensures !stop ==> !Spent() && OpenAt(next, glob) == OpenAt(c, glob)
      ensures next.pat == pat && next.segs == segs && next.starPi == starPi && next.count == c.count + 1
      ensures !stop ==> next.pi == pi' && next.si == si' && next.starSi == starSi'
      ensures !stop ==> (starSi' == starSi && pi' == pi + 1) || starSi' == starSi + 1
    {
      ghost var on, back := AfterOne(c);
      stop, pi', si', starSi', next := true, pi, si, starSi, on;
      var ok := Charge(pat[pi], segs[si]);
      if !ok {
        return;
      }
      if glob(pat[pi], segs[si]) {
        OpenOn(c, on, glob);
        stop, pi', si' := false, pi + 1, si + 1;
      } else if starPi >= 0 {
        OpenBack(c, back, glob);
        starSi' := starSi + 1;
        stop, pi', si', next := false, starPi + 1, starSi', back;
      } else {
        NothingOpen(c, glob);
      }
    }

    method MatchSegments(pat: seq<Segment>, segs: seq<Segment>, glob: Glob) returns (r: bool, ghost compared: nat)
      modifies `budget
      ensures r ==> Covers(pat, segs, glob)
      ensures !Spent() ==> r == Covers(pat, segs, glob)
      ensures old(Spent()) ==> r == OnlyStars(pat)
      ensures compared <= |pat| * |segs|
      ensures budget <= old(budget)
    {
      var pi, si := 0, 0;
      var starPi, starSi := -1, 0;
      ghost var covers := Covers(pat, segs, glob);
      ghost var c := AtStart(pat, segs, glob);
      MulIsProduct(|pat|, |segs|);
      while si < |segs|
        invariant c.pat == pat && c.segs == segs && c.pi == pi && c.si == si && c.starPi == starPi && c.starSi == starSi
        invariant OpenAt(c, glob) == covers
        invariant budget <= old(budget)
        invariant if old(Spent()) then pi <= StarRun(pat) else !Spent()
        decreases |pat| - starPi, |segs| - starSi, |pat| - pi
      {
        if pi == |pat| {
          AtEnd(c, glob);
          return true, c.count;
        } else if pat[pi] == STARS {
          c := AtStar(c, glob);
          starPi, starSi := pi, si;
          pi := pi + 1;
        } else {
          var stop;
          stop, pi, si, starSi, c := CompareAt(pat, segs, pi, si, starPi, starSi, glob, c);
          if stop {
            return false, c.count;
          }
        }
      }
      AtEnd(c, glob);
      r := RestIsStars(pat, pi);
      compared := c.count;
    }

    /** Matches the path against every pattern in turn. */
    method MatchPath(segs: seq<Segment>, glob: Glob) returns (r: bool)
      modifies `budget
      ensures r ==> AnyCovers(patterns, segs, glob)
      ensures !Spent() ==> r == AnyCovers(patterns, segs, glob)
      ensures old(Spent()) ==> r == AnyOnlyStars(patterns)
      ensures budget <= old(budget)
    {
      for i := 0 to |patterns|
        invariant budget <= old(budget)
        invariant !Spent() ==> !AnyCovers(patterns[..i], segs, glob)
        invariant old(Spent()) ==> !AnyOnlyStars(patterns[..i])
      {
        ghost var wasSpent := Spent();
        var hit, _ := MatchSegments(patterns[i], segs, glob);
        if hit {
          return true;
        }
        assert !Spent() ==> !wasSpent;
      }
      assert patterns[..|patterns|] == patterns;
      return false;
    }

    /** Tries the path, then the path without the upload's prefix when it has it. */
    method Match(path: Path, glob: Glob) returns (r: bool)
      modifies `budget
      ensures r ==> Ignored(patterns, path, glob)
      ensures !Spent() ==> r == Ignored(patterns, path, glob)
      ensures old(Spent()) ==> r == AnyOnlyStars(patterns)
      ensures budget <= old(budget)
    {
      if |patterns| == 0 {
        return false;
      }
      r := MatchPath(path.segs, glob);
      if !r && path.rest.Some? {
        r := MatchPath(path.rest.value, glob);
      }
    }

    /**
      Drops the ignored files from a report, giving up once the budget is spent.
      A result it does give is the one an unlimited matching gives.
    */
    method ApplyIgnore(files: seq<Path>, glob: Glob) returns (r: Trimmed)
      modifies `budget
      ensures r.TooCostly? ==> Spent()
      ensures r.Kept? ==> r.files == Unignored(patterns, files, glob) && (r.files == [] ==> files == [])
      ensures r.AllIgnored? ==> files != [] && Unignored(patterns, files, glob) == []
    {
      var kept := [];
      for i := 0 to |files|
        invariant kept == Unignored(patterns, files[..i], glob)
      {
        assert files[..i + 1][..i] == files[..i];
        var hit := Match(files[i], glob);
        if !hit {
          kept := kept + [files[i]];
        }
        if Spent() {
          return TooCostly;
        }
      }
      assert files[..|files|] == files;
      if |kept| < |files| && kept == [] {
        return AllIgnored;
      }
      return Kept(kept);
    }
  }
}
