/**
  Pairing the paths of a diff with the paths of a profile. The index answers
  what a scan of the files by the pairing rules would, and a file is reported
  as touched exactly when those rules could pair it with a path of the diff.
*/
module PathIndex {
  import opened Profile
  import opened Options
  import Sorting

  // ----- the rules

  /** `s` is what remains of `p` after one of its slashes. */
  predicate IsDirSuffix(s: string, p: string) {
    |s| < |p| && p[|p| - |s| - 1] == '/' && p[|p| - |s|..] == s
  }

  predicate HasSlash(s: string) {
    '/' in s
  }

  function TrimSlash(prefix: string): string {
    if prefix != "" && prefix[|prefix| - 1] == '/' then prefix[..|prefix| - 1] else prefix
  }

  /** The diff path under the prefix. */
  function Want(prefix: string, diff: string): string {
    TrimSlash(prefix) + "/" + diff
  }

  ghost predicate FirstOf(files: seq<File>, i: nat, accepts: string -> bool) {
    i < |files| && accepts(files[i].path) && forall j :: 0 <= j < i ==> !accepts(files[j].path)
  }

  ghost predicate NoneOf(files: seq<File>, accepts: string -> bool) {
    forall j :: 0 <= j < |files| ==> !accepts(files[j].path)
  }

  /** Ends with the diff path, which is no bare name. */
  function Forward(diff: string): string -> bool {
    (p: string) => HasSlash(diff) && IsDirSuffix(diff, p)
  }

  /** The diff path ends with it, and it is no bare name. */
  function Reverse(diff: string): string -> bool {
    (p: string) => HasSlash(p) && IsDirSuffix(p, diff)
  }

  function Exact(path: string): string -> bool {
    (p: string) => p == path
  }

  /** The path itself, with or without the prefix. */
  function Prefixed(prefix: string, diff: string): string -> bool {
    (p: string) => p == Want(prefix, diff) || p == diff
  }

  /** The first of the shortest accepted paths. */
  ghost predicate FirstShortest(files: seq<File>, i: nat, accepts: string -> bool) {
    && i < |files| && accepts(files[i].path)
    && forall j :: 0 <= j < |files| && accepts(files[j].path) ==>
        |files[i].path| < |files[j].path| || (|files[i].path| == |files[j].path| && i <= j)
  }

  ghost predicate FirstLongest(files: seq<File>, i: nat, accepts: string -> bool) {
    && i < |files| && accepts(files[i].path)
    && forall j :: 0 <= j < |files| && accepts(files[j].path) ==>
        |files[i].path| > |files[j].path| || (|files[i].path| == |files[j].path| && i <= j)
  }

  /** What a scan of the files picks for a path of the diff. */
  ghost predicate Picks(files: seq<File>, diff: string, prefix: string, r: Option<nat>) {
    if prefix != "" then
      (if r.Some? then FirstOf(files, r.value, Prefixed(prefix, diff)) else NoneOf(files, Prefixed(prefix, diff)))
    else if !NoneOf(files, Exact(diff)) then r.Some? && FirstOf(files, r.value, Exact(diff))
    else if !NoneOf(files, Forward(diff)) then r.Some? && FirstShortest(files, r.value, Forward(diff))
    else if !NoneOf(files, Reverse(diff)) then r.Some? && FirstLongest(files, r.value, Reverse(diff))
    else r.None?
  }

  /** The rules leave no choice. */
  lemma PicksIsUnique(files: seq<File>, diff: string, prefix: string, r: Option<nat>, s: Option<nat>)
    requires Picks(files, diff, prefix, r) && Picks(files, diff, prefix, s)
    ensures r == s
  {
  }

  // ----- suffixes

  function IndexByte(s: string, c: char): (i: int)
    ensures i == -1 ==> c !in s
    ensures i != -1 ==> 0 <= i < |s| && s[i] == c && c !in s[..i]
  {
    if s == "" then -1
    else if s[0] == c then 0
    else
      var i := IndexByte(s[1..], c);
      assert i != -1 ==> s[..i + 1] == [s[0]] + s[1..][..i];
      if i == -1 then -1 else i + 1
  }

  /** The directory-aligned proper suffixes of a path, longest first. */
  method DirSuffixes(path: string) returns (r: seq<string>)
    ensures forall s :: s in r <==> IsDirSuffix(s, path)
    ensures forall i, j :: 0 <= i < j < |r| ==> |r[j]| < |r[i]|
  {
    r := [];
    var p := path;
    var i := IndexByte(p, '/');
    while i >= 0
      invariant IsTail(p, path) && i == IndexByte(p, '/') && SuffixesFrom(r, path, p)
      decreases |p|
    {
      SuffixTaken(r, path, p, i);
      p := p[i + 1..];
      r := r + [p];
      i := IndexByte(p, '/');
    }
    NoMoreSuffixes(path, p);
  }

  predicate IsTail(p: string, path: string) {
    |p| <= |path| && p == path[|path| - |p|..]
  }

  /** The suffixes of the path no shorter than `p`, longest first. */
  ghost predicate SuffixesFrom(r: seq<string>, path: string, p: string) {
    && (forall s :: s in r <==> IsDirSuffix(s, path) && |p| <= |s|)
    && (forall k :: 0 <= k < |r| ==> |p| <= |r[k]|)
    && (forall j, k :: 0 <= j < k < |r| ==> |r[k]| < |r[j]|)
  }

  lemma SuffixTaken(r: seq<string>, path: string, p: string, i: nat)
    requires IsTail(p, path) && i < |p| && p[i] == '/' && '/' !in p[..i] && SuffixesFrom(r, path, p)
    ensures IsTail(p[i + 1..], path) && SuffixesFrom(r + [p[i + 1..]], path, p[i + 1..])
  {
    var q := p[i + 1..];
    NextSuffix(path, p, i);
    forall s ensures s in r + [q] <==> IsDirSuffix(s, path) && |q| <= |s| {
      assert s in r + [q] <==> s in r || s == q;
    }
  }

  lemma NoMoreSuffixes(path: string, p: string)
    requires IsTail(p, path) && '/' !in p
    ensures forall s :: IsDirSuffix(s, path) ==> |p| <= |s|
  {
  }

  /** Between one suffix and the next there is no other. */
  lemma NextSuffix(path: string, p: string, i: nat)
    requires IsTail(p, path) && i < |p| && p[i] == '/' && '/' !in p[..i]
    ensures IsTail(p[i + 1..], path) && IsDirSuffix(p[i + 1..], path)
    ensures forall s :: IsDirSuffix(s, path) && |p[i + 1..]| <= |s| < |p| ==> s == p[i + 1..]
  {
    var q := p[i + 1..];
    assert path[|path| - |q| - 1] == p[i];
    forall s | IsDirSuffix(s, path) && |q| <= |s| < |p| ensures s == q {
      var k := |p| - |s| - 1;
      assert path[|path| - |s| - 1] == p[k];
    }
  }

  /** A suffix shorter than one without a slash has none either. */
  lemma ShorterIsBare(s: string, t: string, p: string)
    requires IsDirSuffix(s, p) && IsDirSuffix(t, p) && |t| <= |s| && !HasSlash(s)
    ensures !HasSlash(t)
  {
    assert t == s[|s| - |t|..];
  }

  // ----- the index

  datatype Index = Index(files: seq<File>, byPath: map<string, nat>, suffixes: map<string, nat>)

  ghost predicate ByPathOk(byPath: map<string, nat>, files: seq<File>) {
    && (forall p :: p in byPath ==> FirstOf(files, byPath[p], Exact(p)))
    && (forall i :: 0 <= i < |files| ==> files[i].path in byPath)
  }

  ghost predicate SuffixesOk(suffixes: map<string, nat>, files: seq<File>) {
    && (forall s :: s in suffixes ==> HasSlash(s) && FirstShortest(files, suffixes[s], Forward(s)))
    && (forall s, i :: HasSlash(s) && 0 <= i < |files| && IsDirSuffix(s, files[i].path) ==> s in suffixes)
  }

  ghost predicate IndexOk(idx: Index, prefix: string) {
    ByPathOk(idx.byPath, idx.files) && (prefix == "" ==> SuffixesOk(idx.suffixes, idx.files))
  }

  /** The best file for a suffix once `f` follows `files`. */
  lemma ShortestOneMore(files: seq<File>, f: File, s: string, best: Option<nat>)
    requires HasSlash(s) && IsDirSuffix(s, f.path)
    requires best.Some? ==> FirstShortest(files, best.value, Forward(s))
    requires best.None? ==> NoneOf(files, Forward(s))
    ensures FirstShortest(files + [f],
                          if best.None? || |f.path| < |files[best.value].path| then |files| else best.value,
                          Forward(s))
  {
  }

  lemma ShortestStays(files: seq<File>, f: File, s: string, best: nat)
    requires FirstShortest(files, best, Forward(s)) && !IsDirSuffix(s, f.path)
    ensures FirstShortest(files + [f], best, Forward(s))
  {
  }

  ghost predicate BestSoFar(files: seq<File>, f: File, s: string, done: seq<string>, best: nat) {
    if s in done then FirstShortest(files + [f], best, Forward(s)) else FirstShortest(files, best, Forward(s))
  }

  /** Some of the suffixes of `f` are in, the others are not yet. */
  ghost predicate Adding(suffixes: map<string, nat>, start: map<string, nat>, files: seq<File>, f: File,
      done: seq<string>) {
    && (forall s :: s in suffixes ==> HasSlash(s) && BestSoFar(files, f, s, done, suffixes[s]))
    && (forall s :: s in suffixes <==> s in start || s in done)
  }

  lemma OtherSuffixStays(files: seq<File>, f: File, t: string, done: seq<string>, s: string, best: nat)
    requires BestSoFar(files, f, t, done, best) && t != s
    ensures BestSoFar(files, f, t, done + [s], best)
  {
  }

  lemma SuffixIsBest(files: seq<File>, f: File, s: string, done: seq<string>, best: Option<nat>)
    requires HasSlash(s) && IsDirSuffix(s, f.path)
    requires best.Some? ==> FirstShortest(files, best.value, Forward(s))
    requires best.None? ==> NoneOf(files, Forward(s))
    ensures best.Some? ==> best.value < |files|
    ensures BestSoFar(files, f, s, done + [s],
                      if best.None? || |f.path| < |files[best.value].path| then |files| else best.value)
  {
    ShortestOneMore(files, f, s, best);
  }

  lemma BestIsAdded(suffixes: map<string, nat>, more: map<string, nat>, start: map<string, nat>, files: seq<File>,
      f: File, done: seq<string>, s: string, best: nat)
    requires Adding(suffixes, start, files, f, done) && HasSlash(s)
    requires BestSoFar(files, f, s, done + [s], best) && more == suffixes[s := best]
    ensures Adding(more, start, files, f, done + [s])
  {
    forall t | t in more ensures HasSlash(t) && BestSoFar(files, f, t, done + [s], more[t]) {
      if t != s {
        OtherSuffixStays(files, f, t, done, s, suffixes[t]);
      }
    }
  }

  /** One more suffix of `f`: it is the best there when it is first or shorter. */
  lemma SuffixOneMore(suffixes: map<string, nat>, start: map<string, nat>, files: seq<File>, f: File, done: seq<string>,
      s: string)
    requires SuffixesOk(start, files) && Adding(suffixes, start, files, f, done)
    requires s !in done && HasSlash(s) && IsDirSuffix(s, f.path)
    ensures s in suffixes ==> suffixes[s] < |files|
    ensures Adding(if s !in suffixes || |f.path| < |files[suffixes[s]].path| then suffixes[s := |files|] else suffixes,
                   start, files, f, done + [s])
  {
    SuffixIsBest(files, f, s, done, if s in suffixes then Some(suffixes[s]) else None);
    if s !in suffixes || |f.path| < |files[suffixes[s]].path| {
      BestIsAdded(suffixes, suffixes[s := |files|], start, files, f, done, s, |files|);
    } else {
      BestIsAdded(suffixes, suffixes, start, files, f, done, s, suffixes[s]);
    }
  }

  method AddSuffixes(start: map<string, nat>, files: seq<File>, f: File) returns (suffixes: map<string, nat>)
    requires SuffixesOk(start, files)
    ensures SuffixesOk(suffixes, files + [f])
  {
    suffixes := start;
    var all := DirSuffixes(f.path);
    var k := 0;
    ghost var done: seq<string> := [];
    while k < |all| && HasSlash(all[k])
      invariant 0 <= k <= |all| && done == all[..k]
      invariant forall j :: 0 <= j < k ==> HasSlash(all[j])
      invariant Adding(suffixes, start, files, f, done)
      decreases |all| - k
    {
      var s := all[k];
      NotYetDone(all, k);
      assert s in all;
      suffixes := TakeSuffix(suffixes, files, f, s, start, done);
      k := k + 1;
      done := done + [s];
    }
    AllSuffixesAdded(suffixes, start, files, f, all, k);
  }

  method TakeSuffix(suffixes: map<string, nat>, files: seq<File>, f: File, s: string,
      ghost start: map<string, nat>, ghost done: seq<string>)
      returns (more: map<string, nat>)
    requires SuffixesOk(start, files) && Adding(suffixes, start, files, f, done)
    requires s !in done && HasSlash(s) && IsDirSuffix(s, f.path)
    ensures Adding(more, start, files, f, done + [s])
  {
    SuffixOneMore(suffixes, start, files, f, done, s);
    more := suffixes;
    if s !in suffixes || |f.path| < |files[suffixes[s]].path| {
      more := suffixes[s := |files|];
    }
  }

  lemma NotYetDone(all: seq<string>, k: nat)
    requires k < |all| && forall i, j :: 0 <= i < j < |all| ==> |all[j]| < |all[i]|
    ensures all[k] !in all[..k] && all[..k + 1] == all[..k] + [all[k]]
  {
  }

  lemma AllSuffixesAdded(suffixes: map<string, nat>, start: map<string, nat>, files: seq<File>, f: File,
      all: seq<string>, k: nat)
    requires SuffixesOk(start, files) && k <= |all|
    requires forall s :: s in all <==> IsDirSuffix(s, f.path)
    requires forall i, j :: 0 <= i < j < |all| ==> |all[j]| < |all[i]|
    requires k < |all| ==> !HasSlash(all[k])
    requires forall j :: 0 <= j < k ==> HasSlash(all[j])
    requires Adding(suffixes, start, files, f, all[..k])
    ensures SuffixesOk(suffixes, files + [f])
  {
    forall s | HasSlash(s) && IsDirSuffix(s, f.path) ensures s in all[..k] {
      var j :| 0 <= j < |all| && all[j] == s;
      if k <= j {
        ShorterIsBare(all[k], s, f.path);
      }
    }
    forall s | s in suffixes ensures FirstShortest(files + [f], suffixes[s], Forward(s)) {
      if s !in all[..k] {
        ShortestStays(files, f, s, suffixes[s]);
      }
    }
  }

  lemma ByPathOneMore(byPath: map<string, nat>, files: seq<File>, f: File)
    requires ByPathOk(byPath, files)
    ensures ByPathOk(if f.path in byPath then byPath else byPath[f.path := |files|], files + [f])
  {
  }

  method IndexPaths(files: seq<File>) returns (byPath: map<string, nat>)
    ensures ByPathOk(byPath, files)
  {
    byPath := map[];
    ghost var done: seq<File> := [];
    for i := 0 to |files|
      invariant done == files[..i]
      invariant ByPathOk(byPath, done)
    {
      Sorting.OneMore(files, i);
      ByPathOneMore(byPath, done, files[i]);
      if files[i].path !in byPath {
        byPath := byPath[files[i].path := i];
      }
      done := done + [files[i]];
    }
    assert files[..|files|] == files;
  }

  method IndexSuffixes(files: seq<File>) returns (suffixes: map<string, nat>)
    ensures SuffixesOk(suffixes, files)
  {
    suffixes := map[];
    var done: seq<File> := [];
    for i := 0 to |files|
      invariant done == files[..i]
      invariant SuffixesOk(suffixes, done)
    {
      Sorting.OneMore(files, i);
      suffixes := AddSuffixes(suffixes, done, files[i]);
      done := done + [files[i]];
    }
    assert files[..|files|] == files;
  }

  method NewProfileIndex(files: seq<File>, prefix: string) returns (idx: Index)
    ensures idx.files == files && IndexOk(idx, prefix)
  {
    var byPath := IndexPaths(files);
    if prefix != "" {
      return Index(files, byPath, map[]);
    }
    var suffixes := IndexSuffixes(files);
    return Index(files, byPath, suffixes);
  }

  // ----- a lookup is a scan

  method Match(idx: Index, diff: string, prefix: string) returns (r: Option<nat>)
    requires IndexOk(idx, prefix)
    ensures Picks(idx.files, diff, prefix, r)
  {
    if prefix != "" {
      var want := Want(prefix, diff);
      if want in idx.byPath && (diff !in idx.byPath || idx.byPath[want] < idx.byPath[diff]) {
        return Some(idx.byPath[want]);
      } else if diff in idx.byPath {
        return Some(idx.byPath[diff]);
      }
      return None;
    }
    if diff in idx.byPath {
      return Some(idx.byPath[diff]);
    }
    if HasSlash(diff) && diff in idx.suffixes {
      return Some(idx.suffixes[diff]);
    }
    assert NoneOf(idx.files, Forward(diff));
    r := MatchReverse(idx, diff);
  }

  method MatchReverse(idx: Index, diff: string) returns (r: Option<nat>)
    requires ByPathOk(idx.byPath, idx.files)
    ensures r.Some? ==> FirstLongest(idx.files, r.value, Reverse(diff))
    ensures r.None? ==> NoneOf(idx.files, Reverse(diff))
  {
    var all := DirSuffixes(diff);
    var k := 0;
    while k < |all| && HasSlash(all[k])
      invariant 0 <= k <= |all| && forall j :: 0 <= j < k ==> all[j] !in idx.byPath
    {
      if all[k] in idx.byPath {
        LongestFound(idx, diff, all, k);
        return Some(idx.byPath[all[k]]);
      }
      k := k + 1;
    }
    forall j | 0 <= j < |idx.files| ensures !Reverse(diff)(idx.files[j].path) {
      var p := idx.files[j].path;
      if HasSlash(p) && IsDirSuffix(p, diff) {
        var m :| 0 <= m < |all| && all[m] == p;
        ShorterIsBare(all[k], p, diff);
      }
    }
    return None;
  }

  lemma LongestFound(idx: Index, diff: string, all: seq<string>, k: nat)
    requires ByPathOk(idx.byPath, idx.files) && k < |all| && HasSlash(all[k]) && all[k] in idx.byPath
    requires forall s :: s in all <==> IsDirSuffix(s, diff)
    requires forall i, j :: 0 <= i < j < |all| ==> |all[j]| < |all[i]|
    requires forall j :: 0 <= j < k ==> all[j] !in idx.byPath
    ensures FirstLongest(idx.files, idx.byPath[all[k]], Reverse(diff))
  {
    assert all[k] in all;
    assert FirstOf(idx.files, idx.byPath[all[k]], Exact(all[k]));
    forall j | 0 <= j < |idx.files| && Reverse(diff)(idx.files[j].path)
      ensures |all[k]| > |idx.files[j].path| || (all[k] == idx.files[j].path && idx.byPath[all[k]] <= j)
    {
      var m :| 0 <= m < |all| && all[m] == idx.files[j].path;
    }
  }

  // ----- what a diff touches

  datatype DiffPaths = DiffPaths(paths: set<string>, suffixes: set<string>)

  ghost predicate DiffOk(d: DiffPaths) {
    forall s :: s in d.suffixes <==> exists p :: p in d.paths && IsDirSuffix(s, p)
  }

  method NewDiffPaths(paths: seq<string>) returns (d: DiffPaths)
    ensures DiffOk(d) && forall p :: p in d.paths <==> p in paths
  {
    var seen: set<string>, suffixes: set<string> := {}, {};
    for i := 0 to |paths|
      invariant forall p :: p in seen <==> p in paths[..i]
      invariant DiffOk(DiffPaths(seen, suffixes))
    {
      assert paths[..i + 1] == paths[..i] + [paths[i]];
      var all := DirSuffixes(paths[i]);
      suffixes := suffixes + (set s | s in all);
      seen := seen + {paths[i]};
    }
    assert paths[..|paths|] == paths;
    d := DiffPaths(seen, suffixes);
  }

  function CutPrefix(p: string, prefix: string): string {
    if prefix <= p then p[|prefix|..] else p
  }

  method Touches(d: DiffPaths, path: string, prefix: string) returns (r: bool)
    requires DiffOk(d)
    ensures r <==> exists diff :: diff in d.paths && Picks([File(path, [])], diff, prefix, Some(0))
  {
    if path in d.paths {
      PicksItself(path, prefix);
      return true;
    }
    if prefix != "" {
      var repoPath := CutPrefix(path, TrimSlash(prefix) + "/");
      CutIsPicked(d, path, prefix);
      return repoPath in d.paths;
    }
    var all := DirSuffixes(path);
    var k := 0;
    while k < |all| && HasSlash(all[k])
      invariant 0 <= k <= |all| && forall j :: 0 <= j < k ==> all[j] !in d.paths
    {
      if all[k] in d.paths {
        PicksAlone(path, all[k]);
        return true;
      }
      k := k + 1;
    }
    forall diff | diff in d.paths ensures !(HasSlash(diff) && IsDirSuffix(diff, path)) {
      if HasSlash(diff) && IsDirSuffix(diff, path) {
        var m :| 0 <= m < |all| && all[m] == diff;
        ShorterIsBare(all[k], diff, path);
      }
    }
    forall diff ensures Picks([File(path, [])], diff, "", Some(0)) <==> PairsWith(path, diff) {
      PicksAlone(path, diff);
    }
    return HasSlash(path) && path in d.suffixes;
  }

  /** The rules pair the two paths when nothing else is there to pair. */
  predicate PairsWith(path: string, diff: string) {
    path == diff || (HasSlash(diff) && IsDirSuffix(diff, path)) || (HasSlash(path) && IsDirSuffix(path, diff))
  }

  lemma PicksAlone(path: string, diff: string)
    ensures Picks([File(path, [])], diff, "", Some(0)) <==> PairsWith(path, diff)
  {
    var files := [File(path, [])];
    assert NoneOf(files, Exact(diff)) <==> files[0].path != diff;
    assert NoneOf(files, Forward(diff)) <==> !Forward(diff)(files[0].path);
    assert NoneOf(files, Reverse(diff)) <==> !Reverse(diff)(files[0].path);
  }

  lemma PicksItself(path: string, prefix: string)
    ensures Picks([File(path, [])], path, prefix, Some(0))
  {
    if prefix == "" {
      PicksAlone(path, path);
    }
  }

  lemma CutIsPicked(d: DiffPaths, path: string, prefix: string)
    requires prefix != "" && path !in d.paths
    ensures CutPrefix(path, TrimSlash(prefix) + "/") in d.paths <==>
            exists diff :: diff in d.paths && Picks([File(path, [])], diff, prefix, Some(0))
  {
    var under := TrimSlash(prefix) + "/";
    var cut := CutPrefix(path, under);
    if cut in d.paths {
      assert path == under + cut;
      assert Picks([File(path, [])], cut, prefix, Some(0));
    }
    if diff :| diff in d.paths && Picks([File(path, [])], diff, prefix, Some(0)) {
      assert path == under + diff;
      assert cut == diff;
    }
  }

  /**
    A file the index pairs with a path of the diff is one that path alone could be paired with, so one the diff touches.
  */
  lemma PickedIsTouched(files: seq<File>, diff: string, prefix: string, i: nat)
    requires Picks(files, diff, prefix, Some(i))
    ensures i < |files| && Picks([File(files[i].path, [])], diff, prefix, Some(0))
  {
    if prefix == "" {
      assert PairsWith(files[i].path, diff) by {
        if !NoneOf(files, Exact(diff)) {
          assert FirstOf(files, i, Exact(diff));
        } else if !NoneOf(files, Forward(diff)) {
          assert FirstShortest(files, i, Forward(diff));
        }
      }
      PicksAlone(files[i].path, diff);
    }
  }
}
