/**
  Parsing a unified diff for the lines it adds, and rendering one: the parser
  gives back exactly the new-file positions of the rendered additions, whatever
  the content lines look like.
*/
module DiffParser {
  import opened Numerals
  import opened Options
  import Sorting

  /** What a path that starts with a quote stands for: git's C-style quoting undone. */
  type Unquote = string -> string

  const MAX_INT: nat := 0x7FFF_FFFF_FFFF_FFFF

  // ----- numbers

  /** The digits spell the number. */
  predicate Numeral(s: string, n: nat) {
    s != "" && AllDigits(s) && Value(s) == n
  }

  lemma DecimalIsNumeral(n: nat)
    ensures Numeral(Decimal(n), n)
  {
    DecimalValue(n);
  }

  /** `strconv.Atoi` of a run of digits. */
  function Atoi(s: string): Option<nat>
    requires AllDigits(s)
  {
    if Value(s) <= MAX_INT then Some(Value(s)) else None
  }

  // ----- hunk headers: @@ -old[,count] +start[,count] @@

  function Cut(s: string, prefix: string): Option<string> {
    if prefix <= s then Some(s[|prefix|..]) else None
  }

  function TakeDigits(s: string): (r: (string, string))
    ensures AllDigits(r.0) && s == r.0 + r.1
  {
    if s != [] && IsDigit(s[0]) then var (d, rest) := TakeDigits(s[1..]); ([s[0]] + d, rest) else ([], s)
  }

  function TakeCount(s: string): (r: (string, string))
    ensures AllDigits(r.0)
  {
    if s != [] && s[0] == ',' && TakeDigits(s[1..]).0 != [] then TakeDigits(s[1..]) else ([], s)
  }

  datatype HunkHeader = HunkHeader(oldCount: string, start: string, newCount: string)

  function MatchHunk(l: string): (h: Option<HunkHeader>)
    ensures h.Some? ==> AllDigits(h.value.oldCount) && AllDigits(h.value.start) && AllDigits(h.value.newCount)
  {
    var s :- Cut(l, "@@ -");
    var (oldStart, s) := TakeDigits(s);
    if oldStart == [] then None else
    var (oldCount, s) := TakeCount(s);
    var s :- Cut(s, " +");
    var (start, s) := TakeDigits(s);
    if start == [] then None else
    var (newCount, s) := TakeCount(s);
    var _ :- Cut(s, " @@");
    Some(HunkHeader(oldCount, start, newCount))
  }

  /** An absent count means 1, and so does one too long for an int. */
  function HunkCount(s: string): nat
    requires AllDigits(s)
  {
    if s == "" then 1 else match Atoi(s) case Some(n) => n case None => 1
  }

  // ----- the target path of a "+++ " line

  predicate IsSpace(c: char) {
    c in {' ', '\t', '\n', '\r', '\U{b}', '\U{c}', '\U{85}', '\U{a0}'}
  }

  function TrimLeft(s: string): string {
    if s != [] && IsSpace(s[0]) then TrimLeft(s[1..]) else s
  }

  function TrimRight(s: string): string {
    if s != [] && IsSpace(s[|s| - 1]) then TrimRight(s[..|s| - 1]) else s
  }

  function UpToTab(s: string): string {
    if s == [] || s[0] == '\t' then [] else [s[0]] + UpToTab(s[1..])
  }

  function TargetPath(l: string, unquote: Unquote): string
    requires "+++ " <= l
  {
    NamedBy(TrimRight(TrimLeft(UpToTab(l[4..]))), unquote)
  }

  function NamedBy(p: string, unquote: Unquote): string {
    var p := if "\"" <= p then unquote(p) else p;
    if p == "/dev/null" then "" else if "b/" <= p then p[2..] else p
  }

  // ----- the parser

  /** The added line numbers found so far, by file. */
  type Added = map<string, seq<int>>

  datatype State = State(file: string, line: int, oldRem: int, newRem: int, added: Added)

  const START := State("", 0, 0, 0, map[])

  function Append(added: Added, file: string, line: int): Added {
    if file == "" then added else added[file := (if file in added then added[file] else []) + [line]]
  }

  /** One line read inside a hunk: always content, never a header. */
  function ReadContent(s: State, l: string): State {
    if "+" <= l then s.(added := Append(s.added, s.file, s.line), line := s.line + 1, newRem := s.newRem - 1)
    else if "-" <= l then s.(oldRem := s.oldRem - 1)
    else if "\\" <= l then s
    else s.(line := s.line + 1, oldRem := s.oldRem - 1, newRem := s.newRem - 1)
  }

  /** One line read between hunks; none for a malformed hunk header. */
  function ReadHeader(s: State, l: string, unquote: Unquote): Option<State> {
    if "diff " <= l then Some(s.(file := ""))
    else if "+++ " <= l then Some(s.(file := TargetPath(l, unquote)))
    else if "@@" <= l then
      var h :- MatchHunk(l);
      var start :- Atoi(h.start);
      Some(s.(line := start, oldRem := HunkCount(h.oldCount), newRem := HunkCount(h.newCount)))
    else Some(s)
  }

  predicate InHunk(s: State) {
    s.oldRem > 0 || s.newRem > 0
  }

  function Read(s: State, l: string, unquote: Unquote): Option<State> {
    if InHunk(s) then Some(ReadContent(s, l)) else ReadHeader(s, l, unquote)
  }

  function ReadAll(s: State, lines: seq<string>, unquote: Unquote): Option<State>
    decreases |lines|
  {
    if lines == [] then Some(s) else
      var s' :- Read(s, lines[0], unquote);
      ReadAll(s', lines[1..], unquote)
  }

  ghost function Sorted(added: Added): Added {
    map f | f in added :: Sorting.Sort(added[f], Sorting.IntLe)
  }

  /** What the parser makes of a diff's lines; none when a hunk header is malformed. */
  ghost function Parsed(lines: seq<string>, unquote: Unquote): Option<Added> {
    var s :- ReadAll(START, lines, unquote);
    Some(Sorted(s.added))
  }

  /** A hunk header's line that does not spell one, or whose start no int holds. */
  predicate MalformedHeader(l: string) {
    "@@" <= l && match MatchHunk(l) case None => true case Some(h) => Atoi(h.start).None?
  }

  /** The line is read between hunks, and is a malformed hunk header. */
  ghost predicate FailsAt(lines: seq<string>, i: nat, s: State, unquote: Unquote)
    requires i < |lines|
  {
    ReadAll(s, lines[..i], unquote).Some? && !InHunk(ReadAll(s, lines[..i], unquote).value) && MalformedHeader(lines[i])
  }

  lemma FailsOnHeader(s: State, l: string, unquote: Unquote)
    ensures Read(s, l, unquote).None? <==> !InHunk(s) && MalformedHeader(l)
  {
    HeadersDiffer(l);
  }

  /** What one kind of line starts with, another does not. */
  lemma HeadersDiffer(l: string)
    ensures "@@" <= l ==> !("diff " <= l) && !("+++ " <= l)
  {
    if "@@" <= l {
      assert l[0] == '@';
    }
  }

  lemma {:induction false} ReadingFails(lines: seq<string>, s: State, unquote: Unquote)
    ensures ReadAll(s, lines, unquote).None? <==> exists i :: 0 <= i < |lines| && FailsAt(lines, i, s, unquote)
    decreases |lines|
  {
    if lines != [] {
      FailsOnHeader(s, lines[0], unquote);
      assert lines[..0] == [];
      assert FailsAt(lines, 0, s, unquote) <==> Read(s, lines[0], unquote).None?;
      var next := Read(s, lines[0], unquote);
      if next.Some? {
        ReadingFails(lines[1..], next.value, unquote);
        forall i | 0 < i < |lines|
          ensures FailsAt(lines, i, s, unquote) <==> FailsAt(lines[1..], i - 1, next.value, unquote)
        {
          assert lines[..i][0] == lines[0] && lines[..i][1..] == lines[1..][..i - 1];
        }
        if i :| 0 <= i < |lines[1..]| && FailsAt(lines[1..], i, next.value, unquote) {
          assert FailsAt(lines, i + 1, s, unquote);
        }
      }
    }
  }

  /** Parsing fails exactly when some line read between hunks is a malformed hunk header. */
  lemma FailsExactlyOnMalformedHeaders(lines: seq<string>, unquote: Unquote)
    ensures Parsed(lines, unquote).None? <==> exists i :: 0 <= i < |lines| && FailsAt(lines, i, START, unquote)
  {
    ReadingFails(lines, START, unquote);
  }

  method ParseUnifiedDiff(lines: seq<string>, unquote: Unquote) returns (r: Option<Added>)
    ensures r == Parsed(lines, unquote)
  {
    var added: Added := map[];
    var file := "";
    var line: int, oldRem: int, newRem: int := 0, 0, 0;
    for i := 0 to |lines|
      invariant ReadAll(START, lines, unquote) == ReadAll(State(file, line, oldRem, newRem, added), lines[i..], unquote)
    {
      var l := lines[i];
      assert lines[i..][0] == l && lines[i..][1..] == lines[i + 1..];
      if oldRem > 0 || newRem > 0 {
        if "+" <= l {
          if file != "" {
            added := added[file := (if file in added then added[file] else []) + [line]];
          }
          line := line + 1;
          newRem := newRem - 1;
        } else if "-" <= l {
          oldRem := oldRem - 1;
        } else if "\\" <= l {
        } else {
          line := line + 1;
          oldRem := oldRem - 1;
          newRem := newRem - 1;
        }
        continue;
      }
      if "diff " <= l {
        file := "";
      } else if "+++ " <= l {
        file := TargetPath(l, unquote);
      } else if "@@" <= l {
        var m := MatchHunk(l);
        if m.None? {
          return None;
        }
        var start := Atoi(m.value.start);
        if start.None? {
          return None;
        }
        line := start.value;
        oldRem := HunkCount(m.value.oldCount);
        newRem := HunkCount(m.value.newCount);
      }
    }
    assert lines[|lines|..] == [];
    added := SortEach(added);
    return Some(added);
  }

  /** Sorted so far: the files in `done`. */
  ghost predicate SortedSome(added: Added, unsorted: Added, done: seq<string>) {
    && added.Keys == unsorted.Keys
    && forall f :: f in unsorted ==>
        added[f] == if f in done then Sorting.Sort(unsorted[f], Sorting.IntLe) else unsorted[f]
  }

  lemma SortOneMore(added: Added, unsorted: Added, done: seq<string>, f: string)
    requires SortedSome(added, unsorted, done) && f in unsorted && f !in done
    ensures SortedSome(added[f := Sorting.Sort(added[f], Sorting.IntLe)], unsorted, done + [f])
  {
  }

  /** Sorts every file's lines, ranging over the map. */
  method SortEach(unsorted: Added) returns (added: Added)
    ensures added == Sorted(unsorted)
  {
    added := unsorted;
    var files := Sorting.Keys(added);
    ghost var done: seq<string> := [];
    for i := 0 to |files|
      invariant done == files[..i]
      invariant SortedSome(added, unsorted, done)
    {
      Sorting.NextIsNew(files, i);
      SortOneMore(added, unsorted, done, files[i]);
      added := added[files[i] := Sorting.Sort(added[files[i]], Sorting.IntLe)];
      done := done + [files[i]];
    }
    assert files[..|files|] == files;
    AllSorted(added, unsorted, files);
  }

  lemma AllSorted(added: Added, unsorted: Added, done: seq<string>)
    requires SortedSome(added, unsorted, done) && forall f :: f in unsorted ==> f in done
    ensures added == Sorted(unsorted)
  {
  }

  // ----- rendering a diff

  /** One line of an edit script; `open` when the file ends in it without a newline. */
  datatype Edit =
    | Keep(text: string, open: bool)
    | Del(text: string, open: bool)
    | Add(text: string, open: bool)

  /**
    A hunk: the unchanged lines left out before it, the edits it shows, the old
    and new lines before those, and its header's numbers as spelled there.
  */
  datatype Hunk = Hunk(skipped: seq<string>, edits: seq<Edit>, oldAt: nat, newAt: nat,
                       oldStart: string, oldCount: string, newStart: string, newCount: string, section: string)

  /**
    A range of so many lines after `before` others: its start, or the line before it when it is empty; a count of 1 may
    be left out.
  */
  predicate SpellsRange(start: string, countText: string, before: nat, count: nat) {
    && Numeral(start, if count == 0 then before else before + 1)
    && (Numeral(countText, count) || (countText == "" && count == 1))
  }

  /** The hunk's header says where it stands in the two files. */
  predicate Spelled(h: Hunk) {
    && SpellsRange(h.oldStart, h.oldCount, h.oldAt, OldCount(h.edits))
    && SpellsRange(h.newStart, h.newCount, h.newAt, NewCount(h.edits))
  }

  predicate FitsInt(h: Hunk) {
    h.oldAt + OldCount(h.edits) <= MAX_INT && h.newAt + NewCount(h.edits) <= MAX_INT
  }

  /**
    A file's diff: the lines before its "+++ " line, that line's target and the path it names, its hunks and the
    unchanged rest.
  */
  datatype FileDiff = FileDiff(prelude: seq<string>, target: string, path: string, hunks: seq<Hunk>, rest: seq<string>)

  /** The whole edit script, unchanged lines included. */
  function Script(hunks: seq<Hunk>, rest: seq<string>): seq<Edit> {
    if hunks == [] then Kept(rest) else Kept(hunks[0].skipped) + (hunks[0].edits + Script(hunks[1..], rest))
  }

  function Kept(texts: seq<string>): seq<Edit> {
    if texts == [] then [] else [Keep(texts[0], false)] + Kept(texts[1..])
  }

  /** Lines of the old file, and of the new one, that a script accounts for. */
  function OldCount(edits: seq<Edit>): nat {
    if edits == [] then 0 else (if edits[0].Add? then 0 else 1) + OldCount(edits[1..])
  }

  function NewCount(edits: seq<Edit>): nat {
    if edits == [] then 0 else (if edits[0].Del? then 0 else 1) + NewCount(edits[1..])
  }

  function NewFile(edits: seq<Edit>): seq<string> {
    if edits == [] then [] else (if edits[0].Del? then [] else [edits[0].text]) + NewFile(edits[1..])
  }

  /** The new-file positions of the script's added lines, the first line being `next`. */
  function Additions(edits: seq<Edit>, next: int): seq<int> {
    if edits == [] then []
    else match edits[0]
      case Keep(_, _) => Additions(edits[1..], next + 1)
      case Del(_, _) => Additions(edits[1..], next)
      case Add(_, _) => [next] + Additions(edits[1..], next + 1)
  }

  const NO_NEWLINE: string := "\\ No newline at end of file"

  function EditLine(e: Edit): string {
    (match e case Keep(_, _) => " " case Del(_, _) => "-" case Add(_, _) => "+") + e.text
  }

  function RenderEdit(e: Edit): seq<string> {
    [EditLine(e)] + if e.open then [NO_NEWLINE] else []
  }

  function RenderEdits(edits: seq<Edit>): seq<string> {
    if edits == [] then [] else RenderEdit(edits[0]) + RenderEdits(edits[1..])
  }

  function RenderCount(count: string): string {
    if count == "" then "" else "," + count
  }

  function RenderHeader(h: Hunk): string {
    "@@ -" + (h.oldStart + RenderCount(h.oldCount)
          + (" +" + (h.newStart + RenderCount(h.newCount) + (" @@" + h.section))))
  }

  function RenderHunk(h: Hunk): seq<string> {
    [RenderHeader(h)] + RenderEdits(h.edits)
  }

  function AsLines(): Hunk -> seq<string> {
    (h: Hunk) => RenderHunk(h)
  }

  function RenderHunks(hunks: seq<Hunk>): seq<string> {
    Sorting.Join(hunks, AsLines())
  }

  /** The hunks stand one after another in the two files. */
  predicate WellPlaced(hunks: seq<Hunk>, oldBefore: nat, newBefore: nat) {
    hunks == [] ||
    (var h := hunks[0];
     && h.oldAt == oldBefore + |h.skipped| && h.newAt == newBefore + |h.skipped|
     && WellPlaced(hunks[1..], h.oldAt + OldCount(h.edits), h.newAt + NewCount(h.edits)))
  }

  function RenderFile(f: FileDiff): seq<string> {
    f.prelude + ["+++ " + f.target] + RenderHunks(f.hunks)
  }

  function Render(files: seq<FileDiff>): seq<string> {
    if files == [] then [] else RenderFile(files[0]) + Render(files[1..])
  }

  // ----- parsing gives back what was rendered

  lemma {:induction false} ReadAllSplit(s: State, a: seq<string>, b: seq<string>, unquote: Unquote)
    ensures ReadAll(s, a + b, unquote) ==
            match ReadAll(s, a, unquote) case None => None case Some(s') => ReadAll(s', b, unquote)
    decreases |a|
  {
    if a == [] {
      assert a + b == b;
    } else {
      assert (a + b)[0] == a[0] && (a + b)[1..] == a[1..] + b;
      var next := Read(s, a[0], unquote);
      if next.Some? {
        ReadAllSplit(next.value, a[1..], b, unquote);
      }
    }
  }

  lemma {:induction false} TakesDigits(d: string, rest: string)
    requires AllDigits(d) && (rest == [] || !IsDigit(rest[0]))
    ensures TakeDigits(d + rest) == (d, rest)
  {
    if d == [] {
      assert d + rest == rest;
    } else {
      assert (d + rest)[0] == d[0] && (d + rest)[1..] == d[1..] + rest;
      TakesDigits(d[1..], rest);
      assert [d[0]] + d[1..] == d;
    }
  }

  lemma TakesCountText(count: string, rest: string)
    requires AllDigits(count) && rest != [] && !IsDigit(rest[0]) && rest[0] != ','
    ensures TakeCount(RenderCount(count) + rest) == (count, rest)
  {
    if count == "" {
      assert RenderCount(count) + rest == rest;
    } else {
      assert (RenderCount(count) + rest)[1..] == count + rest;
      TakesDigits(count, rest);
    }
  }

  lemma TakesRange(start: string, count: string, rest: string)
    requires start != "" && AllDigits(start) && AllDigits(count) && rest != [] && !IsDigit(rest[0]) && rest[0] != ','
    ensures TakeDigits(start + RenderCount(count) + rest) == (start, RenderCount(count) + rest)
    ensures TakeCount(RenderCount(count) + rest) == (count, rest)
  {
    assert start + RenderCount(count) + rest == start + (RenderCount(count) + rest);
    TakesDigits(start, RenderCount(count) + rest);
    TakesCountText(count, rest);
  }

  lemma CutPrefix(prefix: string, rest: string)
    ensures Cut(prefix + rest, prefix) == Some(rest)
  {
    assert (prefix + rest)[|prefix|..] == rest;
  }

  lemma MatchesHeader(h: Hunk)
    requires h.oldStart != "" && AllDigits(h.oldStart) && AllDigits(h.oldCount)
    requires h.newStart != "" && AllDigits(h.newStart) && AllDigits(h.newCount)
    ensures MatchHunk(RenderHeader(h)) == Some(HunkHeader(h.oldCount, h.newStart, h.newCount))
  {
    var s3 := " @@" + h.section;
    var s2 := " +" + (h.newStart + RenderCount(h.newCount) + s3);
    CutPrefix("@@ -", h.oldStart + RenderCount(h.oldCount) + s2);
    assert s2[0] == ' ' && s3[0] == ' ';
    TakesRange(h.oldStart, h.oldCount, s2);
    CutPrefix(" +", h.newStart + RenderCount(h.newCount) + s3);
    TakesRange(h.newStart, h.newCount, s3);
    CutPrefix(" @@", h.section);
  }

  /** `added` with more lines of the file. */
  function AppendAll(added: Added, file: string, lines: seq<int>): Added
    decreases |lines|
  {
    if lines == [] then added else AppendAll(Append(added, file, lines[0]), file, lines[1..])
  }

  lemma {:induction false} AppendAllSplit(added: Added, file: string, a: seq<int>, b: seq<int>)
    ensures AppendAll(added, file, a + b) == AppendAll(AppendAll(added, file, a), file, b)
    decreases |a|
  {
    if a == [] {
      assert a + b == b;
    } else {
      assert (a + b)[0] == a[0] && (a + b)[1..] == a[1..] + b;
      AppendAllSplit(Append(added, file, a[0]), file, a[1..], b);
    }
  }

  lemma ReadsOneLine(s: State, l: string, unquote: Unquote)
    ensures ReadAll(s, [l], unquote) == Read(s, l, unquote)
  {
    assert [l][1..] == [];
  }

  /** A second line that changes nothing. */
  lemma ReadsTwoLines(s: State, l: string, m: string, unquote: Unquote)
    requires Read(s, l, unquote).Some? && Read(Read(s, l, unquote).value, m, unquote) == Read(s, l, unquote)
    ensures ReadAll(s, [l, m], unquote) == Read(s, l, unquote)
  {
    assert [l, m][1..] == [m];
    ReadsOneLine(Read(s, l, unquote).value, m, unquote);
  }

  lemma NoNewlineIsSkipped(s: State, unquote: Unquote)
    ensures Read(s, NO_NEWLINE, unquote) == Some(s)
  {
    assert NO_NEWLINE[0] == '\\';
  }

  lemma ReadsText(s: State, e: Edit)
    ensures ReadContent(s, EditLine(e)) ==
            match e
            case Keep(_, _) => s.(line := s.line + 1, oldRem := s.oldRem - 1, newRem := s.newRem - 1)
            case Del(_, _) => s.(oldRem := s.oldRem - 1)
            case Add(_, _) => s.(added := Append(s.added, s.file, s.line), line := s.line + 1, newRem := s.newRem - 1)
  {
    assert EditLine(e)[0] == match e case Keep(_, _) => ' ' case Del(_, _) => '-' case Add(_, _) => '+';
  }

  /** One rendered edit, its "\ No newline" line included, wherever in the hunk it stands. */
  lemma ReadsEdit(s: State, e: Edit, unquote: Unquote)
    requires InHunk(s)
    ensures ReadAll(s, RenderEdit(e), unquote) == Some(ReadContent(s, EditLine(e)))
  {
    var l := EditLine(e);
    if e.open {
      NoNewlineIsSkipped(ReadContent(s, l), unquote);
      ReadsTwoLines(s, l, NO_NEWLINE, unquote);
      assert RenderEdit(e) == [l, NO_NEWLINE];
    } else {
      ReadsOneLine(s, l, unquote);
      assert RenderEdit(e) == [l];
    }
  }

  lemma {:induction false} ReadsEdits(s: State, edits: seq<Edit>, unquote: Unquote)
    requires s.oldRem == OldCount(edits) && s.newRem == NewCount(edits)
    ensures ReadAll(s, RenderEdits(edits), unquote) ==
            Some(s.(line := s.line + NewCount(edits), oldRem := 0, newRem := 0,
                    added := AppendAll(s.added, s.file, Additions(edits, s.line))))
    decreases |edits|
  {
    if edits != [] {
      ReadsEdit(s, edits[0], unquote);
      ReadsText(s, edits[0]);
      var next := ReadAll(s, RenderEdit(edits[0]), unquote).value;
      ReadAllSplit(s, RenderEdit(edits[0]), RenderEdits(edits[1..]), unquote);
      ReadsEdits(next, edits[1..], unquote);
      if edits[0].Add? {
        var more := Additions(edits[1..], s.line + 1);
        assert Additions(edits, s.line)[1..] == more;
      }
    }
  }

  lemma {:induction false} AdditionsSplit(a: seq<Edit>, b: seq<Edit>, next: int)
    ensures Additions(a + b, next) == Additions(a, next) + Additions(b, next + NewCount(a))
    decreases |a|
  {
    if a == [] {
      assert a + b == b;
    } else {
      assert (a + b)[0] == a[0] && (a + b)[1..] == a[1..] + b;
      var after := if a[0].Del? then next else next + 1;
      AdditionsSplit(a[1..], b, after);
      Sorting.Regroup(if a[0].Add? then [next] else [], Additions(a[1..], after), Additions(b, next + NewCount(a)));
    }
  }

  lemma {:induction false} CountSplit(a: seq<Edit>, b: seq<Edit>)
    ensures NewCount(a + b) == NewCount(a) + NewCount(b) && OldCount(a + b) == OldCount(a) + OldCount(b)
    decreases |a|
  {
    if a == [] {
      assert a + b == b;
    } else {
      assert (a + b)[0] == a[0] && (a + b)[1..] == a[1..] + b;
      CountSplit(a[1..], b);
    }
  }

  lemma {:induction false} KeptAddsNothing(texts: seq<string>, next: int)
    ensures Additions(Kept(texts), next) == [] && NewCount(Kept(texts)) == OldCount(Kept(texts)) == |texts|
    decreases |texts|
  {
    if texts != [] {
      KeptAddsNothing(texts[1..], next + 1);
    }
  }

  lemma ReadsHunkHeader(s: State, h: Hunk, unquote: Unquote)
    requires !InHunk(s) && Spelled(h) && FitsInt(h)
    ensures var n := NewCount(h.edits);
            Read(s, RenderHeader(h), unquote) ==
            Some(s.(line := if n == 0 then h.newAt else h.newAt + 1, oldRem := OldCount(h.edits), newRem := n))
  {
    SpelledCount(h.oldStart, h.oldCount, h.oldAt, OldCount(h.edits));
    SpelledCount(h.newStart, h.newCount, h.newAt, NewCount(h.edits));
    MatchesHeader(h);
    var n := NewCount(h.edits);
    HeaderIsRead(s, RenderHeader(h), HunkHeader(h.oldCount, h.newStart, h.newCount),
                 if n == 0 then h.newAt else h.newAt + 1, OldCount(h.edits), n, unquote);
  }

  /** The state after a hunk's lines. */
  lemma ReadsHunk(s: State, h: Hunk, unquote: Unquote) returns (s': State)
    requires !InHunk(s) && Spelled(h) && FitsInt(h)
    ensures ReadsTo(s, RenderHunk(h), s', Additions(h.edits, h.newAt + 1), unquote)
  {
    var lines := RenderHunk(h);
    ReadsHunkHeader(s, h, unquote);
    var start := Read(s, lines[0], unquote).value;
    assert lines[1..] == RenderEdits(h.edits);
    ReadsEdits(start, h.edits, unquote);
    if NewCount(h.edits) == 0 {
      NoAdditions(h.edits, h.newAt, h.newAt + 1);
    }
    s' := ReadAll(s, lines, unquote).value;
  }

  lemma HeaderIsRead(s: State, header: string, h: HunkHeader, start: nat, oldCount: nat, newCount: nat,
      unquote: Unquote)
    requires !InHunk(s) && "@@" <= header && MatchHunk(header) == Some(h)
    requires AllDigits(h.start) && AllDigits(h.oldCount) && AllDigits(h.newCount)
    requires Atoi(h.start) == Some(start) && HunkCount(h.oldCount) == oldCount && HunkCount(h.newCount) == newCount
    ensures Read(s, header, unquote) == Some(s.(line := start, oldRem := oldCount, newRem := newCount))
  {
    assert header[0] == '@';
  }

  lemma SpelledCount(start: string, countText: string, before: nat, count: nat)
    requires SpellsRange(start, countText, before, count) && before + count <= MAX_INT
    ensures start != "" && AllDigits(start) && AllDigits(countText) && HunkCount(countText) == count
    ensures Atoi(start) == Some(if count == 0 then before else before + 1)
  {
  }

  lemma {:induction false} NoAdditions(edits: seq<Edit>, a: int, b: int)
    requires NewCount(edits) == 0
    ensures Additions(edits, a) == Additions(edits, b) == []
    decreases |edits|
  {
    if edits != [] {
      NoAdditions(edits[1..], a, b);
    }
  }

  lemma KeptThenMore(skipped: seq<string>, edits: seq<Edit>, later: seq<Edit>, next: int)
    ensures var all, shown := Kept(skipped) + (edits + later), next + |skipped|;
            && Additions(all, next) == Additions(edits, shown) + Additions(later, shown + NewCount(edits))
            && NewCount(all) == |skipped| + NewCount(edits) + NewCount(later)
            && OldCount(all) == |skipped| + OldCount(edits) + OldCount(later)
  {
    KeptAddsNothing(skipped, next);
    CountSplit(Kept(skipped), edits + later);
    CountSplit(edits, later);
    AdditionsSplit(Kept(skipped), edits + later, next);
    AdditionsSplit(edits, later, next + |skipped|);
  }

  lemma ScriptHead(hunks: seq<Hunk>, rest: seq<string>, next: int, shown: int)
    requires hunks != [] && shown == next + |hunks[0].skipped|
    ensures var h, later := hunks[0], Script(hunks[1..], rest);
            && Additions(Script(hunks, rest), next) ==
                Additions(h.edits, shown) + Additions(later, shown + NewCount(h.edits))
            && NewCount(Script(hunks, rest)) == |h.skipped| + NewCount(h.edits) + NewCount(later)
            && OldCount(Script(hunks, rest)) == |h.skipped| + OldCount(h.edits) + OldCount(later)
  {
    var h, later := hunks[0], Script(hunks[1..], rest);
    KeptThenMore(h.skipped, h.edits, later, next);
    assert Script(hunks, rest) == Kept(h.skipped) + (h.edits + later);
  }

  /** Read between hunks, the lines add those positions to the current file and end between hunks. */
  ghost predicate ReadsTo(s: State, lines: seq<string>, s': State, adds: seq<int>, unquote: Unquote) {
    && ReadAll(s, lines, unquote) == Some(s')
    && !InHunk(s') && s'.file == s.file && s'.added == AppendAll(s.added, s.file, adds)
  }

  lemma ReadsOn(s: State, head: seq<string>, a: seq<int>, mid: State, tail: seq<string>, b: seq<int>, end: State,
      unquote: Unquote)
    requires ReadsTo(s, head, mid, a, unquote) && ReadsTo(mid, tail, end, b, unquote)
    ensures ReadsTo(s, head + tail, end, a + b, unquote)
  {
    ReadAllSplit(s, head, tail, unquote);
    AppendAllSplit(s.added, s.file, a, b);
  }

  /** What the hunks show as added, each at its place. */
  function AsAdditions(): Hunk -> seq<int> {
    (h: Hunk) => Additions(h.edits, h.newAt + 1)
  }

  ghost predicate CanRead(s: State, lines: seq<string>, adds: seq<int>, unquote: Unquote) {
    exists s' :: ReadsTo(s, lines, s', adds, unquote)
  }

  /** What can be read one by one can be read one after the other. */
  lemma {:induction false} ReadsEach<H>(s: State, hs: seq<H>, lines: H -> seq<string>, adds: H -> seq<int>,
      unquote: Unquote)
    requires !InHunk(s)
    requires forall h, t :: h in hs && !InHunk(t) ==> CanRead(t, lines(h), adds(h), unquote)
    ensures CanRead(s, Sorting.Join(hs, lines), Sorting.Join(hs, adds), unquote)
    decreases |hs|
  {
    if hs == [] {
      assert ReadsTo(s, [], s, [], unquote);
    } else {
      assert CanRead(s, lines(hs[0]), adds(hs[0]), unquote);
      var mid :| ReadsTo(s, lines(hs[0]), mid, adds(hs[0]), unquote);
      ReadsEach(mid, hs[1..], lines, adds, unquote);
      var end :| ReadsTo(mid, Sorting.Join(hs[1..], lines), end, Sorting.Join(hs[1..], adds), unquote);
      ReadsOn(s, lines(hs[0]), adds(hs[0]), mid, Sorting.Join(hs[1..], lines), Sorting.Join(hs[1..], adds), end,
            unquote);
    }
  }

  /** Hunks that stand in their places add what the whole script adds. */
  lemma {:induction false} HunksAreTheScript(hunks: seq<Hunk>, rest: seq<string>, oldBefore: nat, newBefore: nat)
    requires WellPlaced(hunks, oldBefore, newBefore)
    ensures Sorting.Join(hunks, AsAdditions()) == Additions(Script(hunks, rest), newBefore + 1)
    decreases |hunks|
  {
    if hunks == [] {
      KeptAddsNothing(rest, newBefore + 1);
    } else {
      var h := hunks[0];
      ScriptHead(hunks, rest, newBefore + 1, h.newAt + 1);
      HunksAreTheScript(hunks[1..], rest, h.oldAt + OldCount(h.edits), h.newAt + NewCount(h.edits));
      assert h.newAt + 1 + NewCount(h.edits) == h.newAt + NewCount(h.edits) + 1;
      assert AsAdditions()(h) == Additions(h.edits, h.newAt + 1);
    }
  }

  lemma {:induction false} HunksFitInt(hunks: seq<Hunk>, rest: seq<string>, oldBefore: nat, newBefore: nat, i: nat)
    requires WellPlaced(hunks, oldBefore, newBefore) && i < |hunks|
    requires oldBefore + OldCount(Script(hunks, rest)) <= MAX_INT
             && newBefore + NewCount(Script(hunks, rest)) <= MAX_INT
    ensures FitsInt(hunks[i])
    decreases |hunks|
  {
    var h := hunks[0];
    ScriptHead(hunks, rest, newBefore + 1, h.newAt + 1);
    if i > 0 {
      HunksFitInt(hunks[1..], rest, h.oldAt + OldCount(h.edits), h.newAt + NewCount(h.edits), i - 1);
    }
  }

  // ----- a file, and a whole diff

  /** Lines before a file's "+++ " line: anything that is neither one nor a hunk header. */
  predicate IsPrelude(lines: seq<string>) {
    forall i :: 0 <= i < |lines| ==> !("+++ " <= lines[i]) && !("@@" <= lines[i])
  }

  /** A file's diff as a diff tool prints one, of files no longer than an int counts. */
  predicate WellFormed(f: FileDiff, unquote: Unquote) {
    && IsPrelude(f.prelude) && TargetPath("+++ " + f.target, unquote) == f.path
    && WellPlaced(f.hunks, 0, 0) && (forall h :: h in f.hunks ==> Spelled(h))
    && OldCount(Script(f.hunks, f.rest)) <= MAX_INT && NewCount(Script(f.hunks, f.rest)) <= MAX_INT
  }

  /** The new-file positions the file's diff adds. */
  function AddedLines(f: FileDiff): seq<int> {
    Additions(Script(f.hunks, f.rest), 1)
  }

  lemma {:induction false} ReadsPrelude(s: State, lines: seq<string>, unquote: Unquote) returns (s': State)
    requires !InHunk(s) && IsPrelude(lines)
    ensures ReadAll(s, lines, unquote) == Some(s') && s' == s.(file := s'.file)
    decreases |lines|
  {
    s' := s;
    if lines != [] {
      var next := Read(s, lines[0], unquote).value;
      s' := ReadsPrelude(next, lines[1..], unquote);
    }
  }

  lemma ReadsTarget(s: State, f: FileDiff, unquote: Unquote)
    requires !InHunk(s) && TargetPath("+++ " + f.target, unquote) == f.path
    ensures ReadAll(s, ["+++ " + f.target], unquote) == Some(s.(file := f.path))
  {
    var l := "+++ " + f.target;
    assert l[0] == '+' && "+++ " <= l;
    assert |[l]| == 1;
  }

  lemma ReadsThen(s: State, head: seq<string>, mid: State, tail: seq<string>, end: State, unquote: Unquote)
    requires ReadAll(s, head, unquote) == Some(mid) && ReadAll(mid, tail, unquote) == Some(end)
    ensures ReadAll(s, head + tail, unquote) == Some(end)
  {
    ReadAllSplit(s, head, tail, unquote);
  }

  lemma ReadsHead(s: State, f: FileDiff, unquote: Unquote)
    requires !InHunk(s) && IsPrelude(f.prelude) && TargetPath("+++ " + f.target, unquote) == f.path
    ensures ReadAll(s, f.prelude + ["+++ " + f.target], unquote) == Some(s.(file := f.path))
  {
    var a := ReadsPrelude(s, f.prelude, unquote);
    ReadsTarget(a, f, unquote);
    ReadsThen(s, f.prelude, a, ["+++ " + f.target], s.(file := f.path), unquote);
  }

  lemma HunkReads(s: State, h: Hunk, unquote: Unquote)
    requires !InHunk(s) && Spelled(h) && FitsInt(h)
    ensures CanRead(s, AsLines()(h), AsAdditions()(h), unquote)
  {
    var s' := ReadsHunk(s, h, unquote);
  }

  lemma AllFitInt(hunks: seq<Hunk>, rest: seq<string>)
    requires WellPlaced(hunks, 0, 0)
    requires OldCount(Script(hunks, rest)) <= MAX_INT && NewCount(Script(hunks, rest)) <= MAX_INT
    ensures forall h :: h in hunks ==> FitsInt(h)
  {
    forall i | 0 <= i < |hunks| ensures FitsInt(hunks[i]) {
      HunksFitInt(hunks, rest, 0, 0, i);
    }
  }

  lemma HunksRead(s: State, hunks: seq<Hunk>, unquote: Unquote)
    requires !InHunk(s) && forall h :: h in hunks ==> Spelled(h) && FitsInt(h)
    ensures CanRead(s, RenderHunks(hunks), Sorting.Join(hunks, AsAdditions()), unquote)
  {
    forall h, t | h in hunks && !InHunk(t) ensures CanRead(t, AsLines()(h), AsAdditions()(h), unquote) {
      HunkReads(t, h, unquote);
    }
    ReadsEach(s, hunks, AsLines(), AsAdditions(), unquote);
  }

  lemma ReadsBody(s: State, hunks: seq<Hunk>, rest: seq<string>, unquote: Unquote) returns (s': State)
    requires !InHunk(s) && WellPlaced(hunks, 0, 0) && forall h :: h in hunks ==> Spelled(h)
    requires OldCount(Script(hunks, rest)) <= MAX_INT && NewCount(Script(hunks, rest)) <= MAX_INT
    ensures ReadsTo(s, RenderHunks(hunks), s', Additions(Script(hunks, rest), 1), unquote)
  {
    AllFitInt(hunks, rest);
    HunksAreTheScript(hunks, rest, 0, 0);
    HunksRead(s, hunks, unquote);
    s' :| ReadsTo(s, RenderHunks(hunks), s', Sorting.Join(hunks, AsAdditions()), unquote);
  }

  lemma ReadsFile(s: State, f: FileDiff, unquote: Unquote) returns (s': State)
    requires !InHunk(s) && WellFormed(f, unquote)
    ensures ReadAll(s, RenderFile(f), unquote) == Some(s') && !InHunk(s')
    ensures s'.added == AppendAll(s.added, f.path, AddedLines(f))
  {
    var b := s.(file := f.path);
    s' := ReadsBody(b, f.hunks, f.rest, unquote);
    ReadsHead(s, f, unquote);
    ReadsThen(s, f.prelude + ["+++ " + f.target], b, RenderHunks(f.hunks), s', unquote);
  }

  /** Everything the diff adds to the file at `path`, file diff by file diff. */
  function Collected(files: seq<FileDiff>, path: string): seq<int> {
    if files == [] then []
    else (if files[0].path == path then AddedLines(files[0]) else []) + Collected(files[1..], path)
  }

  function LinesOf(added: Added, path: string): seq<int> {
    if path in added then added[path] else []
  }

  /** No file is listed without lines, and none without a name. */
  predicate Tidy(added: Added) {
    "" !in added && forall p :: p in added ==> added[p] != []
  }

  lemma {:induction false} AppendAllLines(added: Added, file: string, lines: seq<int>, path: string)
    requires Tidy(added)
    ensures Tidy(AppendAll(added, file, lines))
    ensures LinesOf(AppendAll(added, file, lines), path) ==
            LinesOf(added, path) + if file == path && file != "" then lines else []
    decreases |lines|
  {
    if lines != [] {
      AppendAllLines(Append(added, file, lines[0]), file, lines[1..], path);
      assert [lines[0]] + lines[1..] == lines;
    }
  }

  lemma {:induction false} ReadsFiles(s: State, files: seq<FileDiff>, path: string, unquote: Unquote)
      returns (s': State)
    requires !InHunk(s) && Tidy(s.added) && path != "" && forall i :: 0 <= i < |files| ==> WellFormed(files[i], unquote)
    ensures ReadAll(s, Render(files), unquote) == Some(s') && Tidy(s'.added)
    ensures LinesOf(s'.added, path) == LinesOf(s.added, path) + Collected(files, path)
    decreases |files|
  {
    if files == [] {
      s' := s;
    } else {
      var mid := ReadsFile(s, files[0], unquote);
      CollectedHead(files, path, s.added, mid.added);
      s' := ReadsFiles(mid, files[1..], path, unquote);
      ReadsThen(s, RenderFile(files[0]), mid, Render(files[1..]), s', unquote);
    }
  }

  lemma CollectedHead(files: seq<FileDiff>, path: string, before: Added, after: Added)
    requires files != [] && Tidy(before) && path != ""
    requires after == AppendAll(before, files[0].path, AddedLines(files[0]))
    ensures Tidy(after)
    ensures LinesOf(after, path) + Collected(files[1..], path) == LinesOf(before, path) + Collected(files, path)
  {
    var first := AddedLines(files[0]);
    AppendAllLines(before, files[0].path, first, path);
    Sorting.Regroup(LinesOf(before, path), first, Collected(files[1..], path));
  }

  /**
    Parsing inverts rendering: for any diff, the parser gives each file exactly
    the new-file positions of its added lines, sorted, and lists no other file.
  */
  lemma ParsingInvertsRendering(files: seq<FileDiff>, path: string, unquote: Unquote)
    requires forall i :: 0 <= i < |files| ==> WellFormed(files[i], unquote)
    ensures var r := Parsed(Render(files), unquote);
            && r.Some?
            && (path in r.value <==> path != "" && Collected(files, path) != [])
            && (path in r.value ==> r.value[path] == Sorting.Sort(Collected(files, path), Sorting.IntLe))
  {
    var s' := ReadsFiles(START, files, if path == "" then "/" else path, unquote);
    assert Parsed(Render(files), unquote) == Some(Sorted(s'.added));
    if path != "" {
      assert LinesOf(START.added, path) == [];
      assert LinesOf(s'.added, path) == Collected(files, path);
    }
  }

  lemma {:induction false} AdditionsRise(edits: seq<Edit>, next: int)
    ensures Sorting.Ordered(Additions(edits, next), Sorting.IntLe)
    ensures forall i :: 0 <= i < |Additions(edits, next)| ==> next <= Additions(edits, next)[i]
    decreases |edits|
  {
    if edits != [] {
      AdditionsRise(edits[1..], if edits[0].Del? then next else next + 1);
    }
  }

  /** A diff of one file gives that file's added lines as they come. */
  lemma ParsingOneFile(f: FileDiff, unquote: Unquote)
    requires WellFormed(f, unquote) && f.path != "" && AddedLines(f) != []
    ensures Parsed(RenderFile(f), unquote) == Some(map[f.path := AddedLines(f)])
  {
    var path := f.path;
    assert Render([f]) == RenderFile(f);
    AdditionsRise(Script(f.hunks, f.rest), 1);
    Sorting.IntOrder();
    Sorting.SortOfOrdered(AddedLines(f), Sorting.IntLe);
    ParsingInvertsRendering([f], path, unquote);
    assert Collected([f], path) == AddedLines(f);
    var added := Parsed(RenderFile(f), unquote).value;
    forall p ensures p in added <==> p == path {
      ParsingInvertsRendering([f], p, unquote);
      assert p != path ==> Collected([f], p) == [];
    }
    assert added == map[path := AddedLines(f)];
  }

  // ----- any edit script, cut anywhere

  /** A piece of an edit script: unchanged lines left out, then edits shown. */
  datatype Piece = Piece(skipped: seq<string>, edits: seq<Edit>)

  function ScriptOf(pieces: seq<Piece>, rest: seq<string>): seq<Edit> {
    if pieces == [] then Kept(rest) else Kept(pieces[0].skipped) + (pieces[0].edits + ScriptOf(pieces[1..], rest))
  }

  /** A start and a count spelled out in decimal. */
  function Start(before: nat, count: nat): string {
    Decimal(if count == 0 then before else before + 1)
  }

  lemma DecimalSpellsRange(before: nat, count: nat)
    ensures SpellsRange(Start(before, count), Decimal(count), before, count)
  {
    DecimalIsNumeral(if count == 0 then before else before + 1);
    DecimalIsNumeral(count);
  }

  /** A piece as a hunk, after so many lines of the two files. */
  lemma HunkAt(p: Piece, oldBefore: nat, newBefore: nat) returns (h: Hunk)
    ensures Spelled(h) && h.skipped == p.skipped && h.edits == p.edits
    ensures h.oldAt == oldBefore + |p.skipped| && h.newAt == newBefore + |p.skipped|
  {
    var oldAt, newAt, oldCount, newCount :=
        oldBefore + |p.skipped|, newBefore + |p.skipped|, OldCount(p.edits), NewCount(p.edits);
    DecimalSpellsRange(oldAt, oldCount);
    DecimalSpellsRange(newAt, newCount);
    h := Hunk(p.skipped, p.edits, oldAt, newAt, Start(oldAt, oldCount), Decimal(oldCount), Start(newAt, newCount),
          Decimal(newCount), "");
  }

  lemma FirstPlaced(h: Hunk, later: seq<Hunk>, rest: seq<string>, oldBefore: nat, newBefore: nat)
    requires h.oldAt == oldBefore + |h.skipped| && h.newAt == newBefore + |h.skipped|
    requires WellPlaced(later, h.oldAt + OldCount(h.edits), h.newAt + NewCount(h.edits))
    ensures WellPlaced([h] + later, oldBefore, newBefore)
    ensures Script([h] + later, rest) == Kept(h.skipped) + (h.edits + Script(later, rest))
  {
    assert ([h] + later)[1..] == later;
  }

  /** The pieces as hunks, one after another in the two files. */
  lemma {:induction false} HunksOf(pieces: seq<Piece>, rest: seq<string>, oldBefore: nat, newBefore: nat)
      returns (hunks: seq<Hunk>)
    ensures WellPlaced(hunks, oldBefore, newBefore) && Script(hunks, rest) == ScriptOf(pieces, rest)
    ensures (forall h :: h in hunks ==> Spelled(h))
    ensures |hunks| == |pieces| && forall i :: 0 <= i < |pieces| ==> hunks[i].edits == pieces[i].edits
    decreases |pieces|
  {
    hunks := [];
    if pieces != [] {
      var h := HunkAt(pieces[0], oldBefore, newBefore);
      var later := HunksOf(pieces[1..], rest, h.oldAt + OldCount(h.edits), h.newAt + NewCount(h.edits));
      FirstPlaced(h, later, rest, oldBefore, newBefore);
      hunks := [h] + later;
    }
  }

  /**
    Any edit script, cut into hunks anywhere, has a unified diff with those hunks,
    and that parses to exactly the positions the script adds.
  */
  lemma AnyCutParses(pieces: seq<Piece>, rest: seq<string>, target: string, path: string, unquote: Unquote)
      returns (f: FileDiff)
    requires TargetPath("+++ " + target, unquote) == path != "" && Additions(ScriptOf(pieces, rest), 1) != []
    requires OldCount(ScriptOf(pieces, rest)) <= MAX_INT && NewCount(ScriptOf(pieces, rest)) <= MAX_INT
    ensures WellFormed(f, unquote) && f.target == target && f.rest == rest
    ensures |f.hunks| == |pieces| && forall i :: 0 <= i < |pieces| ==> f.hunks[i].edits == pieces[i].edits
    ensures Parsed(RenderFile(f), unquote) == Some(map[path := Additions(ScriptOf(pieces, rest), 1)])
  {
    var hunks := HunksOf(pieces, rest, 0, 0);
    f := FileDiff([], target, path, hunks, rest);
    ParsingOneFile(f, unquote);
  }

  // ----- what the positions are

  lemma {:induction false} AdditionsArePositions(edits: seq<Edit>, next: int, l: int)
    ensures l in Additions(edits, next) <==>
            exists i :: 0 <= i < |edits| && edits[i].Add? && l == next + NewCount(edits[..i])
    decreases |edits|
  {
    if edits != [] {
      var rest, after := edits[1..], if edits[0].Del? then next else next + 1;
      AdditionsArePositions(rest, after, l);
      assert forall i :: 0 <= i < |rest| ==> edits[..i + 1][1..] == rest[..i];
      if l in Additions(rest, after) {
        var i :| 0 <= i < |rest| && rest[i].Add? && l == after + NewCount(rest[..i]);
        assert edits[i + 1].Add? && l == next + NewCount(edits[..i + 1]);
      }
      if i :| 0 < i < |edits| && edits[i].Add? && l == next + NewCount(edits[..i]) {
        assert edits[..i][1..] == rest[..i - 1];
        assert rest[i - 1].Add? && l == after + NewCount(rest[..i - 1]);
      }
      assert NewCount(edits[..0]) == 0;
    }
  }

  /** Counting new-file lines before an edit gives its index in the new file. */
  lemma {:induction false} NewFileAt(edits: seq<Edit>, i: nat)
    requires i < |edits| && !edits[i].Del?
    ensures |NewFile(edits)| == NewCount(edits) && NewCount(edits[..i]) < NewCount(edits)
    ensures NewFile(edits)[NewCount(edits[..i])] == edits[i].text
    decreases |edits|
  {
    NewFileLength(edits);
    NewFileLength(edits[1..]);
    if i > 0 {
      assert edits[..i][1..] == edits[1..][..i - 1];
      NewFileAt(edits[1..], i - 1);
    }
  }

  lemma {:induction false} NewFileLength(edits: seq<Edit>)
    ensures |NewFile(edits)| == NewCount(edits)
    decreases |edits|
  {
    if edits != [] {
      NewFileLength(edits[1..]);
    }
  }

  /** The usual target line of a file that is still there. */
  lemma PlainTarget(path: string, unquote: Unquote)
    requires path != "" && '\t' !in path && !IsSpace(path[|path| - 1])
    ensures TargetPath("+++ b/" + path, unquote) == path
  {
    var l, p := "+++ b/" + path, "b/" + path;
    assert l[4..] == p;
    NoTab(p);
    assert TrimLeft(p) == p && TrimRight(p) == p;
    PlainName(path, unquote);
  }

  lemma PlainName(path: string, unquote: Unquote)
    ensures NamedBy("b/" + path, unquote) == path
  {
    var p := "b/" + path;
    assert p[0] == 'b' && p[2..] == path;
  }

  lemma {:induction false} NoTab(s: string)
    requires '\t' !in s
    ensures UpToTab(s) == s
  {
    if s != [] {
      NoTab(s[1..]);
    }
  }
}
