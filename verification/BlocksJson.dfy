/**
  The hand-written scanner for a file's stored blocks: a JSON array of objects
  with integer members. `Array` below is the reference grammar, as concrete
  syntax (sections 2, 4, 5 and 6 of RFC 8259, cut down to what the scanner
  takes); the scanner accepts exactly its texts, with their meaning.
*/
module BlocksJson {
  import opened Numerals
  import opened Options
  import opened Profile

  /** A byte, as the character with its code. */
  type Byte = char
  type Bytes = seq<Byte>

  const MAX_INT_DIGITS: nat := 18

  const ZERO := Block(0, 0, 0, 0, 0, 0)

  predicate IsSpace(c: Byte) {
    c == ' ' || c == '\t' || c == '\n' || c == '\r'
  }

  // ----- the reference grammar

  predicate Blank(s: Bytes) {
    forall i :: 0 <= i < |s| ==> IsSpace(s[i])
  }

  /** A JSON integer's digits: no leading zero, and few enough to be exact. */
  predicate IntDigits(s: Bytes) {
    1 <= |s| <= MAX_INT_DIGITS && AllDigits(s) && (|s| > 1 ==> s[0] != '0')
  }

  /** `"key" : -digits`, with white space before the key, around the colon and after the number. */
  datatype Member = Member(lead: Bytes, key: Bytes, beforeColon: Bytes, afterColon: Bytes, negative: bool,
      digits: Bytes, after: Bytes)

  /** `{ members }`, with white space before the brace and, in an empty object, inside. */
  datatype Object = Object(lead: Bytes, inside: Bytes, members: seq<Member>)

  datatype Item = Item(obj: Object, after: Bytes)

  datatype Array = Array(lead: Bytes, inside: Bytes, items: seq<Item>, after: Bytes)

  /** A block with one named field set; none for a name blocks do not have. */
  function SetField(b: Block, key: Bytes, v: int): Option<Block> {
    if key == "start_line" then Some(b.(startLine := v))
    else if key == "start_col" then Some(b.(startCol := v))
    else if key == "end_line" then Some(b.(endLine := v))
    else if key == "end_col" then Some(b.(endCol := v))
    else if key == "num_stmts" then Some(b.(numStmts := v))
    else if key == "count" then Some(b.(count := v))
    else None
  }

  /** No quote, escape or control character. */
  predicate PlainKey(s: Bytes) {
    forall i :: 0 <= i < |s| ==> s[i] != '"' && s[i] != '\\' && s[i] >= ' '
  }

  predicate MemberOk(m: Member) {
    Blank(m.lead) && PlainKey(m.key) && SetField(ZERO, m.key, 0).Some? && Blank(m.beforeColon) && Blank(m.afterColon)
    && IntDigits(m.digits) && Blank(m.after)
  }

  predicate ObjectOk(o: Object) {
    Blank(o.lead) && Blank(o.inside) && forall i :: 0 <= i < |o.members| ==> MemberOk(o.members[i])
  }

  predicate ArrayOk(a: Array) {
    Blank(a.lead) && Blank(a.inside) && Blank(a.after)
    && forall i :: 0 <= i < |a.items| ==> ObjectOk(a.items[i].obj) && Blank(a.items[i].after)
  }

  // Each text is given together with the bytes that follow it.

  function TextOfNumber(negative: bool, digits: Bytes, rest: Bytes): Bytes {
    if negative then ['-'] + (digits + rest) else digits + rest
  }

  function TextOfMember(m: Member, rest: Bytes): Bytes {
    m.lead + (['"'] + (m.key + (['"'] + (m.beforeColon + ([':'] + (
      m.afterColon + TextOfNumber(m.negative, m.digits, m.after + rest)))))))
  }

  /** Members with commas between them, then the closing brace. */
  function TextOfMembers(ms: seq<Member>, rest: Bytes): Bytes
    requires ms != []
  {
    TextOfMember(ms[0], if |ms| == 1 then ['}'] + rest else [','] + TextOfMembers(ms[1..], rest))
  }

  function TextOfObject(o: Object, rest: Bytes): Bytes {
    o.lead + (['{'] + (if o.members == [] then o.inside + (['}'] + rest) else TextOfMembers(o.members, rest)))
  }

  function TextOfItems(items: seq<Item>, rest: Bytes): Bytes
    requires items != []
  {
    TextOfObject(
      items[0].obj, items[0].after + (if |items| == 1 then [']'] + rest else [','] + TextOfItems(items[1..], rest)))
  }

  function Text(a: Array): Bytes {
    a.lead + (['['] + (if a.items == [] then a.inside + ([']'] + a.after) else TextOfItems(a.items, a.after)))
  }

  function NumberOf(m: Member): int
    requires MemberOk(m)
  {
    if m.negative then 0 - (Value(m.digits) as int) else Value(m.digits)
  }

  /** The members set their fields in turn, so the last of a repeated key wins. */
  function MeaningOfMembers(b: Block, ms: seq<Member>): Block
    requires forall i :: 0 <= i < |ms| ==> MemberOk(ms[i])
    decreases |ms|
  {
    if ms == [] then b else MeaningOfMembers(SetField(b, ms[0].key, NumberOf(ms[0])).value, ms[1..])
  }

  function MeaningOfItems(items: seq<Item>): seq<Block>
    requires forall i :: 0 <= i < |items| ==> ObjectOk(items[i].obj)
  {
    if items == [] then [] else
      assert ObjectOk(items[0].obj);
      [MeaningOfMembers(ZERO, items[0].obj.members)] + MeaningOfItems(items[1..])
  }

  function Meaning(a: Array): seq<Block>
    requires ArrayOk(a)
  {
    MeaningOfItems(a.items)
  }

  // ----- what each scanner method finds at the start of the bytes left

  function SkipSpace(s: Bytes): (r: Bytes)
    ensures |r| <= |s|
  {
    if s != [] && IsSpace(s[0]) then SkipSpace(s[1..]) else s
  }

  function Take(s: Bytes, c: Byte): (r: Option<Bytes>)
    ensures r.Some? ==> |r.value| < |s|
  {
    var s := SkipSpace(s);
    if s != [] && s[0] == c then Some(s[1..]) else None
  }

  function DigitRun(s: Bytes): (r: Bytes)
    ensures AllDigits(r) && r <= s
  {
    if s != [] && IsDigit(s[0]) then [s[0]] + DigitRun(s[1..]) else []
  }

  function Digits(s: Bytes): (r: Option<(nat, Bytes)>)
    ensures r.Some? ==> |r.value.1| < |s|
  {
    var d := DigitRun(s);
    if IntDigits(d) then Some((Value(d), s[|d|..])) else None
  }

  function Int(s: Bytes): (r: Option<(int, Bytes)>)
    ensures r.Some? ==> |r.value.1| < |s|
  {
    match Take(s, '-')
    case Some(s') => var (v, rest) :- Digits(s'); Some((0 - (v as int), rest))
    case None => var (v, rest) :- Digits(SkipSpace(s)); Some((v, rest))
  }

  /** The key up to its closing quote; none on an escape, a control character or the end. */
  function KeyRest(s: Bytes): (r: Option<(Bytes, Bytes)>)
    ensures r.Some? ==> |r.value.1| < |s| && PlainKey(r.value.0) && s == r.value.0 + (['"'] + r.value.1)
  {
    if s == [] || (s[0] != '"' && (s[0] == '\\' || s[0] < ' ')) then None
    else if s[0] == '"' then Some(([], s[1..]))
    else var (k, rest) :- KeyRest(s[1..]); Some(([s[0]] + k, rest))
  }

  function Key(s: Bytes): (r: Option<(Bytes, Bytes)>)
    ensures r.Some? ==> |r.value.1| < |s|
  {
    var s' :- Take(s, '"');
    KeyRest(s')
  }

  /** One member, set in the block. */
  function OneMember(s: Bytes, b: Block): (r: Option<(Block, Bytes)>)
    ensures r.Some? ==> |r.value.1| < |s|
  {
    var (key, s1) :- Key(s);
    var s2 :- Take(s1, ':');
    var (v, s3) :- Int(s2);
    var b' :- SetField(b, key, v);
    Some((b', s3))
  }

  function Members(s: Bytes, b: Block): (r: Option<(Block, Bytes)>)
    ensures r.Some? ==> |r.value.1| < |s|
    decreases |s|
  {
    var (b', s3) :- OneMember(s, b);
    match Take(s3, ',')
    case Some(s4) => Members(s4, b')
    case None => var s4 :- Take(s3, '}'); Some((b', s4))
  }

  /** An object scanned key by key. */
  function GenericBlock(s: Bytes): (r: Option<(Block, Bytes)>)
    ensures r.Some? ==> |r.value.1| < |s|
  {
    var s1 :- Take(s, '{');
    match Take(s1, '}')
    case Some(s2) => Some((ZERO, s2))
    case None => Members(s1, ZERO)
  }

  /** How Postgres prints a stored block's keys. */
  const JSONB_KEYS: seq<Bytes> := ["{\"count\": ", ", \"end_col\": ", ", \"end_line\": ", ", \"num_stmts\": ",
      ", \"start_col\": ", ", \"start_line\": "]

  /** Each literal followed by digits, in turn. */
  function JsonbFields(s: Bytes, keys: seq<Bytes>): (r: Option<(seq<nat>, Bytes)>)
    ensures r.Some? ==> |r.value.1| <= |s| && |r.value.0| == |keys|
    decreases |keys|
  {
    if keys == [] then Some(([], s))
    else if !(keys[0] <= s) then None
    else
      var (v, s1) :- Digits(s[|keys[0]|..]);
      var (vs, rest) :- JsonbFields(s1, keys[1..]);
      Some(([v] + vs, rest))
  }

  function ClosedFields(s: Bytes, keys: seq<Bytes>): (r: Option<(seq<nat>, Bytes)>)
    ensures r.Some? ==> |r.value.1| < |s| && |r.value.0| == |keys|
  {
    var (v, s1) :- JsonbFields(s, keys);
    if s1 == [] || s1[0] != '}' then None else Some((v, s1[1..]))
  }

  /** Six fields in the order of Postgres's keys, then the closing brace. */
  function FieldsBlock(s: Bytes, keys: seq<Bytes>): (r: Option<(Block, Bytes)>)
    requires |keys| == 6
    ensures r.Some? ==> |r.value.1| < |s|
  {
    var (v, rest) :- ClosedFields(SkipSpace(s), keys);
    Some((Block(v[5], v[4], v[2], v[1], v[3], v[0]), rest))
  }

  function JsonbBlock(s: Bytes): (r: Option<(Block, Bytes)>)
    ensures r.Some? ==> |r.value.1| < |s|
  {
    FieldsBlock(s, JSONB_KEYS)
  }

  function ScanBlock(s: Bytes): (r: Option<(Block, Bytes)>)
    ensures r.Some? ==> |r.value.1| < |s|
  {
    if JsonbBlock(s).Some? then JsonbBlock(s) else GenericBlock(s)
  }

  function ScanItems(s: Bytes): (r: Option<(seq<Block>, Bytes)>)
    decreases |s|
  {
    var (b, s1) :- ScanBlock(s);
    match Take(s1, ']')
    case Some(s2) => Some(([b], s2))
    case None =>
      var s2 :- Take(s1, ',');
      var (bs, rest) :- ScanItems(s2);
      Some(([b] + bs, rest))
  }

  function Scan(s: Bytes): Option<seq<Block>> {
    var s1 :- Take(s, '[');
    var (bs, s2) :- match Take(s1, ']') case Some(s2) => Some(([], s2)) case None => ScanItems(s1);
    if SkipSpace(s2) == [] then Some(bs) else None
  }

  // ----- every text of the grammar is scanned, with its meaning

  lemma {:induction false} SkipsBlank(w: Bytes, s: Bytes)
    requires Blank(w)
    ensures SkipSpace(w + s) == SkipSpace(s)
  {
    if w == [] {
      assert w + s == s;
    } else {
      assert (w + s)[1..] == w[1..] + s;
      SkipsBlank(w[1..], s);
    }
  }

  lemma Takes(w: Bytes, c: Byte, s: Bytes, want: Byte)
    requires Blank(w) && !IsSpace(c)
    ensures Take(w + ([c] + s), want) == if c == want then Some(s) else None
    ensures SkipSpace(w + ([c] + s)) == [c] + s
  {
    SkipsBlank(w, [c] + s);
    assert ([c] + s)[1..] == s;
  }

  lemma {:induction false} RunsDigits(d: Bytes, rest: Bytes)
    requires AllDigits(d) && (rest == [] || !IsDigit(rest[0]))
    ensures DigitRun(d + rest) == d
  {
    if d == [] {
      assert d + rest == rest;
    } else {
      assert (d + rest)[1..] == d[1..] + rest;
      RunsDigits(d[1..], rest);
      assert [d[0]] + d[1..] == d;
    }
  }

  lemma ScansDigits(d: Bytes, rest: Bytes)
    requires IntDigits(d) && (rest == [] || !IsDigit(rest[0]))
    ensures Digits(d + rest) == Some((Value(d), rest))
  {
    RunsDigits(d, rest);
    assert (d + rest)[|d|..] == rest;
  }

  lemma IntOfMinus(s: Bytes, s': Bytes, v: nat, rest: Bytes)
    requires Take(s, '-') == Some(s') && Digits(s') == Some((v, rest))
    ensures Int(s) == Some((0 - (v as int), rest))
  {
  }

  lemma IntOfDigits(s: Bytes, s': Bytes, v: nat, rest: Bytes)
    requires Take(s, '-') == None && SkipSpace(s) == s' && Digits(s') == Some((v, rest))
    ensures Int(s) == Some((v as int, rest))
  {
  }

  lemma IntAfterMinus(w: Bytes, x: Bytes, v: nat, rest: Bytes)
    requires Blank(w) && Digits(x) == Some((v, rest))
    ensures Int(w + (['-'] + x)) == Some((0 - (v as int), rest))
  {
    Takes(w, '-', x, '-');
    IntOfMinus(w + (['-'] + x), x, v, rest);
  }

  lemma IntOfFirstDigit(w: Bytes, x: Bytes, v: nat, rest: Bytes)
    requires Blank(w) && Digits(x) == Some((v, rest)) && x != [] && IsDigit(x[0])
    ensures Int(w + x) == Some((v as int, rest))
  {
    assert x == [x[0]] + x[1..];
    Takes(w, x[0], x[1..], '-');
    IntOfDigits(w + x, x, v, rest);
  }

  lemma {:induction false} ScansKey(k: Bytes, rest: Bytes)
    requires PlainKey(k)
    ensures KeyRest(k + (['"'] + rest)) == Some((k, rest))
  {
    var s := k + (['"'] + rest);
    if k == [] {
      assert s == ['"'] + rest && s[1..] == rest;
    } else {
      assert s[0] == k[0] && s[1..] == k[1..] + (['"'] + rest);
      ScansKey(k[1..], rest);
      assert [k[0]] + k[1..] == k;
    }
  }

  lemma NotDigitAfter(after: Bytes, c: Byte, rest: Bytes)
    requires Blank(after) && !IsDigit(c)
    ensures after + ([c] + rest) != [] && !IsDigit((after + ([c] + rest))[0])
  {
    if after != [] {
      assert (after + ([c] + rest))[0] == after[0];
    }
  }

  lemma SameKeys(b: Block, key: Bytes, v: int)
    ensures SetField(b, key, v).Some? <==> SetField(ZERO, key, 0).Some?
  {
  }

  lemma ScansMemberDigits(m: Member, rest: Bytes)
    requires MemberOk(m) && rest != [] && !IsDigit(rest[0])
    ensures Digits(m.digits + rest) == Some((Value(m.digits), rest)) && m.digits != [] && IsDigit(m.digits[0])
  {
    ScansDigits(m.digits, rest);
  }

  lemma ScansQuoted(lead: Bytes, key: Bytes, s2: Bytes)
    requires Blank(lead) && PlainKey(key)
    ensures Key(lead + (['"'] + (key + (['"'] + s2)))) == Some((key, s2))
  {
    Takes(lead, '"', key + (['"'] + s2), '"');
    ScansKey(key, s2);
  }

  lemma ScansNumber(m: Member, s4: Bytes)
    requires MemberOk(m) && s4 != [] && !IsDigit(s4[0])
    ensures Int(m.afterColon + TextOfNumber(m.negative, m.digits, s4)) == Some((NumberOf(m), s4))
  {
    ScansMemberDigits(m, s4);
    if m.negative {
      IntAfterMinus(m.afterColon, m.digits + s4, Value(m.digits), s4);
    } else {
      assert (m.digits + s4)[0] == m.digits[0];
      IntOfFirstDigit(m.afterColon, m.digits + s4, Value(m.digits), s4);
    }
  }

  /** From a member's quote to its number. */
  lemma ScansKeyAndNumber(m: Member, s4: Bytes)
    requires MemberOk(m) && s4 != [] && !IsDigit(s4[0])
    ensures var s3 := m.afterColon + TextOfNumber(m.negative, m.digits, s4);
            var s2 := m.beforeColon + ([':'] + s3);
            && Key(m.lead + (['"'] + (m.key + (['"'] + s2)))) == Some((m.key, s2))
            && Take(s2, ':') == Some(s3)
            && Int(s3) == Some((NumberOf(m), s4))
  {
    var s3 := m.afterColon + TextOfNumber(m.negative, m.digits, s4);
    ScansQuoted(m.lead, m.key, m.beforeColon + ([':'] + s3));
    Takes(m.beforeColon, ':', s3, ':');
    ScansNumber(m, s4);
  }

  /** A member's text is scanned up to what follows it. */
  lemma ScansMember(m: Member, c: Byte, rest: Bytes, b: Block)
    requires MemberOk(m) && (c == ',' || c == '}')
    ensures SetField(b, m.key, NumberOf(m)).Some?
    ensures var b' := SetField(b, m.key, NumberOf(m)).value;
            Members(TextOfMember(m, [c] + rest), b) == if c == ',' then Members(rest, b') else Some((b', rest))
  {
    var s4 := m.after + ([c] + rest);
    NotDigitAfter(m.after, c, rest);
    ScansKeyAndNumber(m, s4);
    Takes(m.after, c, rest, ',');
    Takes(m.after, c, rest, '}');
    SameKeys(b, m.key, NumberOf(m));
  }

  lemma {:induction false} ScansMembers(ms: seq<Member>, rest: Bytes, b: Block)
    requires ms != [] && forall i :: 0 <= i < |ms| ==> MemberOk(ms[i])
    ensures Members(TextOfMembers(ms, rest), b) == Some((MeaningOfMembers(b, ms), rest))
    decreases |ms|
  {
    SameKeys(b, ms[0].key, NumberOf(ms[0]));
    var b' := SetField(b, ms[0].key, NumberOf(ms[0])).value;
    if |ms| == 1 {
      ScansMember(ms[0], '}', rest, b);
      assert ms[1..] == [];
    } else {
      ScansMember(ms[0], ',', TextOfMembers(ms[1..], rest), b);
      ScansMembers(ms[1..], rest, b');
    }
  }

  lemma GenericScansObject(o: Object, rest: Bytes)
    requires ObjectOk(o)
    ensures GenericBlock(TextOfObject(o, rest)) == Some((MeaningOfMembers(ZERO, o.members), rest))
  {
    var inner := if o.members == [] then o.inside + (['}'] + rest) else TextOfMembers(o.members, rest);
    Takes(o.lead, '{', inner, '{');
    if o.members == [] {
      Takes(o.inside, '}', rest, '}');
    } else {
      var m := o.members[0];
      var tail := if |o.members| == 1 then ['}'] + rest else [','] + TextOfMembers(o.members[1..], rest);
      var after := m.key + (['"'] + (m.beforeColon + ([':'] + (
        m.afterColon + TextOfNumber(m.negative, m.digits, m.after + tail)))));
      assert MemberOk(m) && inner == m.lead + (['"'] + after);
      Takes(m.lead, '"', after, '}');
      ScansMembers(o.members, rest, ZERO);
    }
  }

  // ----- and nothing else is

  lemma {:induction false} SkippedIsBlank(s: Bytes) returns (w: Bytes)
    ensures Blank(w) && s == w + SkipSpace(s)
  {
    w := [];
    if s != [] && IsSpace(s[0]) {
      w := SkippedIsBlank(s[1..]);
      w := [s[0]] + w;
    }
  }

  lemma TakenText(s: Bytes, c: Byte) returns (w: Bytes)
    requires Take(s, c).Some?
    ensures Blank(w) && s == w + ([c] + Take(s, c).value)
  {
    w := SkippedIsBlank(s);
    assert SkipSpace(s) == [c] + SkipSpace(s)[1..];
  }

  lemma DigitsText(s: Bytes) returns (d: Bytes)
    requires Digits(s).Some?
    ensures IntDigits(d) && Digits(s).value.0 == Value(d) && s == d + Digits(s).value.1
  {
    d := DigitRun(s);
  }

  lemma IntText(s: Bytes) returns (w: Bytes, negative: bool, d: Bytes)
    requires Int(s).Some?
    ensures Blank(w) && IntDigits(d) && s == w + TextOfNumber(negative, d, Int(s).value.1)
    ensures Int(s).value.0 == if negative then 0 - (Value(d) as int) else Value(d)
  {
    negative := Take(s, '-').Some?;
    if negative {
      w := TakenText(s, '-');
      d := DigitsText(Take(s, '-').value);
    } else {
      w := SkippedIsBlank(s);
      d := DigitsText(SkipSpace(s));
    }
  }

  /** One member scanned is one member of the grammar, up to what follows its number. */
  lemma MemberText(s: Bytes) returns (m: Member)
    requires Key(s).Some? && Take(Key(s).value.1, ':').Some? && Int(Take(Key(s).value.1, ':').value).Some?
    requires SetField(ZERO, Key(s).value.0, 0).Some?
    ensures MemberOk(m) && m.after == [] && m.key == Key(s).value.0
    ensures var number := Int(Take(Key(s).value.1, ':').value).value;
            NumberOf(m) == number.0 && s == TextOfMember(m, number.1)
  {
    var (key, s1) := Key(s).value;
    var s2 := Take(s1, ':').value;
    var lead := TakenText(s, '"');
    var beforeColon := TakenText(s1, ':');
    var afterColon, negative, digits := IntText(s2);
    var s3 := Int(s2).value.1;
    m := Member(lead, key, beforeColon, afterColon, negative, digits, []);
    assert [] + s3 == s3;
  }

  /** White space after a member's number belongs to the member. */
  lemma SpaceAfter(m: Member, w: Bytes, rest: Bytes)
    requires MemberOk(m) && m.after == [] && Blank(w)
    ensures MemberOk(m.(after := w)) && NumberOf(m.(after := w)) == NumberOf(m)
    ensures TextOfMember(m, w + rest) == TextOfMember(m.(after := w), rest)
  {
    assert [] + (w + rest) == w + rest;
  }

  lemma InFront(b: Block, m: Member, more: seq<Member>, tail: Bytes)
    requires more != [] && MemberOk(m) && (forall i :: 0 <= i < |more| ==> MemberOk(more[i]))
    ensures SetField(b, m.key, NumberOf(m)).Some? && forall i :: 0 <= i < |[m] + more| ==> MemberOk(([m] + more)[i])
    ensures MeaningOfMembers(b, [m] + more) == MeaningOfMembers(SetField(b, m.key, NumberOf(m)).value, more)
    ensures TextOfMembers([m] + more, tail) == TextOfMember(m, [','] + TextOfMembers(more, tail))
  {
    SameKeys(b, m.key, NumberOf(m));
    TextInFront(m, more, tail);
    assert ([m] + more)[1..] == more;
  }

  lemma Alone(b: Block, m: Member, tail: Bytes)
    requires MemberOk(m)
    ensures SetField(b, m.key, NumberOf(m)).Some?
    ensures MeaningOfMembers(b, [m]) == SetField(b, m.key, NumberOf(m)).value
    ensures TextOfMembers([m], tail) == TextOfMember(m, ['}'] + tail)
  {
    SameKeys(b, m.key, NumberOf(m));
    assert [m][1..] == [];
  }

  lemma MembersGoOn(s: Bytes, b: Block)
    requires Members(s, b).Some?
    ensures OneMember(s, b).Some?
    ensures var (b', s3) := OneMember(s, b).value;
            if Take(s3, ',').Some? then Members(s, b) == Members(Take(s3, ',').value, b')
            else Take(s3, '}').Some? && Members(s, b) == Some((b', Take(s3, '}').value))
  {
  }

  /** One member's text, with the white space before what comes next. */
  lemma OneMemberText(s: Bytes, b: Block, c: Byte) returns (m: Member)
    requires OneMember(s, b).Some? && Take(OneMember(s, b).value.1, c).Some?
    ensures MemberOk(m) && SetField(b, m.key, NumberOf(m)) == Some(OneMember(s, b).value.0)
    ensures s == TextOfMember(m, [c] + Take(OneMember(s, b).value.1, c).value)
  {
    var (key, s1) := Key(s).value;
    var (v, s3) := Int(Take(s1, ':').value).value;
    SameKeys(b, key, v);
    m := MemberText(s);
    var w := TakenText(s3, c);
    SpaceAfter(m, w, [c] + Take(s3, c).value);
    m := m.(after := w);
  }

  lemma {:induction false} MembersText(s: Bytes, b: Block, end: Block, rest: Bytes) returns (ms: seq<Member>)
    requires Members(s, b) == Some((end, rest))
    ensures ms != [] && forall i :: 0 <= i < |ms| ==> MemberOk(ms[i])
    ensures end == MeaningOfMembers(b, ms) && s == TextOfMembers(ms, rest)
    decreases |s|
  {
    MembersGoOn(s, b);
    var (b', s3) := OneMember(s, b).value;
    if Take(s3, ',').Some? {
      var m := OneMemberText(s, b, ',');
      var more := MembersText(Take(s3, ',').value, b', end, rest);
      InFront(b, m, more, rest);
      ms := [m] + more;
    } else {
      var m := OneMemberText(s, b, '}');
      Alone(b, m, rest);
      ms := [m];
    }
  }

  lemma GenericText(s: Bytes) returns (o: Object)
    requires GenericBlock(s).Some?
    ensures ObjectOk(o) && GenericBlock(s).value.0 == MeaningOfMembers(ZERO, o.members)
    ensures s == TextOfObject(o, GenericBlock(s).value.1)
  {
    var s1 := Take(s, '{').value;
    var lead := TakenText(s, '{');
    if Take(s1, '}').Some? {
      var inside := TakenText(s1, '}');
      o := Object(lead, inside, []);
    } else {
      var ms := MembersText(s1, ZERO, GenericBlock(s).value.0, GenericBlock(s).value.1);
      o := Object(lead, [], ms);
    }
  }

  // ----- the fast path inside the fast path

  const NAMES: seq<Bytes> := ["count", "end_col", "end_line", "num_stmts", "start_col", "start_line"]

  /** What Postgres prints before a value: the brace or a comma and a space, then the quoted key and a colon. */
  lemma JsonbKey(k: nat)
    requires k < 6
    ensures JSONB_KEYS[k] == (if k == 0 then ['{'] else [',', ' ']) + ['"'] + NAMES[k] + ['"', ':', ' ']
  {
  }

  lemma Associates(a: Bytes, name: Bytes, rest: Bytes)
    ensures a + ['"'] + name + ['"', ':', ' '] + rest == a + (['"'] + (name + (['"'] + ([':'] + ([' '] + rest)))))
  {
  }

  lemma JsonbLiteral(k: nat, rest: Bytes)
    requires k < 6
    ensures JSONB_KEYS[k] + rest ==
            (if k == 0 then ['{'] else [',', ' ']) + (['"'] + (NAMES[k] + (['"'] + ([':'] + ([' '] + rest)))))
  {
    JsonbKey(k);
    Associates(if k == 0 then ['{'] else [',', ' '], NAMES[k], rest);
  }

  function Opening(first: bool): Bytes {
    if first then ['{'] else [',']
  }

  /** The member a jsonb literal and its digits make. */
  function JsonbMember(name: Bytes, first: bool, digits: Bytes): Member {
    Member(if first then [] else [' '], name, [], [' '], false, digits, [])
  }

  /** The literal, put before digits, opens a member of that name. */
  ghost predicate IsLiteral(lit: Bytes, name: Bytes, first: bool) {
    && PlainKey(name) && SetField(ZERO, name, 0).Some?
    && forall digits: Bytes, rest: Bytes ::
        lit + (digits + rest) == Opening(first) + TextOfMember(JsonbMember(name, first, digits), rest)
  }

  lemma MemberSpelled(name: Bytes, first: bool, digits: Bytes, rest: Bytes)
    ensures TextOfMember(JsonbMember(name, first, digits), rest) ==
            (if first then [] else [' ']) + (['"'] + (name + (['"'] + ([':'] + ([' '] + (digits + rest))))))
  {
    var colon := [':'] + ([' '] + (digits + rest));
    assert [] + colon == colon;
    assert [] + rest == rest;
  }

  lemma OpeningFirst(first: bool, rest: Bytes)
    ensures (if first then ['{'] else [',', ' ']) + rest == Opening(first) + ((if first then [] else [' ']) + rest)
  {
  }

  lemma KeysAreLiterals(k: nat)
    requires k < 6
    ensures IsLiteral(JSONB_KEYS[k], NAMES[k], k == 0)
  {
    forall digits: Bytes, rest: Bytes
      ensures JSONB_KEYS[k] + (digits + rest) ==
              Opening(k == 0) + TextOfMember(JsonbMember(NAMES[k], k == 0, digits), rest)
    {
      JsonbLiteral(k, digits + rest);
      MemberSpelled(NAMES[k], k == 0, digits, rest);
      OpeningFirst(k == 0, ['"'] + (NAMES[k] + (['"'] + ([':'] + ([' '] + (digits + rest))))));
    }
    NamesAreKeys(k);
  }

  lemma NamesAreKeys(k: nat)
    requires k < 6
    ensures PlainKey(NAMES[k]) && SetField(ZERO, NAMES[k], 0).Some?
  {
  }

  /** One literal and its digits, read as a member. */
  lemma FieldText(s: Bytes, lit: Bytes, name: Bytes, first: bool) returns (m: Member)
    requires IsLiteral(lit, name, first) && lit <= s && Digits(s[|lit|..]).Some?
    ensures MemberOk(m) && m.key == name && NumberOf(m) == Digits(s[|lit|..]).value.0
    ensures s == Opening(first) + TextOfMember(m, Digits(s[|lit|..]).value.1)
  {
    var d := DigitsText(s[|lit|..]);
    m := JsonbMember(name, first, d);
    assert s == lit + s[|lit|..];
  }

  /** Members of these names and numbers. */
  ghost predicate AreFields(ms: seq<Member>, names: seq<Bytes>, vs: seq<nat>) {
    && |ms| == |names| == |vs|
    && forall j :: 0 <= j < |ms| ==> MemberOk(ms[j]) && ms[j].key == names[j] && NumberOf(ms[j]) == vs[j]
  }

  lemma OneMoreInFront(m: Member, v: nat, more: seq<Member>, names: seq<Bytes>, vs: seq<nat>)
    requires names != [] && AreFields(more, names[1..], vs) && MemberOk(m) && m.key == names[0] && NumberOf(m) == v
    ensures AreFields([m] + more, names, [v] + vs)
  {
  }

  lemma TextInFront(m: Member, more: seq<Member>, tail: Bytes)
    requires more != []
    ensures TextOfMembers([m] + more, tail) == TextOfMember(m, [','] + TextOfMembers(more, tail))
  {
    assert ([m] + more)[1..] == more;
  }

  lemma LiteralsAfterFirst(keys: seq<Bytes>, names: seq<Bytes>, first: bool)
    requires |keys| == |names| > 0 && forall j :: 0 <= j < |keys| ==> IsLiteral(keys[j], names[j], first && j == 0)
    ensures forall j :: 0 <= j < |keys[1..]| ==> IsLiteral(keys[1..][j], names[1..][j], false && j == 0)
  {
    forall j | 0 <= j < |keys[1..]| ensures IsLiteral(keys[1..][j], names[1..][j], false) {
      assert IsLiteral(keys[j + 1], names[j + 1], first && j + 1 == 0);
    }
  }

  lemma FirstOfFields(s: Bytes, keys: seq<Bytes>)
    requires keys != [] && JsonbFields(s, keys).Some?
    ensures keys[0] <= s && Digits(s[|keys[0]|..]).Some?
    ensures var (v, s1) := Digits(s[|keys[0]|..]).value;
            var rest := JsonbFields(s1, keys[1..]);
            rest.Some? && JsonbFields(s, keys).value == ([v] + rest.value.0, rest.value.1)
  {
  }

  /** Literals with digits between them, and a closing brace, are members. */
  lemma {:induction false} FieldsText(s: Bytes, keys: seq<Bytes>, names: seq<Bytes>, first: bool, vs: seq<nat>,
      rest: Bytes) returns (ms: seq<Member>)
    requires |keys| == |names| > 0 && forall j :: 0 <= j < |keys| ==> IsLiteral(keys[j], names[j], first && j == 0)
    requires JsonbFields(s, keys) == Some((vs, rest)) && rest != [] && rest[0] == '}'
    ensures AreFields(ms, names, vs) && s == Opening(first) + TextOfMembers(ms, rest[1..])
    decreases |keys|
  {
    FirstOfFields(s, keys);
    assert IsLiteral(keys[0], names[0], first && 0 == 0);
    var m := FieldText(s, keys[0], names[0], first);
    var (v, s1) := Digits(s[|keys[0]|..]).value;
    if |keys| == 1 {
      ms := LastField(m, v, names, s1, keys[1..], rest);
    } else {
      LiteralsAfterFirst(keys, names, first);
      var more := FieldsText(s1, keys[1..], names[1..], false, JsonbFields(s1, keys[1..]).value.0, rest);
      ms := [m] + more;
      OneMoreInFront(m, v, more, names, JsonbFields(s1, keys[1..]).value.0);
      TextInFront(m, more, rest[1..]);
    }
  }

  lemma LastField(m: Member, v: nat, names: seq<Bytes>, s1: Bytes, keys: seq<Bytes>, rest: Bytes)
      returns (ms: seq<Member>)
    requires |names| == 1 && MemberOk(m) && m.key == names[0] && NumberOf(m) == v
    requires keys == [] && JsonbFields(s1, keys) == Some(([], rest)) && rest != [] && rest[0] == '}'
    ensures ms == [m] && AreFields(ms, names, [v] + []) && TextOfMembers(ms, rest[1..]) == TextOfMember(m, s1)
  {
    ms := [m];
    assert s1 == ['}'] + rest[1..];
  }

  lemma OneField(b: Block, ms: seq<Member>, j: nat)
    requires j < |ms| && forall i :: 0 <= i < |ms| ==> MemberOk(ms[i])
    ensures var b' := SetField(b, ms[j].key, NumberOf(ms[j]));
            b'.Some? && MeaningOfMembers(b, ms[j..]) == MeaningOfMembers(b'.value, ms[j + 1..])
  {
    SameKeys(b, ms[j].key, NumberOf(ms[j]));
    assert ms[j..][0] == ms[j] && ms[j..][1..] == ms[j + 1..];
  }

  /** Postgres's six fields give the block they name. */
  lemma SixFields(ms: seq<Member>, vs: seq<nat>)
    requires |vs| == 6 && AreFields(ms, NAMES, vs)
    ensures MeaningOfMembers(ZERO, ms) == Block(vs[5], vs[4], vs[2], vs[1], vs[3], vs[0])
  {
    GivenBlock(ms, Block(vs[5], vs[4], vs[2], vs[1], vs[3], vs[0]), [0, 1, 2, 3, 4, 5]);
  }

  /** Where the fast path takes a block, scanning key by key takes the same block and stops at the same place. */
  lemma FastPathAgrees(s: Bytes)
    requires JsonbBlock(s).Some?
    ensures GenericBlock(s) == JsonbBlock(s)
  {
    var w := SkippedIsBlank(s);
    forall j | 0 <= j < 6 ensures IsLiteral(JSONB_KEYS[j], NAMES[j], true && j == 0) {
      KeysAreLiterals(j);
    }
    var (vs, rest) := JsonbFields(SkipSpace(s), JSONB_KEYS).value;
    var ms := FieldsText(SkipSpace(s), JSONB_KEYS, NAMES, true, vs, rest);
    var o := Object(w, [], ms);
    GenericScansObject(o, JsonbBlock(s).value.1);
    SixFields(ms, vs);
  }

  lemma BlockIsGeneric(s: Bytes)
    ensures ScanBlock(s) == GenericBlock(s)
  {
    if JsonbBlock(s).Some? {
      FastPathAgrees(s);
    }
  }

  // ----- whole arrays

  lemma {:induction false} ScansItems(items: seq<Item>, rest: Bytes)
    requires items != [] && forall i :: 0 <= i < |items| ==> ObjectOk(items[i].obj) && Blank(items[i].after)
    ensures ScanItems(TextOfItems(items, rest)) == Some((MeaningOfItems(items), rest))
    decreases |items|
  {
    var o, after := items[0].obj, items[0].after;
    var last := |items| == 1;
    var tail := if last then rest else TextOfItems(items[1..], rest);
    var c := if last then ']' else ',';
    assert TextOfItems(items, rest) == TextOfObject(o, after + ([c] + tail));
    GenericScansObject(o, after + ([c] + tail));
    BlockIsGeneric(TextOfItems(items, rest));
    Takes(after, c, tail, ']');
    Takes(after, c, tail, ',');
    if last {
      assert MeaningOfItems(items) == [MeaningOfMembers(ZERO, o.members)];
    } else {
      ScansItems(items[1..], rest);
    }
  }

  /** Every text of the grammar is accepted, with its meaning. */
  lemma ScansEveryArray(a: Array)
    requires ArrayOk(a)
    ensures Scan(Text(a)) == Some(Meaning(a))
  {
    var inner := if a.items == [] then a.inside + ([']'] + a.after) else TextOfItems(a.items, a.after);
    Takes(a.lead, '[', inner, '[');
    if a.items == [] {
      Takes(a.inside, ']', a.after, ']');
    } else {
      NotClosed(a.items, a.after);
      ScansItems(a.items, a.after);
    }
    SkipsBlank(a.after, []);
    assert a.after + [] == a.after;
  }

  lemma NotClosed(items: seq<Item>, rest: Bytes)
    requires items != [] && ObjectOk(items[0].obj)
    ensures Take(TextOfItems(items, rest), ']') == None
  {
    var o := items[0].obj;
    var tail := items[0].after + (if |items| == 1 then [']'] + rest else [','] + TextOfItems(items[1..], rest));
    var inner := if o.members == [] then o.inside + (['}'] + tail) else TextOfMembers(o.members, tail);
    assert TextOfItems(items, rest) == o.lead + (['{'] + inner);
    Takes(o.lead, '{', inner, ']');
  }

  lemma {:induction false} ItemsText(s: Bytes) returns (items: seq<Item>)
    requires ScanItems(s).Some?
    ensures items != [] && forall i :: 0 <= i < |items| ==> ObjectOk(items[i].obj) && Blank(items[i].after)
    ensures ScanItems(s).value.0 == MeaningOfItems(items) && s == TextOfItems(items, ScanItems(s).value.1)
    decreases |s|
  {
    BlockIsGeneric(s);
    var o := GenericText(s);
    var s1 := ScanBlock(s).value.1;
    if Take(s1, ']').Some? {
      var w := TakenText(s1, ']');
      items := [Item(o, w)];
      assert items[1..] == [];
    } else {
      var w := TakenText(s1, ',');
      var more := ItemsText(Take(s1, ',').value);
      items := [Item(o, w)] + more;
      assert items[1..] == more;
    }
  }

  /** Whatever is accepted is a text of the grammar, and the blocks are its meaning. */
  lemma AcceptedIsAnArray(s: Bytes) returns (a: Array)
    requires Scan(s).Some?
    ensures ArrayOk(a) && Text(a) == s && Scan(s).value == Meaning(a)
  {
    var s1 := Take(s, '[').value;
    var lead := TakenText(s, '[');
    if Take(s1, ']').Some? {
      var s2 := Take(s1, ']').value;
      var inside := TakenText(s1, ']');
      var after := SkippedIsBlank(s2);
      assert after + [] == after;
      a := Array(lead, inside, [], after);
    } else {
      var items := ItemsText(s1);
      var s2 := ScanItems(s1).value.1;
      var after := SkippedIsBlank(s2);
      assert after + [] == after;
      a := Array(lead, [], items, after);
    }
  }

  /** The scanner accepts exactly the texts of the grammar. */
  lemma AcceptsExactlyArrays(s: Bytes, bs: seq<Block>)
    ensures Scan(s) == Some(bs) <==> exists a :: ArrayOk(a) && Text(a) == s && Meaning(a) == bs
  {
    if Scan(s) == Some(bs) {
      var a := AcceptedIsAnArray(s);
    }
    if a :| ArrayOk(a) && Text(a) == s && Meaning(a) == bs {
      ScansEveryArray(a);
    }
  }

  // ----- printed blocks

  lemma {:induction false} DecimalIsShort(n: nat, digits: nat, bound: nat)
    requires n < bound && bound == Power10(digits) && digits > 0
    ensures Value(Decimal(n)) == n && |Decimal(n)| <= digits && (|Decimal(n)| > 1 ==> Decimal(n)[0] != '0')
    ensures n > 0 ==> Decimal(n)[0] != '0'
    decreases n
  {
    if n >= 10 {
      assert bound == 10 * Power10(digits - 1);
      assert digits > 1;
      DecimalIsShort(n / 10, digits - 1, Power10(digits - 1));
      assert Decimal(n)[..|Decimal(n)| - 1] == Decimal(n / 10);
    } else {
      assert Decimal(n)[..0] == [];
    }
  }

  function Power10(k: nat): nat {
    if k == 0 then 1 else 10 * Power10(k - 1)
  }

  /** A field an int scanned exactly can hold: at most 18 digits. */
  predicate Exact(v: int) {
    0 - (Power10(MAX_INT_DIGITS) as int) < v < Power10(MAX_INT_DIGITS)
  }

  function Field(b: Block, k: nat): int
    requires k < 6
  {
    [b.count, b.endCol, b.endLine, b.numStmts, b.startCol, b.startLine][k]
  }

  function PrintedMember(b: Block, k: nat, lead: Bytes, colon: Bytes): Member
    requires k < 6
  {
    var v := Field(b, k);
    Member(lead, NAMES[k], [], colon, v < 0, Decimal(if v < 0 then 0 - v else v), [])
  }

  /** The members of a block printed with its keys in a given order and spacing. */
  function PrintedMembers(b: Block, order: seq<nat>, gap: Bytes): seq<Member>
    requires forall i :: 0 <= i < |order| ==> order[i] < 6
  {
    seq(|order|, i requires 0 <= i < |order| => PrintedMember(b, order[i], if i == 0 then [] else gap, gap))
  }

  function Printed(bs: seq<Block>, order: seq<nat>, gap: Bytes): Array
    requires forall i :: 0 <= i < |order| ==> order[i] < 6
  {
    Array([], [], seq(|bs|, i requires 0 <= i < |bs| =>
        Item(Object(if i == 0 then [] else gap, [], PrintedMembers(bs[i], order, gap)), [])), [])
  }

  /** Every key once. */
  predicate KeyOrder(order: seq<nat>) {
    (forall i :: 0 <= i < |order| ==> order[i] < 6) && forall k: nat :: k < 6 ==> k in order
  }

  lemma PrintedMemberOk(b: Block, k: nat, lead: Bytes, colon: Bytes)
    requires k < 6 && Exact(Field(b, k)) && Blank(lead) && Blank(colon)
    ensures var m := PrintedMember(b, k, lead, colon); MemberOk(m) && NumberOf(m) == Field(b, k)
  {
    var v := Field(b, k);
    DecimalIsShort(if v < 0 then 0 - v else v, MAX_INT_DIGITS, Power10(MAX_INT_DIGITS));
    NamesAreKeys(k);
  }

  lemma SetsOneField(b: Block, k: nat, v: int, j: nat)
    requires k < 6 && j < 6
    ensures var r := SetField(b, NAMES[k], v); r.Some? && Field(r.value, j) == if j == k then v else Field(b, j)
  {
  }

  /** The members give the block's fields, named in this order. */
  ghost predicate GivesFields(ms: seq<Member>, b: Block, order: seq<nat>) {
    |ms| == |order| && forall i :: 0 <= i < |ms| ==>
        order[i] < 6 && MemberOk(ms[i]) && ms[i].key == NAMES[order[i]] && NumberOf(ms[i]) == Field(b, order[i])
  }

  lemma {:induction false} GivenFields(ms: seq<Member>, b: Block, order: seq<nat>, n: nat, sofar: Block, j: nat)
    requires GivesFields(ms, b, order) && n <= |ms| && j < 6
    ensures Field(MeaningOfMembers(sofar, ms[n..]), j) == if j in order[n..] then Field(b, j) else Field(sofar, j)
    decreases |ms| - n
  {
    if n < |ms| {
      OneField(sofar, ms, n);
      SetsOneField(sofar, order[n], NumberOf(ms[n]), j);
      GivenFields(ms, b, order, n + 1, SetField(sofar, ms[n].key, NumberOf(ms[n])).value, j);
      assert order[n..] == [order[n]] + order[n + 1..];
    }
  }

  lemma PrintedMembersGive(b: Block, order: seq<nat>, gap: Bytes)
    requires KeyOrder(order) && Blank(gap) && forall k: nat :: k < 6 ==> Exact(Field(b, k))
    ensures GivesFields(PrintedMembers(b, order, gap), b, order)
  {
    forall i | 0 <= i < |order|
      ensures var m := PrintedMember(b, order[i], if i == 0 then [] else gap, gap);
              MemberOk(m) && NumberOf(m) == Field(b, order[i])
    {
      PrintedMemberOk(b, order[i], if i == 0 then [] else gap, gap);
    }
  }

  lemma SameFields(a: Block, b: Block)
    requires forall j: nat :: j < 6 ==> Field(a, j) == Field(b, j)
    ensures a == b
  {
    assert Field(a, 0) == Field(b, 0) && Field(a, 1) == Field(b, 1) && Field(a, 2) == Field(b, 2);
    assert Field(a, 3) == Field(b, 3) && Field(a, 4) == Field(b, 4) && Field(a, 5) == Field(b, 5);
  }

  /** Members that give all of a block's fields mean that block. */
  lemma GivenBlock(ms: seq<Member>, b: Block, order: seq<nat>)
    requires GivesFields(ms, b, order) && KeyOrder(order)
    ensures MeaningOfMembers(ZERO, ms) == b
  {
    assert ms[0..] == ms && order[0..] == order;
    forall j: nat | j < 6 ensures Field(MeaningOfMembers(ZERO, ms), j) == Field(b, j) {
      GivenFields(ms, b, order, 0, ZERO, j);
    }
    SameFields(MeaningOfMembers(ZERO, ms), b);
  }

  lemma PrintedBlock(b: Block, order: seq<nat>, gap: Bytes)
    requires KeyOrder(order) && Blank(gap) && forall k: nat :: k < 6 ==> Exact(Field(b, k))
    ensures var ms := PrintedMembers(b, order, gap);
            (forall i :: 0 <= i < |ms| ==> MemberOk(ms[i])) && MeaningOfMembers(ZERO, ms) == b
  {
    var ms := PrintedMembers(b, order, gap);
    PrintedMembersGive(b, order, gap);
    GivenBlock(ms, b, order);
  }

  lemma {:induction false} ItemsMeaning(items: seq<Item>, bs: seq<Block>)
    requires |items| == |bs| && forall i :: 0 <= i < |items| ==>
             ObjectOk(items[i].obj) && MeaningOfMembers(ZERO, items[i].obj.members) == bs[i]
    ensures MeaningOfItems(items) == bs
  {
    if items != [] {
      ItemsMeaning(items[1..], bs[1..]);
      assert bs == [bs[0]] + bs[1..];
    }
  }

  /**
    Scanning a printed list of blocks gives the list back: with the keys in any
    order and any white space after commas and colons, so in particular as
    `encoding/json` prints them and as Postgres does.
  */
  lemma PrintedBlocksScanBack(bs: seq<Block>, order: seq<nat>, gap: Bytes)
    requires KeyOrder(order) && Blank(gap)
    requires forall i :: 0 <= i < |bs| ==> forall k: nat :: k < 6 ==> Exact(Field(bs[i], k))
    ensures Scan(Text(Printed(bs, order, gap))) == Some(bs)
  {
    var a := Printed(bs, order, gap);
    forall i | 0 <= i < |bs|
      ensures ObjectOk(a.items[i].obj) && MeaningOfMembers(ZERO, a.items[i].obj.members) == bs[i]
    {
      PrintedBlock(bs[i], order, gap);
    }
    ItemsMeaning(a.items, bs);
    ScansEveryArray(a);
  }

  // ----- the scanner itself, a cursor over the bytes

  /** A result with more elements found before it. */
  function Before<T>(first: seq<T>, r: Option<(seq<T>, Bytes)>): Option<(seq<T>, Bytes)> {
    match r case None => None case Some(found) => Some((first + found.0, found.1))
  }

  lemma BeforeNothing<T>(r: Option<(seq<T>, Bytes)>)
    ensures Before([], r) == r
  {
    if r.Some? {
      assert [] + r.value.0 == r.value.0;
    }
  }

  lemma BeforeMore<T>(first: seq<T>, x: T, r: Option<(seq<T>, Bytes)>)
    ensures Before(first, Before([x], r)) == Before(first + [x], r)
  {
    if r.Some? {
      assert first + ([x] + r.value.0) == first + [x] + r.value.0;
    }
  }

  /** Digits taken one by one, onto a value so far. */
  function DigitScan(v: nat, s: Bytes): (nat, Bytes)
    decreases |s|
  {
    if s != [] && IsDigit(s[0]) then DigitScan(10 * v + (s[0] as nat - '0' as nat), s[1..]) else (v, s)
  }

  lemma ValueOneMore(d: Bytes, c: Byte)
    requires AllDigits(d) && IsDigit(c)
    ensures AllDigits(d + [c]) && Value(d + [c]) == 10 * Value(d) + (c as nat - '0' as nat)
  {
    assert (d + [c])[..|d|] == d;
  }

  lemma FirstThenRest(d: Bytes, s: Bytes, r: Bytes)
    requires s != [] && |r| < |s|
    ensures d + ([s[0]] + r) == d + [s[0]] + r && s[1..][|r|..] == s[|r| + 1..]
  {
  }

  lemma OneDigitOff(d: Bytes, s: Bytes)
    requires s != [] && IsDigit(s[0])
    ensures d + DigitRun(s) == d + [s[0]] + DigitRun(s[1..])
    ensures s[|DigitRun(s)|..] == s[1..][|DigitRun(s[1..])|..]
  {
    var r := DigitRun(s[1..]);
    assert DigitRun(s) == [s[0]] + r;
    FirstThenRest(d, s, r);
  }

  lemma NoDigitOff(d: Bytes, s: Bytes)
    requires s == [] || !IsDigit(s[0])
    ensures DigitRun(s) == [] && d + DigitRun(s) == d && s[|DigitRun(s)|..] == s
  {
  }

  /** Scanning on from the digits `d` comes to the value of the `whole` run. */
  lemma {:induction false} ScanIsRun(d: Bytes, v: nat, s: Bytes, whole: Bytes)
    requires AllDigits(d) && v == Value(d) && AllDigits(whole) && whole == d + DigitRun(s)
    ensures DigitScan(v, s) == (Value(whole), s[|DigitRun(s)|..])
    decreases |s|
  {
    if s != [] && IsDigit(s[0]) {
      ValueOneMore(d, s[0]);
      OneDigitOff(d, s);
      ScanIsRun(d + [s[0]], 10 * v + (s[0] as nat - '0' as nat), s[1..], whole);
    } else {
      NoDigitOff(d, s);
    }
  }

  lemma DigitsTaken(all: Bytes, v: nat, left: Bytes)
    requires DigitScan(0, all) == (v, left)
    ensures |left| <= |all|
    ensures var n := |all| - |left|;
            Digits(all) == if n == 0 || n > MAX_INT_DIGITS || (n > 1 && all[0] == '0') then None else Some((v, left))
  {
    assert [] + DigitRun(all) == DigitRun(all);
    ScanIsRun([], 0, all, DigitRun(all));
  }

  /** A key taken byte by byte, onto what is read so far. */
  function KeyScan(read: Bytes, s: Bytes): Option<(Bytes, Bytes)>
    decreases |s|
  {
    if s == [] then None
    else if s[0] == '"' then Some((read, s[1..]))
    else if s[0] == '\\' || s[0] < ' ' then None
    else KeyScan(read + [s[0]], s[1..])
  }

  lemma {:induction false} KeyScanIsRest(read: Bytes, s: Bytes)
    ensures KeyScan(read, s) == Before(read, KeyRest(s))
    decreases |s|
  {
    if s != [] && s[0] == '"' {
      assert read + [] == read;
    } else if s != [] && s[0] != '\\' && s[0] >= ' ' {
      KeyScanIsRest(read + [s[0]], s[1..]);
      BeforeMore(read, s[0], KeyRest(s[1..]));
    }
  }

  lemma NextByte(data: Bytes, start: nat, i: nat)
    requires start <= i < |data|
    ensures data[i..][0] == data[i] && data[i..][1..] == data[i + 1..]
    ensures data[start..i + 1] == data[start..i] + [data[i]]
  {
  }

  ghost predicate FieldsRead(all: Bytes, keys: seq<Bytes>, v: seq<nat>, left: Bytes) {
    |v| <= |keys| && JsonbFields(all, keys) == Before(v, JsonbFields(left, keys[|v|..]))
  }

  lemma OneMoreField(all: Bytes, keys: seq<Bytes>, v: seq<nat>, afterKey: Bytes, n: nat, s1: Bytes)
    requires |v| < |keys| && FieldsRead(all, keys, v, keys[|v|] + afterKey) && Digits(afterKey) == Some((n, s1))
    ensures FieldsRead(all, keys, v + [n], s1)
  {
    var k := |v|;
    assert keys[k..][0] == keys[k] && keys[k..][1..] == keys[k + 1..];
    assert (keys[k] + afterKey)[|keys[k]|..] == afterKey;
    BeforeMore(v, n, JsonbFields(s1, keys[k + 1..]));
  }

  lemma NoMoreFields(all: Bytes, keys: seq<Bytes>, v: seq<nat>, left: Bytes)
    requires |v| < |keys| && FieldsRead(all, keys, v, left)
    requires !(keys[|v|] <= left) || Digits(left[|keys[|v|]|..]) == None
    ensures JsonbFields(all, keys) == None
  {
    assert keys[|v|..][0] == keys[|v|];
  }

  lemma AllFieldsRead(all: Bytes, keys: seq<Bytes>, v: seq<nat>, left: Bytes)
    requires |v| == |keys| && FieldsRead(all, keys, v, left)
    ensures JsonbFields(all, keys) == Some((v, left))
  {
    assert keys[|keys|..] == [];
    assert v + [] == v;
  }

  ghost predicate ItemsRead(all: Bytes, blocks: seq<Block>, left: Bytes) {
    ScanItems(all) == Before(blocks, ScanItems(left))
  }

  lemma OneMoreItem(all: Bytes, blocks: seq<Block>, left: Bytes, b: Block, s1: Bytes)
    requires ItemsRead(all, blocks, left) && ScanBlock(left) == Some((b, s1))
    ensures Take(s1, ']').Some? ==> ScanItems(all) == Some((blocks + [b], Take(s1, ']').value))
    ensures Take(s1, ']').None? && Take(s1, ',').Some? ==> ItemsRead(all, blocks + [b], Take(s1, ',').value)
    ensures Take(s1, ']').None? && Take(s1, ',').None? ==> ScanItems(all) == None
  {
    if Take(s1, ']').None? && Take(s1, ',').Some? {
      BeforeMore(blocks, b, ScanItems(Take(s1, ',').value));
    }
  }

  class BlockScanner {
    const data: Bytes
    var i: nat

    constructor (data: Bytes)
      ensures this.data == data && i == 0
    {
      this.data := data;
      i := 0;
    }

    predicate Valid()
      reads this
    {
      i <= |data|
    }

    /** The bytes still to scan. */
    function Left(): Bytes
      reads this
      requires Valid()
    {
      data[i..]
    }

    method Space()
      requires Valid()
      modifies this
      ensures Valid() && old(i) <= i && Left() == SkipSpace(old(Left()))
    {
      while i < |data|
        invariant Valid() && old(i) <= i && SkipSpace(Left()) == SkipSpace(old(Left()))
      {
        if !IsSpace(data[i]) {
          return;
        }
        assert Left()[1..] == data[i + 1..];
        i := i + 1;
      }
    }

    method TakeByte(c: Byte) returns (ok: bool)
      requires Valid()
      modifies this
      ensures Valid() && old(i) <= i
      ensures ok == Take(old(Left()), c).Some?
      ensures Left() == if ok then Take(old(Left()), c).value else SkipSpace(old(Left()))
    {
      Space();
      if i < |data| && data[i] == c {
        i := i + 1;
        return true;
      }
      return false;
    }

    /** The digits right here, and their value. */
    method TakeDigits() returns (v: nat)
      requires Valid()
      modifies this
      ensures Valid() && old(i) <= i && (v, Left()) == DigitScan(0, old(Left()))
    {
      v := 0;
      while i < |data| && IsDigit(data[i])
        invariant old(i) <= i <= |data| && DigitScan(v, Left()) == DigitScan(0, old(Left()))
      {
        NextByte(data, old(i), i);
        v := v * 10 + (data[i] as nat - '0' as nat);
        i := i + 1;
      }
    }

    method ScanDigits() returns (v: nat, ok: bool)
      requires Valid()
      modifies this
      ensures Valid() && old(i) <= i
      ensures ok == Digits(old(Left())).Some?
      ensures ok ==> (v, Left()) == Digits(old(Left())).value
    {
      var start := i;
      v := TakeDigits();
      DigitsTaken(old(Left()), v, Left());
      var n := i - start;
      if n == 0 || n > MAX_INT_DIGITS || (n > 1 && data[start] == '0') {
        return 0, false;
      }
      return v, true;
    }

    method ScanInt() returns (v: int, ok: bool)
      requires Valid()
      modifies this
      ensures Valid() && old(i) <= i
      ensures ok == Int(old(Left())).Some?
      ensures ok ==> (v, Left()) == Int(old(Left())).value
    {
      var negative := TakeByte('-');
      var n, scanned := ScanDigits();
      v, ok := n, scanned;
      if negative {
        v := 0 - v;
      }
    }

    /** The rest of a key, past its opening quote. */
    method ScanKeyRest() returns (key: Bytes, ok: bool)
      requires Valid()
      modifies this
      ensures Valid() && old(i) <= i
      ensures ok == KeyRest(old(Left())).Some?
      ensures ok ==> (key, Left()) == KeyRest(old(Left())).value
    {
      KeyScanIsRest([], Left());
      BeforeNothing(KeyRest(Left()));
      key, ok := TakeKey();
    }

    /** The bytes up to the closing quote. */
    method TakeKey() returns (key: Bytes, ok: bool)
      requires Valid()
      modifies this
      ensures Valid() && old(i) <= i
      ensures ok == KeyScan([], old(Left())).Some?
      ensures ok ==> (key, Left()) == KeyScan([], old(Left())).value
    {
      var start := i;
      assert data[start..start] == [];
      while i < |data|
        invariant start <= i <= |data| && KeyScan(data[start..i], Left()) == KeyScan([], old(Left()))
      {
        var c := data[i];
        NextByte(data, start, i);
        if c == '"' {
          key := data[start..i];
          i := i + 1;
          return key, true;
        } else if c == '\\' || c < ' ' {
          return [], false;
        }
        i := i + 1;
      }
      return [], false;
    }

    method ScanKey() returns (key: Bytes, ok: bool)
      requires Valid()
      modifies this
      ensures Valid() && old(i) <= i
      ensures ok == Key(old(Left())).Some?
      ensures ok ==> (key, Left()) == Key(old(Left())).value
    {
      var quoted := TakeByte('"');
      if !quoted {
        return [], false;
      }
      key, ok := ScanKeyRest();
    }

    /** The literals in turn, each with the digits that follow it. */
    method ScanFields(keys: seq<Bytes>) returns (v: seq<nat>, ok: bool)
      requires Valid()
      modifies this
      ensures Valid() && old(i) <= i
      ensures ok == JsonbFields(old(Left()), keys).Some?
      ensures ok ==> (v, Left()) == JsonbFields(old(Left()), keys).value
    {
      v := [];
      ghost var all := Left();
      assert keys[0..] == keys;
      BeforeNothing(JsonbFields(all, keys));
      for k := 0 to |keys|
        invariant Valid() && old(i) <= i && |v| == k && FieldsRead(all, keys, v, Left())
      {
        if !(keys[k] <= data[i..]) {
          NoMoreFields(all, keys, v, Left());
          return v, false;
        }
        ghost var afterKey := data[i + |keys[k]|..];
        assert data[i..] == keys[k] + afterKey && data[i..][|keys[k]|..] == afterKey;
        ghost var left := Left();
        i := i + |keys[k]|;
        assert Left() == afterKey;
        var n, scanned := ScanDigits();
        if !scanned {
          NoMoreFields(all, keys, v, left);
          return v, false;
        }
        OneMoreField(all, keys, v, afterKey, n, Left());
        v := v + [n];
      }
      AllFieldsRead(all, keys, v, Left());
      ok := true;
    }

    /** The literals and digits, then the closing brace. */
    method ScanClosedFields(keys: seq<Bytes>) returns (v: seq<nat>, ok: bool)
      requires Valid()
      modifies this
      ensures Valid() && old(i) <= i
      ensures ok == ClosedFields(old(Left()), keys).Some?
      ensures ok ==> (v, Left()) == ClosedFields(old(Left()), keys).value
    {
      v, ok := ScanFields(keys);
      if !ok || i >= |data| || data[i] != '}' {
        return v, false;
      }
      i := i + 1;
    }

    /** The fast path; on any other layout the cursor goes back past the white space. */
    method ScanJsonb(keys: seq<Bytes>) returns (b: Block, ok: bool)
      requires Valid() && |keys| == 6
      modifies this
      ensures Valid() && old(i) <= i
      ensures ok == FieldsBlock(old(Left()), keys).Some?
      ensures ok ==> (b, Left()) == FieldsBlock(old(Left()), keys).value
      ensures !ok ==> Left() == SkipSpace(old(Left()))
    {
      Space();
      var start := i;
      var v;
      v, ok := ScanClosedFields(keys);
      if !ok {
        i := start;
        return ZERO, false;
      }
      return Block(v[5], v[4], v[2], v[1], v[3], v[0]), true;
    }

    method ScanMember(start: Block) returns (b: Block, ok: bool)
      requires Valid()
      modifies this
      ensures Valid() && old(i) <= i
      ensures ok == OneMember(old(Left()), start).Some?
      ensures ok ==> (b, Left()) == OneMember(old(Left()), start).value
    {
      b := start;
      var key, keyed := ScanKey();
      if !keyed {
        return b, false;
      }
      var colon := TakeByte(':');
      if !colon {
        return b, false;
      }
      var v, scanned := ScanInt();
      if !scanned {
        return b, false;
      }
      var next := SetField(b, key, v);
      if next.None? {
        return b, false;
      }
      return next.value, true;
    }

    method ScanMembers() returns (b: Block, ok: bool)
      requires Valid()
      modifies this
      ensures Valid() && old(i) <= i
      ensures ok == Members(old(Left()), ZERO).Some?
      ensures ok ==> (b, Left()) == Members(old(Left()), ZERO).value
    {
      b := ZERO;
      while true
        invariant Valid() && old(i) <= i && Members(old(Left()), ZERO) == Members(Left(), b)
        decreases |data| - i
      {
        b, ok := ScanMember(b);
        if !ok {
          return;
        }
        ghost var s3 := Left();
        var comma := TakeByte(',');
        if !comma {
          SkipTwice(s3);
          ok := TakeByte('}');
          return;
        }
      }
    }

    method ScanOneBlock() returns (b: Block, ok: bool)
      requires Valid()
      modifies this
      ensures Valid() && old(i) <= i
      ensures ok == ScanBlock(old(Left())).Some?
      ensures ok ==> (b, Left()) == ScanBlock(old(Left())).value
    {
      b, ok := ScanJsonb(JSONB_KEYS);
      if ok {
        return;
      }
      SkipTwice(old(Left()));
      b := ZERO;
      ok := TakeByte('{');
      if !ok {
        return;
      }
      ghost var s1 := Left();
      ok := TakeByte('}');
      if ok {
        return;
      }
      SkipTwice(s1);
      b, ok := ScanMembers();
    }

    /** Blocks with commas between them, up to the closing bracket. */
    method ScanItemList() returns (blocks: seq<Block>, ok: bool)
      requires Valid()
      modifies this
      ensures Valid() && old(i) <= i
      ensures ok == ScanItems(old(Left())).Some?
      ensures ok ==> (blocks, Left()) == ScanItems(old(Left())).value
    {
      blocks := [];
      ghost var all := Left();
      BeforeNothing(ScanItems(all));
      while true
        invariant Valid() && old(i) <= i && ItemsRead(all, blocks, Left())
        decreases |data| - i
      {
        ghost var left := Left();
        var b, scanned := ScanOneBlock();
        if !scanned {
          return blocks, false;
        }
        ghost var afterBlock := Left();
        OneMoreItem(all, blocks, left, b, afterBlock);
        SkipTwice(afterBlock);
        blocks := blocks + [b];
        var last := TakeByte(']');
        if last {
          return blocks, true;
        }
        var comma := TakeByte(',');
        if !comma {
          return blocks, false;
        }
      }
    }
  }

  lemma {:induction false} SkipsAll(s: Bytes)
    ensures SkipSpace(SkipSpace(s)) == SkipSpace(s)
  {
    if s != [] && IsSpace(s[0]) {
      SkipsAll(s[1..]);
    }
  }

  /** Skipping white space twice is skipping it once, so a byte not taken can still be looked for. */
  lemma SkipTwice(s: Bytes)
    ensures SkipSpace(SkipSpace(s)) == SkipSpace(s)
    ensures forall c :: Take(SkipSpace(s), c) == Take(s, c)
    ensures GenericBlock(SkipSpace(s)) == GenericBlock(s)
    ensures forall b :: Members(SkipSpace(s), b) == Members(s, b)
  {
    SkipsAll(s);
    assert Take(SkipSpace(s), '"') == Take(s, '"');
    forall b ensures Members(SkipSpace(s), b) == Members(s, b) {
      MembersAfter(s, SkipSpace(s), b);
    }
  }

  lemma MembersAfter(s: Bytes, t: Bytes, b: Block)
    requires Take(t, '"') == Take(s, '"')
    ensures Members(t, b) == Members(s, b)
  {
    assert Key(t) == Key(s);
    assert OneMember(t, b) == OneMember(s, b);
  }

  lemma EmptyArrayScanned(data: Bytes, s1: Bytes, s2: Bytes)
    requires Take(data, '[') == Some(s1) && Take(s1, ']') == Some(s2)
    ensures Scan(data) == if SkipSpace(s2) == [] then Some([]) else None
  {
  }

  lemma ItemsScanned(data: Bytes, s1: Bytes, items: Option<(seq<Block>, Bytes)>)
    requires Take(data, '[') == Some(s1) && Take(s1, ']') == None && items == ScanItems(s1)
    ensures Scan(data) == if items.Some? && SkipSpace(items.value.1) == [] then Some(items.value.0) else None
  {
  }

  method ScanBlocks(data: Bytes) returns (r: Option<seq<Block>>)
    ensures r == Scan(data)
  {
    var s := new BlockScanner(data);
    assert s.Left() == data;
    var open := s.TakeByte('[');
    if !open {
      return None;
    }
    ghost var s1 := s.Left();
    var blocks: seq<Block> := [];
    var closed := s.TakeByte(']');
    if closed {
      EmptyArrayScanned(data, s1, s.Left());
    } else {
      SkipTwice(s1);
      SameItems(s1);
      ItemsScanned(data, s1, ScanItems(s.Left()));
      var ok;
      blocks, ok := s.ScanItemList();
      if !ok {
        return None;
      }
    }
    s.Space();
    if s.i == |s.data| {
      return Some(blocks);
    }
    return None;
  }

  lemma SameItems(s: Bytes)
    ensures ScanItems(SkipSpace(s)) == ScanItems(s)
  {
    SkipTwice(s);
    BlockIsGeneric(s);
    BlockIsGeneric(SkipSpace(s));
  }
}
