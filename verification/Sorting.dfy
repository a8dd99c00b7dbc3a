/**
  Go's sorting of slices as a specification: a sort is any rearrangement that
  is ordered. Where the order has no ties that fixes the result.
*/
module Sorting {

  ghost predicate TotalOrder<T(!new)>(le: (T, T) -> bool) {
    && (forall a, b :: le(a, b) || le(b, a))
    && (forall a, b, c :: le(a, b) && le(b, c) ==> le(a, c))
  }

  ghost predicate NoTies<T(!new)>(le: (T, T) -> bool) {
    forall a, b :: le(a, b) && le(b, a) ==> a == b
  }

  ghost predicate Ordered<T>(s: seq<T>, le: (T, T) -> bool) {
    forall i, j :: 0 <= i < j < |s| ==> le(s[i], s[j])
  }

  ghost predicate IsSortOf<T>(r: seq<T>, s: seq<T>, le: (T, T) -> bool) {
    multiset(r) == multiset(s) && Ordered(r, le)
  }

  function Insert<T>(x: T, s: seq<T>, le: (T, T) -> bool): seq<T> {
    if s == [] || le(x, s[0]) then [x] + s else [s[0]] + Insert(x, s[1..], le)
  }

  function Sort<T>(s: seq<T>, le: (T, T) -> bool): seq<T> {
    if s == [] then [] else Insert(s[0], Sort(s[1..], le), le)
  }

  lemma LeadsAll<T>(first: T, r: seq<T>, x: T, rest: seq<T>, le: (T, T) -> bool)
    requires multiset(r) == multiset{x} + multiset(rest)
    requires le(first, x) && forall y :: y in rest ==> le(first, y)
    ensures forall j :: 0 <= j < |r| ==> le(first, r[j])
  {
    forall j | 0 <= j < |r| ensures le(first, r[j]) {
      assert r[j] in multiset(r);
    }
  }

  lemma {:induction false} InsertSorts<T(!new)>(x: T, s: seq<T>, le: (T, T) -> bool)
    requires TotalOrder(le) && Ordered(s, le)
    ensures multiset(Insert(x, s, le)) == multiset{x} + multiset(s)
    ensures Ordered(Insert(x, s, le), le)
  {
    if s != [] {
      assert s == [s[0]] + s[1..];
      if !le(x, s[0]) {
        InsertSorts(x, s[1..], le);
        LeadsAll(s[0], Insert(x, s[1..], le), x, s[1..], le);
        OrderedAfter(s[0], Insert(x, s[1..], le), le);
      } else {
        LeadsAll(x, s, s[0], s[1..], le);
        OrderedAfter(x, s, le);
      }
    }
  }

  lemma OrderedAfter<T>(first: T, r: seq<T>, le: (T, T) -> bool)
    requires Ordered(r, le) && forall j :: 0 <= j < |r| ==> le(first, r[j])
    ensures Ordered([first] + r, le)
  {
  }

  lemma {:induction false} SortSorts<T(!new)>(s: seq<T>, le: (T, T) -> bool)
    requires TotalOrder(le)
    ensures IsSortOf(Sort(s, le), s, le)
  {
    if s != [] {
      SortSorts(s[1..], le);
      InsertSorts(s[0], Sort(s[1..], le), le);
      assert s == [s[0]] + s[1..];
    }
  }

  lemma SameElements<T>(a: seq<T>, b: seq<T>)
    requires multiset(a) == multiset(b)
    ensures |a| == |b| && forall x :: x in a <==> x in b
  {
    assert |multiset(a)| == |a| && |multiset(b)| == |b|;
    assert forall x :: (x in a <==> x in multiset(a)) && (x in b <==> x in multiset(b));
  }

  lemma FirstIsLeast<T(!new)>(a: seq<T>, x: T, le: (T, T) -> bool)
    requires TotalOrder(le) && Ordered(a, le) && x in a
    ensures le(a[0], x)
  {
    assert le(x, x);
  }

  lemma WithoutFirst<T>(s: seq<T>)
    requires s != []
    ensures s == [s[0]] + s[1..] && multiset(s[1..]) == multiset(s) - multiset{s[0]}
  {
    assert s == [s[0]] + s[1..];
  }

  /** An order without ties sorts a collection in one way only. */
  lemma {:induction false} SortIsUnique<T(!new)>(a: seq<T>, b: seq<T>, le: (T, T) -> bool)
    requires NoTies(le) && TotalOrder(le)
    requires multiset(a) == multiset(b) && Ordered(a, le) && Ordered(b, le)
    ensures a == b
  {
    SameElements(a, b);
    if a != [] {
      FirstIsLeast(a, b[0], le);
      FirstIsLeast(b, a[0], le);
      WithoutFirst(a);
      WithoutFirst(b);
      SortIsUnique(a[1..], b[1..], le);
    }
  }

  lemma SortOfOrdered<T(!new)>(s: seq<T>, le: (T, T) -> bool)
    requires NoTies(le) && TotalOrder(le) && Ordered(s, le)
    ensures Sort(s, le) == s
  {
    SortSorts(s, le);
    SortIsUnique(Sort(s, le), s, le);
  }

  ghost predicate Distinct<T>(s: seq<T>) {
    forall i, j :: 0 <= i < j < |s| ==> s[i] != s[j]
  }

  lemma {:induction false} DistinctCounts<T>(s: seq<T>)
    ensures Distinct(s) <==> forall x :: multiset(s)[x] <= 1
  {
    if s != [] {
      var rest := s[1..];
      assert s == [s[0]] + rest;
      DistinctCounts(rest);
      assert multiset(s) == multiset{s[0]} + multiset(rest);
      assert s[0] in rest <==> multiset(rest)[s[0]] >= 1;
      if Distinct(rest) && s[0] !in rest {
        assert forall x :: x != s[0] ==> multiset(s)[x] == multiset(rest)[x];
      } else if s[0] in rest {
        var j :| 0 <= j < |rest| && rest[j] == s[0];
        assert s[j + 1] == s[0] && multiset(s)[s[0]] >= 2;
      } else {
        var i, j :| 0 <= i < j < |rest| && rest[i] == rest[j];
        assert s[i + 1] == s[j + 1];
        var x :| multiset(rest)[x] > 1;
        assert multiset(s)[x] > 1;
      }
    }
  }

  lemma OneMoreAfter<T>(before: seq<T>, s: seq<T>, n: nat)
    requires n < |s|
    ensures before + s[..n + 1] == before + s[..n] + [s[n]]
  {
  }

  lemma SubsetSize<T>(a: set<T>, b: set<T>)
    requires a <= b
    ensures |a| <= |b| && |b - a| == |b| - |a|
  {
    assert b == a + (b - a);
  }

  lemma OneMore<T>(s: seq<T>, n: nat)
    requires n < |s|
    ensures s[..n + 1] == s[..n] + [s[n]]
  {
  }

  /** The next element of a list without repeats is a new one. */
  lemma NextIsNew<T>(s: seq<T>, i: nat)
    requires Distinct(s) && i < |s|
    ensures s[..i + 1] == s[..i] + [s[i]] && s[i] in s && s[i] !in s[..i]
  {
  }

  /** Rearranging keeps elements distinct. */
  lemma SameDistinct<T>(a: seq<T>, b: seq<T>)
    requires multiset(a) == multiset(b)
    ensures Distinct(a) <==> Distinct(b)
  {
    DistinctCounts(a);
    DistinctCounts(b);
  }

  /** What the elements weigh together. */
  function Weight<T>(s: seq<T>, w: T -> int): int {
    if s == [] then 0 else w(s[0]) + Weight(s[1..], w)
  }

  lemma {:induction false} WeightSplit<T>(a: seq<T>, b: seq<T>, w: T -> int)
    ensures Weight(a + b, w) == Weight(a, w) + Weight(b, w)
    decreases |a|
  {
    if a == [] {
      assert a + b == b;
    } else {
      assert (a + b)[1..] == a[1..] + b;
      WeightSplit(a[1..], b, w);
    }
  }

  lemma WeightOneMore<T>(s: seq<T>, x: T, w: T -> int)
    ensures Weight(s + [x], w) == Weight(s, w) + w(x)
  {
    WeightSplit(s, [x], w);
  }

  lemma Middle<T>(s: seq<T>, i: nat)
    requires i < |s|
    ensures s[..i] + [s[i]] + s[i + 1..] == s
  {
  }

  lemma BagOfMiddle<T>(before: seq<T>, mid: seq<T>, after: seq<T>)
    ensures multiset(before + mid + after) == multiset(mid) + multiset(before + after)
  {
  }

  lemma WeightWithout<T>(s: seq<T>, i: nat, w: T -> int)
    requires i < |s|
    ensures Weight(s, w) == w(s[i]) + Weight(s[..i] + s[i + 1..], w)
  {
    Middle(s, i);
    WeightSplit(s[..i] + [s[i]], s[i + 1..], w);
    WeightSplit(s[..i], [s[i]], w);
    WeightSplit(s[..i], s[i + 1..], w);
  }

  lemma WithoutOne<T>(s: seq<T>, i: nat)
    requires i < |s|
    ensures multiset(s[..i] + s[i + 1..]) == multiset(s) - multiset{s[i]}
  {
    Middle(s, i);
    BagOfMiddle(s[..i], [s[i]], s[i + 1..]);
  }

  /** Taking the first of one arrangement out of both leaves two arrangements of the same. */
  lemma RestIsSame<T>(a: seq<T>, b: seq<T>) returns (i: nat)
    requires multiset(a) == multiset(b) && a != []
    ensures i < |b| && b[i] == a[0] && multiset(a[1..]) == multiset(b[..i] + b[i + 1..])
  {
    SameElements(a, b);
    assert a[0] in b;
    i :| 0 <= i < |b| && b[i] == a[0];
    WithoutFirst(a);
    WithoutOne(b, i);
  }

  lemma {:induction false} WeightIgnoresOrder<T>(a: seq<T>, b: seq<T>, w: T -> int)
    requires multiset(a) == multiset(b)
    ensures Weight(a, w) == Weight(b, w)
    decreases |a|
  {
    SameElements(a, b);
    if a != [] {
      var i := RestIsSame(a, b);
      WeightIgnoresOrder(a[1..], b[..i] + b[i + 1..], w);
      WeightWithout(b, i, w);
    }
  }

  lemma Regroup<T>(a: seq<T>, b: seq<T>, c: seq<T>)
    ensures a + b + c == a + (b + c) && [] + c == c && a + [] == a
  {
  }

  /** What each element stands for, one after the other. */
  function Join<A, B>(s: seq<A>, f: A -> seq<B>): seq<B> {
    if s == [] then [] else f(s[0]) + Join(s[1..], f)
  }

  lemma {:induction false} JoinSplit<A, B>(a: seq<A>, b: seq<A>, f: A -> seq<B>)
    ensures Join(a + b, f) == Join(a, f) + Join(b, f)
    decreases |a|
  {
    if a == [] {
      assert a + b == b;
    } else {
      assert (a + b)[0] == a[0] && (a + b)[1..] == a[1..] + b;
      JoinSplit(a[1..], b, f);
      Regroup(f(a[0]), Join(a[1..], f), Join(b, f));
    }
  }

  lemma JoinOne<A, B>(x: A, f: A -> seq<B>)
    ensures Join([x], f) == f(x)
  {
    assert [x][1..] == [];
  }

  lemma JoinAppend<A, B>(s: seq<A>, x: A, f: A -> seq<B>)
    ensures Join(s + [x], f) == Join(s, f) + f(x)
  {
    JoinSplit(s, [x], f);
    JoinOne(x, f);
  }

  lemma JoinOneMore<A, B>(s: seq<A>, n: nat, f: A -> seq<B>)
    requires n < |s|
    ensures Join(s[..n + 1], f) == Join(s[..n], f) + f(s[n])
  {
    OneMore(s, n);
    JoinAppend(s[..n], s[n], f);
  }

  lemma JoinOfMiddle<A, B>(before: seq<A>, x: A, after: seq<A>, f: A -> seq<B>)
    ensures multiset(Join(before + [x] + after, f)) == multiset(f(x)) + multiset(Join(before + after, f))
  {
    JoinSplit(before + [x], after, f);
    JoinAppend(before, x, f);
    JoinSplit(before, after, f);
    BagOfMiddle(Join(before, f), f(x), Join(after, f));
  }

  lemma JoinWithout<A, B>(s: seq<A>, i: nat, f: A -> seq<B>)
    requires i < |s|
    ensures multiset(Join(s, f)) == multiset(f(s[i])) + multiset(Join(s[..i] + s[i + 1..], f))
  {
    Middle(s, i);
    JoinOfMiddle(s[..i], s[i], s[i + 1..], f);
  }

  /** Rearranging elements rearranges what they stand for. */
  lemma {:induction false} JoinIgnoresOrder<A, B>(a: seq<A>, b: seq<A>, f: A -> seq<B>)
    requires multiset(a) == multiset(b)
    ensures multiset(Join(a, f)) == multiset(Join(b, f))
    decreases |a|
  {
    SameElements(a, b);
    if a == [] {
      assert b == [];
    } else {
      var i := RestIsSame(a, b);
      JoinIgnoresOrder(a[1..], b[..i] + b[i + 1..], f);
      JoinWithout(b, i, f);
    }
  }

  /** Lists without repeats that have the same elements are rearrangements. */
  lemma SameMembersSameBag<T>(s: seq<T>, t: seq<T>)
    requires Distinct(s) && Distinct(t) && forall x :: x in s <==> x in t
    ensures multiset(s) == multiset(t)
  {
    DistinctCounts(s);
    DistinctCounts(t);
    assert forall x :: x in s <==> multiset(s)[x] == 1;
    assert forall x :: x in t <==> multiset(t)[x] == 1;
  }

  ghost predicate Rising<T>(s: seq<T>, lt: (T, T) -> bool) {
    forall i, j :: 0 <= i < j < |s| ==> lt(s[i], s[j])
  }

  /** A strictly rising list is fixed by its elements. */
  lemma {:induction false} RisingIsUnique<T(!new)>(a: seq<T>, b: seq<T>, lt: (T, T) -> bool)
    requires forall x, y :: lt(x, y) ==> !lt(y, x)
    requires Rising(a, lt) && Rising(b, lt) && forall x :: x in a <==> x in b
    ensures a == b
  {
    assert (a != [] ==> a[0] in b) && (b != [] ==> b[0] in a);
    if a != [] {
      assert a[0] == b[0];
      forall x ensures x in a[1..] <==> x in b[1..] {
        assert x in a[1..] ==> x in a && x != a[0];
        assert x in b[1..] ==> x in b && x != b[0];
        assert x in a && x != a[0] ==> x in a[1..];
        assert x in b && x != b[0] ==> x in b[1..];
      }
      RisingIsUnique(a[1..], b[1..], lt);
      assert a == [a[0]] + a[1..] && b == [b[0]] + b[1..];
    }
  }

  /** Writing an entry twice is writing it the second time. */
  lemma UpdatedTwice<K, V>(m: map<K, V>, k: K, a: V, b: V)
    ensures m[k := a][k := b] == m[k := b]
  {
  }

  /** Ranging over a map: its keys in no particular order, each once. */
  method Keys<K(==), V>(m: map<K, V>) returns (keys: seq<K>)
    ensures forall k :: k in keys <==> k in m
    ensures Distinct(keys) && |keys| == |m|
  {
    keys := [];
    var left := m.Keys;
    while left != {}
      invariant left <= m.Keys && (forall k :: k in keys <==> k in m.Keys - left)
      invariant Distinct(keys) && |keys| + |left| == |m.Keys|
    {
      var k :| k in left;
      assert k !in keys;
      keys := keys + [k];
      left := left - {k};
    }
  }

  // ----- the orders used

  predicate IntLe(a: int, b: int) {
    a <= b
  }

  predicate IntLess(a: int, b: int) {
    a < b
  }

  predicate NatLe(a: nat, b: nat) {
    a <= b
  }

  lemma NatOrder()
    ensures TotalOrder(NatLe) && NoTies(NatLe)
  {
  }

  /** Go compares strings byte by byte. */
  predicate StringLe(a: string, b: string) {
    if a == [] then true
    else if b == [] then false
    else if a[0] != b[0] then a[0] < b[0]
    else StringLe(a[1..], b[1..])
  }

  lemma {:induction false} StringLeTotal(a: string, b: string)
    ensures StringLe(a, b) || StringLe(b, a)
    ensures StringLe(a, b) && StringLe(b, a) ==> a == b
  {
    if a != [] && b != [] && a[0] == b[0] {
      StringLeTotal(a[1..], b[1..]);
      assert a == [a[0]] + a[1..] && b == [b[0]] + b[1..];
    }
  }

  lemma {:induction false} StringLeTransitive(a: string, b: string, c: string)
    requires StringLe(a, b) && StringLe(b, c)
    ensures StringLe(a, c)
  {
    if a != [] && a[0] == b[0] == c[0] {
      StringLeTransitive(a[1..], b[1..], c[1..]);
    }
  }

  lemma StringOrder()
    ensures TotalOrder(StringLe) && NoTies(StringLe)
  {
    forall a, b ensures (StringLe(a, b) || StringLe(b, a)) && (StringLe(a, b) && StringLe(b, a) ==> a == b) {
      StringLeTotal(a, b);
    }
    forall a, b, c | StringLe(a, b) && StringLe(b, c) ensures StringLe(a, c) {
      StringLeTransitive(a, b, c);
    }
  }

  predicate StringLess(a: string, b: string) {
    a != b && StringLe(a, b)
  }

  lemma StringLessIsStrict()
    ensures forall a, b :: StringLess(a, b) ==> !StringLess(b, a)
  {
    StringOrder();
  }

  lemma IntOrder()
    ensures TotalOrder(IntLe) && NoTies(IntLe)
  {
  }

  method SortStrings(s: seq<string>) returns (r: seq<string>)
    requires Distinct(s)
    ensures Rising(r, StringLess) && forall p :: p in r <==> p in s
  {
    StringOrder();
    SortSorts(s, StringLe);
    r := Sort(s, StringLe);
    SameElements(r, s);
    SameDistinct(r, s);
  }

  /** A map's paths, sorted. */
  method SortedPaths<V>(byPath: map<string, V>) returns (paths: seq<string>)
    ensures Rising(paths, StringLess)
    ensures forall p :: p in paths <==> p in byPath
  {
    var keys := Keys(byPath);
    paths := SortStrings(keys);
  }
}
