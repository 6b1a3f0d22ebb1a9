/** Sorting as Go's `sort` package provides it: a sorted permutation of its input.
    Sorted permutations are unique, so nothing proved here depends on the algorithm. */
module Ordering {

  ghost predicate TotalOrder<T(!new)>(le: (T, T) -> bool) {
    && (forall a :: le(a, a))
    && (forall a, b :: le(a, b) || le(b, a))
    && (forall a, b :: le(a, b) && le(b, a) ==> a == b)
    && (forall a, b, c :: le(a, b) && le(b, c) ==> le(a, c))
  }

  ghost predicate SortedBy<T>(s: seq<T>, le: (T, T) -> bool) {
    forall i, j :: 0 <= i < j < |s| ==> le(s[i], s[j])
  }

  function Insert<T>(x: T, s: seq<T>, le: (T, T) -> bool): seq<T> {
    if s == [] || le(x, s[0]) then [x] + s else [s[0]] + Insert(x, s[1..], le)
  }

  function Sort<T>(s: seq<T>, le: (T, T) -> bool): seq<T> {
    if s == [] then [] else Insert(s[0], Sort(s[1..], le), le)
  }

  lemma {:induction false} InsertContents<T>(x: T, s: seq<T>, le: (T, T) -> bool)
    ensures multiset(Insert(x, s, le)) == multiset(s) + multiset{x}
  {
    if s == [] || le(x, s[0]) {
    } else {
      InsertContents(x, s[1..], le);
      assert s == [s[0]] + s[1..];
    }
  }

  lemma InsertedFrom<T>(x: T, s: seq<T>, le: (T, T) -> bool, y: T)
    requires y in Insert(x, s, le)
    ensures y == x || y in s
  {
    InsertContents(x, s, le);
    assert y in multiset(Insert(x, s, le));
  }

  lemma {:induction false} InsertKeepsSorted<T(!new)>(x: T, s: seq<T>, le: (T, T) -> bool)
    requires TotalOrder(le) && SortedBy(s, le)
    ensures SortedBy(Insert(x, s, le), le)
  {
    if s == [] || le(x, s[0]) {
    } else {
      var r := Insert(x, s[1..], le);
      InsertKeepsSorted(x, s[1..], le);
      forall j | 0 <= j < |r| ensures le(s[0], r[j]) {
        InsertedFrom(x, s[1..], le, r[j]);
      }
    }
  }

  lemma {:induction false} SortSorts<T(!new)>(s: seq<T>, le: (T, T) -> bool)
    requires TotalOrder(le)
    ensures SortedBy(Sort(s, le), le)
    ensures multiset(Sort(s, le)) == multiset(s)
    ensures |Sort(s, le)| == |s|
  {
    if s != [] {
      SortSorts(s[1..], le);
      InsertKeepsSorted(s[0], Sort(s[1..], le), le);
      InsertContents(s[0], Sort(s[1..], le), le);
      assert s == [s[0]] + s[1..];
    }
    assert |multiset(Sort(s, le))| == |multiset(s)|;
  }

  lemma WithoutOne<T>(s: seq<T>, i: nat)
    requires i < |s|
    ensures multiset(s[..i] + s[i + 1..]) == multiset(s) - multiset{s[i]}
  {
    assert s == s[..i] + [s[i]] + s[i + 1..];
  }

  lemma WithoutEach<T>(s: seq<T>, t: seq<T>, i: nat)
    requires multiset(s) == multiset(t) && s != [] && i < |t| && t[i] == s[0]
    ensures multiset(s[1..]) == multiset(t[..i] + t[i + 1..])
    ensures i == 0 ==> multiset(s[1..]) == multiset(t[1..])
  {
    WithoutHead(s);
    WithoutHead(t);
    WithoutOne(t, i);
  }

  lemma WithoutHead<T>(s: seq<T>)
    requires s != []
    ensures multiset(s[1..]) == multiset(s) - multiset{s[0]}
  {
    assert s == [s[0]] + s[1..];
  }

  /** Putting back what WithoutOne took out, at the front. */
  lemma BackInFront<T>(x: T, rest: seq<T>, s: seq<T>, i: nat)
    requires i < |s| && s[i] == x && multiset(rest) == multiset(s[..i] + s[i + 1..])
    ensures multiset([x] + rest) == multiset(s)
  {
    WithoutOne(s, i);
    assert s[i] in multiset(s);
  }

  lemma SortedHeadsAgree<T(!new)>(s: seq<T>, t: seq<T>, le: (T, T) -> bool)
    requires TotalOrder(le) && SortedBy(s, le) && SortedBy(t, le)
    requires multiset(s) == multiset(t) && s != []
    ensures |t| > 0 && s[0] == t[0]
  {
    assert s[0] in multiset(t);
    var i :| 0 <= i < |t| && t[i] == s[0];
    assert t[0] in multiset(s);
    var j :| 0 <= j < |s| && s[j] == t[0];
    assert le(t[0], s[0]) && le(s[0], t[0]);
  }

  lemma {:induction false} SortedUnique<T(!new)>(s: seq<T>, t: seq<T>, le: (T, T) -> bool)
    requires TotalOrder(le) && SortedBy(s, le) && SortedBy(t, le)
    requires multiset(s) == multiset(t)
    ensures s == t
  {
    if s == [] {
      assert |multiset(t)| == 0;
    } else {
      SortedHeadsAgree(s, t, le);
      WithoutEach(s, t, 0);
      SortedUnique(s[1..], t[1..], le);
      assert s == [s[0]] + s[1..] && t == [t[0]] + t[1..];
    }
  }

  /** Sorting forgets the order of its input and nothing else. */
  lemma SortOfPermutation<T(!new)>(s: seq<T>, t: seq<T>, le: (T, T) -> bool)
    requires TotalOrder(le) && multiset(s) == multiset(t)
    ensures Sort(s, le) == Sort(t, le)
  {
    SortSorts(s, le);
    SortSorts(t, le);
    SortedUnique(Sort(s, le), Sort(t, le), le);
  }

  /** `order` lists every element of `s` exactly once: one possible iteration
      order of a Go map with these keys. */
  ghost predicate Enumerates<T>(order: seq<T>, s: set<T>) {
    multiset(order) == multiset(s)
  }

  lemma EnumerationMembers<T>(order: seq<T>, s: set<T>)
    requires Enumerates(order, s)
    ensures |order| == |s|
    ensures forall x :: x in order <==> x in s
    ensures forall i, j :: 0 <= i < j < |order| ==> order[i] != order[j]
  {
    forall x ensures x in order <==> x in s {
      assert x in order <==> x in multiset(order);
    }
    assert |multiset(order)| == |multiset(s)|;
    forall i, j | 0 <= i < j < |order| ensures order[i] != order[j] {
      assert order == order[..j] + [order[j]] + order[j + 1..];
      assert multiset(order)[order[j]] == 1;
      assert order[j] !in multiset(order[..j]);
      assert order[..j][i] in multiset(order[..j]);
    }
  }

  lemma EnumerationGrows<T>(order: seq<T>, whole: set<T>, rest: set<T>, x: T)
    requires rest <= whole && x in rest && Enumerates(order, whole - rest)
    ensures Enumerates(order + [x], whole - (rest - {x}))
  {
    assert whole - (rest - {x}) == (whole - rest) + {x};
  }

  lemma {:induction false} AnyOrder<T>(s: set<T>) returns (order: seq<T>)
    ensures Enumerates(order, s)
  {
    if s == {} {
      order := [];
    } else {
      var x :| x in s;
      var rest := AnyOrder(s - {x});
      order := rest + [x];
      assert s == s - {x} + {x};
    }
  }

  function MapSeq<T, U>(f: T -> U, s: seq<T>): (r: seq<U>)
    ensures |r| == |s| && forall i :: 0 <= i < |s| ==> r[i] == f(s[i])
  {
    seq(|s|, i requires 0 <= i < |s| => f(s[i]))
  }

  lemma MapCons<T, U>(f: T -> U, x: T, s: seq<T>)
    ensures MapSeq(f, [x] + s) == [f(x)] + MapSeq(f, s)
  {
  }

  lemma MapSnoc<T, U>(f: T -> U, s: seq<T>, x: T)
    ensures MapSeq(f, s + [x]) == MapSeq(f, s) + [f(x)]
  {
  }

  lemma {:induction false} MapOfPermutation<T, U>(f: T -> U, s: seq<T>, t: seq<T>)
    requires multiset(s) == multiset(t)
    ensures multiset(MapSeq(f, s)) == multiset(MapSeq(f, t))
  {
    if s == [] {
      assert |multiset(t)| == 0;
      assert t == [];
    } else {
      var i := IndexIn(s, t);
      WithoutEach(s, t, i);
      MapOfPermutation(f, s[1..], t[..i] + t[i + 1..]);
      MapWithout(f, s, 0);
      MapWithout(f, t, i);
    }
  }

  lemma IndexIn<T>(s: seq<T>, t: seq<T>) returns (i: nat)
    requires s != [] && multiset(s) == multiset(t)
    ensures i < |t| && t[i] == s[0]
  {
    assert s[0] in multiset(t);
    i :| 0 <= i < |t| && t[i] == s[0];
  }

  lemma MapWithout<T, U>(f: T -> U, s: seq<T>, i: nat)
    requires i < |s|
    ensures multiset(MapSeq(f, s)) == multiset(MapSeq(f, s[..i] + s[i + 1..])) + multiset{f(s[i])}
    ensures i == 0 ==> s[..i] + s[i + 1..] == s[1..]
  {
    var fs := MapSeq(f, s);
    WithoutOne(fs, i);
    assert fs[..i] + fs[i + 1..] == MapSeq(f, s[..i] + s[i + 1..]);
  }
}
