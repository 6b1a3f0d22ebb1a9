/** Which tags are printed alike by `createTagsKey` in metrics/processor.go when nothing has
    validated them: the builders of metrics/base_metric.go do not. */
module TagCollisions {
  import opened Prelude
  import opened Ordering
  import opened Text
  import opened TagKeys

  // ---- Exactly which keys are ambiguous ----

  predicate TwoEquals(s: string) {
    exists i, j :: 0 <= i < j < |s| && s[i] == '=' && s[j] == '='
  }

  function Pair(k: string, v: string): string {
    k + "=" + v
  }

  lemma OneTagKey(k: string, v: string)
    ensures IsTagsKey(Pair(k, v), map[k := v])
  {
    var tags: Tags := map[k := v];
    assert MapSeq(Printer(tags), [k]) == [Pair(k, v)];
    assert Sort([Pair(k, v)], Le) == [Pair(k, v)];
    assert tags.Keys == {k};
    IsTagsKeyFromOrder(Pair(k, v), tags, [k]);
  }

  /** The one-tag map read from a text by splitting it at the `=` at `i`. */
  function SplitAt(s: string, i: nat): Tags
    requires i < |s|
  {
    map[s[..i] := s[i + 1..]]
  }

  lemma SplitPrints(s: string, i: nat)
    requires i < |s| && s[i] == '='
    ensures IsTagsKey(s, SplitAt(s, i))
  {
    OneTagKey(s[..i], s[i + 1..]);
    assert s == Pair(s[..i], s[i + 1..]);
  }

  lemma JoinedTwice(parts: seq<string>)
    requires |parts| >= 2 && forall i :: 0 <= i < |parts| ==> '=' in parts[i]
    ensures TwoEquals(Join(parts, ','))
  {
    var i :| 0 <= i < |parts[0]| && parts[0][i] == '=';
    var tail := Join(parts[1..], ',');
    JoinHas(parts[1..]);
    var j :| 0 <= j < |tail| && tail[j] == '=';
    var whole := parts[0] + [','] + tail;
    assert whole[i] == '=' && whole[|parts[0]| + 1 + j] == '=';
  }

  lemma JoinHas(parts: seq<string>)
    requires parts != [] && '=' in parts[0]
    ensures '=' in Join(parts, ',')
  {
  }

  /** The sorted pairs behind a tags key. */
  lemma PairsOf(tags: Tags, key: string) returns (pairs: seq<string>)
    requires IsTagsKey(key, tags)
    ensures |pairs| == |tags| && key == Join(pairs, ',')
    ensures forall i :: 0 <= i < |pairs| ==> exists k :: k in tags && pairs[i] == Pair(k, tags[k])
  {
    LeIsTotalOrder();
    var order := AnyOrder(tags.Keys);
    EnumerationMembers(order, tags.Keys);
    var texts := MapSeq(Printer(tags), order);
    SortSorts(texts, Le);
    pairs := Sort(texts, Le);
    forall i | 0 <= i < |pairs| ensures exists k :: k in tags && pairs[i] == Pair(k, tags[k]) {
      assert pairs[i] in multiset(texts);
      var j :| 0 <= j < |texts| && texts[j] == pairs[i];
      assert order[j] in tags;
    }
  }

  lemma FewTags(tags: Tags, key: string)
    requires IsTagsKey(key, tags) && !TwoEquals(key)
    ensures |tags| <= 1
    ensures key == "" <==> |tags| == 0
    ensures key != "" ==> exists k :: k in tags && key == Pair(k, tags[k])
  {
    var pairs := PairsOf(tags, key);
    if |pairs| >= 2 {
      ManyTwice(tags, key);
    } else if |pairs| == 1 {
      var k :| k in tags && pairs[0] == Pair(k, tags[k]);
    }
  }

  lemma OnePairOneMap(tags: Tags, other: Tags, key: string)
    requires IsTagsKey(key, tags) && IsTagsKey(key, other) && !TwoEquals(key)
    ensures tags == other
  {
    FewTags(tags, key);
    FewTags(other, key);
    if key != "" {
      var k :| k in tags && key == Pair(k, tags[k]);
      var l :| l in other && key == Pair(l, other[l]);
      assert key[|k|] == '=' && key[|l|] == '=';
      assert k == key[..|k|] && l == key[..|l|];
      assert tags[k] == key[|k| + 1..] && other[l] == key[|l| + 1..];
      OnlyKey(tags, k);
      OnlyKey(other, l);
    }
  }

  lemma OnlyKey(tags: Tags, k: string)
    requires k in tags && |tags| <= 1
    ensures tags == map[k := tags[k]]
  {
    forall l | l in tags ensures l == k {
      assert l != k ==> {k, l} <= tags.Keys && |tags.Keys - {k, l}| == |tags| - 2;
    }
  }

  lemma KeyAmbiguousExactlyWhen(tags: Tags, key: string)
    requires IsTagsKey(key, tags)
    ensures (exists other: Tags :: other != tags && IsTagsKey(key, other)) <==> TwoEquals(key)
  {
    if TwoEquals(key) {
      var i, j :| 0 <= i < j < |key| && key[i] == '=' && key[j] == '=';
      SplitPrints(key, i);
      SplitPrints(key, j);
      assert key[..i] in SplitAt(key, i) && key[..i] !in SplitAt(key, j);
    } else {
      forall other: Tags | IsTagsKey(key, other) ensures other == tags {
        OnePairOneMap(tags, other, key);
      }
    }
  }

  /** One tag at most, and then no other `=` than the printer's. */
  predicate Unmistakable(tags: Tags) {
    |tags| <= 1 && forall k :: k in tags ==> '=' !in k && '=' !in tags[k]
  }

  lemma PairTwice(k: string, v: string)
    ensures TwoEquals(Pair(k, v)) <==> '=' in k || '=' in v
  {
    var s := Pair(k, v);
    assert s[|k|] == '=';
    if i :| 0 <= i < |k| && k[i] == '=' {
      assert s[i] == '=';
    }
    if i :| 0 <= i < |v| && v[i] == '=' {
      assert s[|k| + 1 + i] == '=';
    }
    if TwoEquals(s) {
      var i, j :| 0 <= i < j < |s| && s[i] == '=' && s[j] == '=';
      var l := if i == |k| then j else i;
      assert if l < |k| then k[l] == '=' else v[l - |k| - 1] == '=';
    }
  }

  lemma ManyTwice(tags: Tags, key: string)
    requires IsTagsKey(key, tags) && |tags| >= 2
    ensures TwoEquals(key)
  {
    var pairs := PairsOf(tags, key);
    forall i | 0 <= i < |pairs| ensures '=' in pairs[i] {
      var k :| k in tags && pairs[i] == Pair(k, tags[k]);
      assert pairs[i][|k|] == '=';
    }
    JoinedTwice(pairs);
  }

  lemma FewTwice(tags: Tags, key: string)
    requires IsTagsKey(key, tags) && |tags| <= 1
    ensures TwoEquals(key) <==> !Unmistakable(tags)
  {
    var pairs := PairsOf(tags, key);
    if |pairs| == 1 {
      var k :| k in tags && pairs[0] == Pair(k, tags[k]);
      OnlyKey(tags, k);
      PairTwice(k, tags[k]);
    } else {
      assert tags == map[];
    }
  }

  /** Among all tag maps, validated or not, some other one is printed alike exactly if a map has
      two tags or holds an `=` of its own. */
  lemma AmbiguousExactlyWhen(tags: Tags, key: string)
    requires IsTagsKey(key, tags)
    ensures (exists other: Tags :: other != tags && IsTagsKey(key, other))
            <==> |tags| >= 2 || exists k :: k in tags && ('=' in k || '=' in tags[k])
  {
    KeyAmbiguousExactlyWhen(tags, key);
    if |tags| >= 2 {
      ManyTwice(tags, key);
    } else {
      FewTwice(tags, key);
    }
  }

  // ---- Families of collisions ----

  /** The tags without `k`, in some order. */
  lemma OtherKeys(tags: Tags, k: string) returns (rest: seq<string>)
    requires k in tags
    ensures Enumerates(rest, tags.Keys - {k}) && Enumerates([k] + rest, tags.Keys)
    ensures forall x :: x in rest <==> x in tags && x != k
  {
    rest := AnyOrder(tags.Keys - {k});
    EnumerationMembers(rest, tags.Keys - {k});
    assert tags.Keys == (tags.Keys - {k}) + {k};
  }

  lemma SamePairs(tags: Tags, other: Tags, keys: seq<string>)
    requires forall k :: k in keys ==> k in tags && k in other && tags[k] == other[k]
    ensures MapSeq(Printer(tags), keys) == MapSeq(Printer(other), keys)
  {
  }

  lemma OneMoreKey(rest: seq<string>, keys: set<string>, k: string)
    requires Enumerates(rest, keys) && k !in keys
    ensures Enumerates([k] + rest, keys + {k})
  {
  }

  function MoveEquals(tags: Tags, a: string, b: string): Tags
    requires a + "=" + b in tags
  {
    (tags - {a + "=" + b})[a := b + "=" + tags[a + "=" + b]]
  }

  lemma MovedPairs(tags: Tags, a: string, b: string, rest: seq<string>)
    requires a + "=" + b in tags && a !in tags
    requires forall x :: x in rest <==> x in tags && x != a + "=" + b
    ensures MapSeq(Printer(tags), [a + "=" + b] + rest) == MapSeq(Printer(MoveEquals(tags, a, b)), [a] + rest)
  {
    var k, moved := a + "=" + b, MoveEquals(tags, a, b);
    SamePairs(tags, moved, rest);
    MapCons(Printer(tags), k, rest);
    MapCons(Printer(moved), a, rest);
    assert Pair(k, tags[k]) == Pair(a, moved[a]);
  }

  lemma SameTextsSameKey(key: string, tags: Tags, order: seq<string>, other: Tags, order': seq<string>)
    requires IsTagsKey(key, tags) && Enumerates(order, tags.Keys) && Enumerates(order', other.Keys)
    requires MapSeq(Printer(tags), order) == MapSeq(Printer(other), order')
    ensures IsTagsKey(key, other)
  {
    IsTagsKeyFromOrder(key, other, order');
  }

  /** A key that holds `=`: the part behind it may as well belong to the value. */
  lemma EqualsInKeyCollides(tags: Tags, a: string, b: string, key: string)
    requires a + "=" + b in tags && a !in tags && IsTagsKey(key, tags)
    ensures MoveEquals(tags, a, b) != tags && IsTagsKey(key, MoveEquals(tags, a, b))
  {
    var k, moved := a + "=" + b, MoveEquals(tags, a, b);
    var rest := OtherKeys(tags, k);
    OneMoreKey(rest, tags.Keys - {k}, a);
    assert moved.Keys == (tags.Keys - {k}) + {a};
    MovedPairs(tags, a, b, rest);
    SameTextsSameKey(key, tags, [k] + rest, moved, [a] + rest);
  }

  function SplitTag(tags: Tags, k: string, v: string, l: string, w: string): Tags {
    tags[k := v][l := w]
  }

  /** `r` is sorted before `p`, or after both `q` and the text `p` and `q` make. */
  predicate Outside(r: string, p: string, q: string) {
    Le(r, p) || (Le(q, r) && Le(p + "," + q, r) && r != p + "," + q)
  }

  lemma {:induction false} LePrefix(p: string, s: string)
    ensures Le(p, p + s)
  {
    if p != "" {
      LePrefix(p[1..], s);
      assert (p + s)[1..] == p[1..] + s;
    }
  }

  lemma LeftOf(r: string, p: string, q: string)
    requires Outside(r, p, q) && Le(r, p + "," + q)
    ensures Le(r, p)
  {
    LeTotal(r, p + "," + q);
  }

  lemma RightOf(r: string, p: string, q: string)
    requires Outside(r, p, q) && Le(p + "," + q, r)
    ensures Le(q, r)
  {
    var both := p + "," + q;
    assert |both| > |p|;
    if Le(r, p) {
      LePrefix(p, "," + q);
      assert p + ("," + q) == both;
      LeTransitive(both, r, p);
      LeTotal(both, p);
    }
  }

  lemma SplitSorted(s: seq<string>, i: nat, p: string, q: string)
    requires SortedBy(s, Le) && i < |s| && s[i] == p + "," + q && Le(p, q)
    requires forall j :: 0 <= j < |s| && j != i ==> Outside(s[j], p, q)
    ensures SortedBy(s[..i] + [p, q] + s[i + 1..], Le)
  {
    forall j | 0 <= j < i ensures Le(s[j], p) {
      LeftOf(s[j], p, q);
    }
    forall j | i < j < |s| ensures Le(q, s[j]) {
      RightOf(s[j], p, q);
    }
    SortedAround(s[..i], p, q, s[i + 1..]);
  }

  lemma SortedAround(a: seq<string>, p: string, q: string, b: seq<string>)
    requires SortedBy(a, Le) && SortedBy(b, Le) && Le(p, q)
    requires forall j :: 0 <= j < |a| ==> Le(a[j], p)
    requires forall j :: 0 <= j < |b| ==> Le(q, b[j])
    ensures SortedBy(a + [p, q] + b, Le)
  {
    LeIsTotalOrder();
  }

  lemma {:induction false} JoinSplit(a: seq<string>, p: string, q: string, b: seq<string>)
    ensures Join(a + [p + "," + q] + b, ',') == Join(a + [p, q] + b, ',')
  {
    if a == [] {
      assert [p, q] + b == [p] + ([q] + b) && ([p, q] + b)[1..] == [q] + b;
      assert ([p + "," + q] + b)[1..] == b && ([q] + b)[1..] == b;
      if b == [] {
        assert Join([q], ',') == q;
      } else {
        assert p + "," + q + [','] + Join(b, ',') == p + [','] + (q + [','] + Join(b, ','));
      }
      assert a + [p + "," + q] + b == [p + "," + q] + b && a + [p, q] + b == [p, q] + b;
    } else {
      JoinSplit(a[1..], p, q, b);
      assert (a + [p + "," + q] + b)[1..] == a[1..] + [p + "," + q] + b;
      assert (a + [p, q] + b)[1..] == a[1..] + [p, q] + b;
    }
  }

  lemma SplitPairs(tags: Tags, k: string, v: string, l: string, w: string, rest: seq<string>)
    requires k in tags && tags[k] == v + "," + Pair(l, w) && l !in tags
    requires forall x :: x in rest <==> x in tags && x != k
    ensures var others := MapSeq(Printer(tags), rest);
            && MapSeq(Printer(tags), [k] + rest) == [Pair(k, v) + "," + Pair(l, w)] + others
            && MapSeq(Printer(SplitTag(tags, k, v, l, w)), [k] + ([l] + rest)) == [Pair(k, v), Pair(l, w)] + others
  {
    var split, others := SplitTag(tags, k, v, l, w), MapSeq(Printer(tags), rest);
    SamePairs(tags, split, rest);
    MapCons(Printer(tags), k, rest);
    MapCons(Printer(split), k, [l] + rest);
    MapCons(Printer(split), l, rest);
    assert PairText(tags, k) == Pair(k, v) + "," + Pair(l, w);
    assert [Pair(k, v)] + ([Pair(l, w)] + others) == [Pair(k, v), Pair(l, w)] + others;
  }

  lemma SplitOrder(tags: Tags, k: string, v: string, l: string, w: string, rest: seq<string>)
    requires k in tags && l !in tags && Enumerates(rest, tags.Keys - {k})
    ensures Enumerates([k] + ([l] + rest), SplitTag(tags, k, v, l, w).Keys)
  {
    OneMoreKey(rest, tags.Keys - {k}, l);
    OneMoreKey([l] + rest, tags.Keys - {k} + {l}, k);
    assert SplitTag(tags, k, v, l, w).Keys == tags.Keys - {k} + {l} + {k};
  }

  lemma OthersOutside(tags: Tags, k: string, p: string, q: string, rest: seq<string>)
    requires forall x :: x in rest <==> x in tags && x != k
    requires forall o :: o in tags && o != k ==> Outside(Pair(o, tags[o]), p, q)
    ensures var others := MapSeq(Printer(tags), rest);
            forall i :: 0 <= i < |others| ==> Outside(others[i], p, q)
  {
    var others := MapSeq(Printer(tags), rest);
    forall i | 0 <= i < |others| ensures Outside(others[i], p, q) {
      assert rest[i] in rest && others[i] == Pair(rest[i], tags[rest[i]]);
    }
  }

  /** A value that holds `,` and behind it `l=w`: that part may as well be a tag of its own, if
      no other pair is sorted in between. */
  lemma CommaInValueCollides(tags: Tags, k: string, v: string, l: string, w: string, key: string)
    requires k in tags && tags[k] == v + "," + Pair(l, w) && l !in tags && IsTagsKey(key, tags)
    requires Le(Pair(k, v), Pair(l, w))
    requires forall o :: o in tags && o != k ==> Outside(Pair(o, tags[o]), Pair(k, v), Pair(l, w))
    ensures SplitTag(tags, k, v, l, w) != tags && IsTagsKey(key, SplitTag(tags, k, v, l, w))
  {
    var split, p, q := SplitTag(tags, k, v, l, w), Pair(k, v), Pair(l, w);
    var rest := OtherKeys(tags, k);
    SplitOrder(tags, k, v, l, w, rest);
    SplitPairs(tags, k, v, l, w, rest);
    OthersOutside(tags, k, p, q, rest);
    SplitInSort(MapSeq(Printer(tags), rest), p, q);
    assert key == TagsKeyInOrder(tags, [k] + rest);
    IsTagsKeyFromOrder(key, split, [k] + ([l] + rest));
  }

  lemma Cons(x: string, others: seq<string>)
    ensures multiset([x] + others) - multiset{x} == multiset(others)
  {
  }

  lemma Around(s: seq<string>, i: nat, x: string)
    requires i < |s| && s[i] == x
    ensures s == s[..i] + [x] + s[i + 1..]
  {
  }

  lemma TakeOut(s: seq<string>, i: nat, x: string, others: seq<string>)
    requires i < |s| && s[i] == x && multiset(s) == multiset([x] + others)
    ensures multiset(s[..i] + s[i + 1..]) == multiset(others)
  {
    WithoutOne(s, i);
    Cons(x, others);
  }

  lemma Find(s: seq<string>, x: string, others: seq<string>) returns (i: nat)
    requires multiset(s) == multiset([x] + others)
    ensures i < |s| && s[i] == x
  {
    assert x in multiset([x] + others);
    i :| 0 <= i < |s| && s[i] == x;
  }

  /** Where a text that is sorted among others ends up. */
  lemma SortedAmong(x: string, others: seq<string>) returns (a: seq<string>, b: seq<string>)
    ensures Sort([x] + others, Le) == a + [x] + b && SortedBy(a + [x] + b, Le)
    ensures multiset(a + b) == multiset(others)
  {
    LeIsTotalOrder();
    var s := Sort([x] + others, Le);
    SortSorts([x] + others, Le);
    var i := Find(s, x, others);
    TakeOut(s, i, x, others);
    Around(s, i, x);
    a, b := s[..i], s[i + 1..];
  }

  lemma StillOutside(s: seq<string>, others: seq<string>, p: string, q: string)
    requires multiset(s) == multiset(others)
    requires forall i :: 0 <= i < |others| ==> Outside(others[i], p, q)
    ensures forall i :: 0 <= i < |s| ==> Outside(s[i], p, q)
  {
    forall i | 0 <= i < |s| ensures Outside(s[i], p, q) {
      assert s[i] in multiset(others);
    }
  }

  lemma MiddleOf(a: seq<string>, x: string, b: seq<string>)
    ensures var s := a + [x] + b;
            |s| == |a| + 1 + |b| && s[|a|] == x && s[..|a|] == a && s[|a| + 1..] == b
  {
  }

  lemma AsideOf(a: seq<string>, x: string, b: seq<string>, j: nat)
    requires j < |a| + 1 + |b| && j != |a|
    ensures (a + [x] + b)[j] == (a + b)[if j < |a| then j else j - 1]
  {
  }

  lemma SplitSortedAmong(a: seq<string>, b: seq<string>, p: string, q: string)
    requires SortedBy(a + [p + "," + q] + b, Le) && Le(p, q)
    requires forall i :: 0 <= i < |a + b| ==> Outside((a + b)[i], p, q)
    ensures SortedBy(a + [p, q] + b, Le)
  {
    var x := p + "," + q;
    var s := a + [x] + b;
    MiddleOf(a, x, b);
    forall j | 0 <= j < |s| && j != |a| ensures Outside(s[j], p, q) {
      AsideOf(a, x, b, j);
    }
    SplitSorted(s, |a|, p, q);
  }

  lemma SplitInSort(others: seq<string>, p: string, q: string)
    requires Le(p, q) && forall i :: 0 <= i < |others| ==> Outside(others[i], p, q)
    ensures Join(Sort([p + "," + q] + others, Le), ',') == Join(Sort([p, q] + others, Le), ',')
  {
    var a, b := SortedAmong(p + "," + q, others);
    StillOutside(a + b, others, p, q);
    SplitSortedAmong(a, b, p, q);
    SortIs([p, q] + others, a + [p, q] + b);
    JoinSplit(a, p, q, b);
  }

  lemma SortIs(s: seq<string>, t: seq<string>)
    requires SortedBy(t, Le) && multiset(s) == multiset(t)
    ensures Sort(s, Le) == t
  {
    LeIsTotalOrder();
    SortSorts(s, Le);
    SortedUnique(Sort(s, Le), t, Le);
  }

  /** A bar inside the tags: what stands before it may as well belong to the metric key. */
  lemma BarInTagsCollides(metricKey: string, tags: Tags, before: string, other: Tags, otherKey: string, full: string)
    requires IsTagsKey(otherKey, other) && otherKey != ""
    requires IsTagsKey(before + "|" + otherKey, tags)
    requires IsCompositeKey(full, true, metricKey, tags)
    ensures IsCompositeKey(full, true, metricKey + "|" + before, other)
  {
    var tagsKey :| IsTagsKey(tagsKey, tags) && full == CompositeKey(metricKey, tagsKey);
    var order := AnyOrder(tags.Keys);
    assert tagsKey == TagsKeyInOrder(tags, order) == before + "|" + otherKey;
    assert full == CompositeKey(metricKey + "|" + before, otherKey);
  }
}
