/** Which order `sort.Strings` puts the canonical keys in: the query of
    server/internal/security/sigv4_utility.go and the tags key of metrics/processor.go. */
module CanonicalOrder {
  import opened Prelude
  import opened Ordering
  import opened Text
  import opened TagKeys
  import opened QueryString

  /** `i` is the first index at which two strings differ. */
  predicate DifferFirstAt(a: string, b: string, i: nat) {
    i < |a| && i < |b| && a[..i] == b[..i] && a[i] != b[i]
  }

  /** A proper prefix, or the smaller character at the first difference. */
  predicate Precedes(a: string, b: string) {
    || (|a| < |b| && a == b[..|a|])
    || exists i: nat :: i < |a| && DifferFirstAt(a, b, i) && a[i] < b[i]
  }

  lemma DifferLater(a: string, b: string, i: nat)
    requires a != "" && b != "" && a[0] == b[0]
    ensures DifferFirstAt(a, b, i + 1) <==> DifferFirstAt(a[1..], b[1..], i)
  {
    if i + 1 <= |a| && i + 1 <= |b| {
      assert a[..i + 1] == [a[0]] + a[1..][..i] && b[..i + 1] == [b[0]] + b[1..][..i];
    }
  }

  lemma PrecedesLater(a: string, b: string)
    requires a != "" && b != "" && a[0] == b[0]
    ensures Precedes(a, b) <==> Precedes(a[1..], b[1..])
  {
    forall i: nat ensures DifferFirstAt(a, b, i + 1) <==> DifferFirstAt(a[1..], b[1..], i) {
      DifferLater(a, b, i);
    }
    if i: nat :| i < |a| && DifferFirstAt(a, b, i) && a[i] < b[i] {
      assert i > 0;
      assert DifferFirstAt(a[1..], b[1..], i - 1);
    }
    if i: nat :| i < |a[1..]| && DifferFirstAt(a[1..], b[1..], i) && a[1..][i] < b[1..][i] {
      assert DifferFirstAt(a, b, i + 1);
    }
    assert |a| < |b| ==> (a == b[..|a|] <==> a[1..] == b[1..][..|a| - 1]);
  }

  lemma PrecedesAtOnce(a: string, b: string)
    requires a != "" && b != "" && a[0] != b[0]
    ensures Precedes(a, b) <==> a[0] < b[0]
  {
    assert DifferFirstAt(a, b, 0);
    assert forall i: nat :: i > 0 && i < |a| && i < |b| ==> a[..i][0] != b[..i][0];
    assert |a| < |b| ==> a[0] != b[..|a|][0];
  }

  /** The sorting order, said by indices. */
  lemma {:induction false} LeExactlyWhen(a: string, b: string)
    ensures Le(a, b) <==> a == b || Precedes(a, b)
    decreases |a|
  {
    if a == "" {
      assert b != "" ==> a == b[..|a|];
    } else if b == "" {
    } else if a[0] == b[0] {
      LeExactlyWhen(a[1..], b[1..]);
      PrecedesLater(a, b);
      assert a == [a[0]] + a[1..] && b == [b[0]] + b[1..];
    } else {
      PrecedesAtOnce(a, b);
    }
  }

  ghost predicate Ascends(s: seq<string>) {
    forall i, j :: 0 <= i < j < |s| ==> Precedes(s[i], s[j])
  }

  lemma SortedAscends(s: seq<string>)
    requires SortedBy(s, Le) && forall i, j :: 0 <= i < j < |s| ==> s[i] != s[j]
    ensures Ascends(s)
  {
    forall i, j | 0 <= i < j < |s| ensures Precedes(s[i], s[j]) {
      LeExactlyWhen(s[i], s[j]);
    }
  }

  // ---- The query ----

  /** The keys of a query string, in the order it holds them. */
  function KeysOf(texts: seq<string>): seq<string> {
    MapSeq((t: string) => match DecodeParam(t) case Some(pair) => pair.0 case None => "", texts)
  }

  lemma {:induction false} TextsHoldKeys(params: Params, keys: seq<string>)
    requires ByteParams(params) && forall k :: k in keys ==> k in params
    ensures KeysOf(ParamTexts(params, keys)) == keys
  {
    if keys != [] {
      var init, key := keys[..|keys| - 1], keys[|keys| - 1];
      assert keys == init + [key] && key in keys && forall k :: k in init ==> k in keys;
      TextsHoldKeys(params, init);
      ParamRoundTrip(params, key);
      var texts := ParamTexts(params, keys);
      assert texts == ParamTexts(params, init) + [ParamText(params, key)];
      assert KeysOf(texts) == KeysOf(ParamTexts(params, init)) + [key];
    }
  }

  /** The keys of a canonical query ascend strictly, by character at the first difference. */
  lemma QueryKeysAscend(params: Params, query: string)
    requires ByteParams(params) && IsCanonicalQuery(query, params) && params != map[]
    ensures var keys := KeysOf(Split(query, '&'));
            && Ascends(keys) && |keys| == |params|
            && forall k :: k in keys <==> k in params
  {
    var order := AnyOrder(params.Keys);
    assert query == QueryInOrder(params, order);
    SortedOrder(params.Keys, order);
    var keys := Sort(order, Le);
    LeIsTotalOrder();
    SortSorts(order, Le);
    EnumerationMembers(keys, params.Keys);
    TextsHoldKeys(params, keys);
    DecodeParamTexts(params, keys);
    SortedAscends(keys);
    SplitJoin(ParamTexts(params, keys), '&');
  }

  // ---- The tags key ----

  lemma PairsDiffer(tags: Tags, order: seq<string>)
    requires Separable(tags) && Enumerates(order, tags.Keys)
    ensures forall i, j :: 0 <= i < j < |order| ==> Printer(tags)(order[i]) != Printer(tags)(order[j])
  {
    EnumerationMembers(order, tags.Keys);
    forall i, j | 0 <= i < j < |order| ensures Printer(tags)(order[i]) != Printer(tags)(order[j]) {
      var k, l := order[i], order[j];
      assert k in tags && l in tags;
      CutAt(k, tags[k], '=');
      CutAt(l, tags[l], '=');
      assert PairText(tags, k) == k + ['='] + tags[k] && PairText(tags, l) == l + ['='] + tags[l];
    }
  }

  /** The pairs of a tags key ascend strictly too. */
  lemma TagPairsAscend(tags: Tags, key: string)
    requires Separable(tags) && IsTagsKey(key, tags) && tags != map[]
    ensures Ascends(Split(key, ',')) && |Split(key, ',')| == |tags|
  {
    var order := AnyOrder(tags.Keys);
    assert key == TagsKeyInOrder(tags, order);
    LeIsTotalOrder();
    var texts := MapSeq(Printer(tags), order);
    SortSorts(texts, Le);
    EnumerationMembers(order, tags.Keys);
    PairsDiffer(tags, order);
    var sorted := Sort(texts, Le);
    DistinctSorted(texts, sorted);
    SortedAscends(sorted);
    PairTextsAvoid(tags, order);
    forall p | p in sorted ensures ',' !in p {
      assert p in multiset(texts);
    }
    SplitJoin(sorted, ',');
  }

  lemma DistinctSorted(a: seq<string>, b: seq<string>)
    requires multiset(a) == multiset(b) && forall i, j :: 0 <= i < j < |a| ==> a[i] != a[j]
    ensures forall i, j :: 0 <= i < j < |b| ==> b[i] != b[j]
  {
    forall i, j | 0 <= i < j < |b| ensures b[i] != b[j] {
      if b[i] == b[j] {
        Twice(b, i, j);
        var k := Find(a, b[j]);
        Once(a, k);
      }
    }
  }

  lemma Find(s: seq<string>, x: string) returns (k: nat)
    requires x in multiset(s)
    ensures k < |s| && s[k] == x
  {
    k :| 0 <= k < |s| && s[k] == x;
  }

  lemma Twice(s: seq<string>, i: nat, j: nat)
    requires i < j < |s| && s[i] == s[j]
    ensures multiset(s)[s[j]] >= 2
  {
    assert s == s[..j] + [s[j]] + s[j + 1..];
    assert s[..j][i] in multiset(s[..j]);
  }

  lemma Once(s: seq<string>, k: nat)
    requires k < |s| && forall i, j :: 0 <= i < j < |s| ==> s[i] != s[j]
    ensures multiset(s)[s[k]] == 1
  {
    assert s == s[..k] + [s[k]] + s[k + 1..];
  }

  // ---- The escaping ----

  lemma {:induction false} EscapeConcat(a: string, b: string)
    requires IsBytes(a) && IsBytes(b)
    ensures IsBytes(a + b) && QueryEscape(a + b) == QueryEscape(a) + QueryEscape(b)
  {
    if a == "" {
      assert a + b == b;
    } else {
      EscapeConcat(a[1..], b);
      assert (a + b)[1..] == a[1..] + b;
      Regroup(EscapeByte(a[0]), QueryEscape(a[1..]), QueryEscape(b));
    }
  }

  lemma Regroup(a: string, b: string, c: string)
    ensures a + (b + c) == (a + b) + c
  {
  }

  /** Letters, digits and `-_.~` stand for themselves, a space is `+`, and any other byte is `%`
      and two upper-case hexadecimal digits (sections 2.1 and 2.3 of RFC 3986). */
  lemma EscapedExactly(c: char)
    requires c as int < 0x100
    ensures var e := QueryEscape([c]);
            if 'A' <= c <= 'Z' || 'a' <= c <= 'z' || '0' <= c <= '9' || c == '-' || c == '_' || c == '.' || c == '~'
            then e == [c]
            else if c == ' ' then e == "+"
            else && |e| == 3 && e[0] == '%'
                 && (forall i :: 1 <= i < 3 ==> '0' <= e[i] <= '9' || 'A' <= e[i] <= 'F')
                 && 16 * DigitValue(e[1]) + DigitValue(e[2]) == c as int
  {
    assert [c][1..] == "";
    assert 16 * (c as int / 16) + c as int % 16 == c as int;
  }

  function DigitValue(d: char): int {
    if d <= '9' then d as int - 48 else d as int - 55
  }
}
