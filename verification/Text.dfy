/** The string operations of Go's `strings` and `sort` packages that the key
    printers use. A string is a sequence of characters; comparing characters
    orders strings as Go's byte comparison does, since UTF-8 keeps code point order. */
module Text {
  import opened Prelude
  import opened Ordering

  function Join(parts: seq<string>, sep: char): string {
    if |parts| == 0 then ""
    else if |parts| == 1 then parts[0]
    else parts[0] + [sep] + Join(parts[1..], sep)
  }

  function Split(s: string, sep: char): (parts: seq<string>)
    ensures |parts| >= 1
  {
    if s == "" then [""]
    else
      var rest := Split(s[1..], sep);
      if s[0] == sep then [""] + rest else [[s[0]] + rest[0]] + rest[1..]
  }

  lemma {:induction false} SplitPrefix(p: string, s: string, sep: char)
    requires sep !in p
    ensures Split(p + [sep] + s, sep) == [p] + Split(s, sep)
    ensures Split(p, sep) == [p]
  {
    var whole := p + [sep] + s;
    if p == "" {
      assert whole[1..] == s;
    } else {
      SplitPrefix(p[1..], s, sep);
      assert whole[1..] == p[1..] + [sep] + s;
      assert [p[0]] + p[1..] == p;
    }
  }

  /** Splitting undoes joining when no part holds the separator. */
  lemma {:induction false} SplitJoin(parts: seq<string>, sep: char)
    requires |parts| > 0 && forall p :: p in parts ==> sep !in p
    ensures Split(Join(parts, sep), sep) == parts
  {
    assert parts[0] in parts;
    if |parts| == 1 {
      SplitPrefix(parts[0], "", sep);
    } else {
      SplitPrefix(parts[0], Join(parts[1..], sep), sep);
      SplitJoin(parts[1..], sep);
    }
  }

  lemma {:induction false} JoinAvoids(parts: seq<string>, sep: char, c: char)
    requires c != sep && forall p :: p in parts ==> c !in p
    ensures c !in Join(parts, sep)
  {
    if |parts| > 0 {
      assert parts[0] in parts;
      if |parts| > 1 {
        JoinAvoids(parts[1..], sep, c);
      }
    }
  }

  lemma {:induction false} JoinCovers(parts: seq<string>, sep: char, i: nat)
    requires i < |parts|
    ensures |Join(parts, sep)| >= |parts[i]|
  {
    if |parts| > 1 && i > 0 {
      JoinCovers(parts[1..], sep, i - 1);
    }
  }

  /** The text before and after the first `sep`. */
  function Cut(s: string, sep: char): Option<(string, string)> {
    if s == "" then None
    else if s[0] == sep then Some(("", s[1..]))
    else match Cut(s[1..], sep)
      case None => None
      case Some(halves) => Some(([s[0]] + halves.0, halves.1))
  }

  lemma {:induction false} CutAt(p: string, s: string, sep: char)
    requires sep !in p
    ensures Cut(p + [sep] + s, sep) == Some((p, s))
  {
    var whole := p + [sep] + s;
    if p == "" {
      assert whole[1..] == s;
    } else {
      CutAt(p[1..], s, sep);
      assert whole[1..] == p[1..] + [sep] + s;
      assert [p[0]] + p[1..] == p;
    }
  }

  /** The text before and after the last `sep`. */
  function CutLast(s: string, sep: char): Option<(string, string)> {
    if s == "" then None
    else match CutLast(s[1..], sep)
      case Some(halves) => Some(([s[0]] + halves.0, halves.1))
      case None => if s[0] == sep then Some(("", s[1..])) else None
  }

  lemma {:induction false} CutLastAt(p: string, s: string, sep: char)
    requires sep !in s
    ensures CutLast(p + [sep] + s, sep) == Some((p, s))
    ensures CutLast(s, sep) == None
  {
    var whole := p + [sep] + s;
    if p != "" {
      CutLastAt(p[1..], s, sep);
      assert whole[1..] == p[1..] + [sep] + s;
      assert [p[0]] + p[1..] == p;
    } else {
      CutLastNone(s, sep);
      assert whole[1..] == s;
    }
  }

  lemma {:induction false} CutLastNone(s: string, sep: char)
    ensures CutLast(s, sep) == None <==> sep !in s
  {
    if s != "" {
      CutLastNone(s[1..], sep);
      assert s == [s[0]] + s[1..];
    }
  }

  predicate Le(a: string, b: string) {
    a == "" || (b != "" && (a[0] < b[0] || (a[0] == b[0] && Le(a[1..], b[1..]))))
  }

  lemma {:induction false} LeTotal(a: string, b: string)
    ensures Le(a, a) && (Le(a, b) || Le(b, a))
    ensures Le(a, b) && Le(b, a) ==> a == b
    decreases |a| + |b|
  {
    if a != "" {
      LeTotal(a[1..], if b == "" then "" else b[1..]);
      if b != "" && Le(a, b) && Le(b, a) {
        assert a == [a[0]] + a[1..] && b == [b[0]] + b[1..];
      }
    }
  }

  lemma {:induction false} LeTransitive(a: string, b: string, c: string)
    requires Le(a, b) && Le(b, c)
    ensures Le(a, c)
  {
    if a != "" && a[0] == b[0] == c[0] {
      LeTransitive(a[1..], b[1..], c[1..]);
    }
  }

  lemma LeIsTotalOrder()
    ensures TotalOrder(Le)
  {
    forall a, b ensures Le(a, a) && (Le(a, b) || Le(b, a)) && (Le(a, b) && Le(b, a) ==> a == b) {
      LeTotal(a, b);
    }
    forall a, b, c | Le(a, b) && Le(b, c) ensures Le(a, c) {
      LeTransitive(a, b, c);
    }
  }
}
