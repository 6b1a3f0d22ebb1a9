/** The canonical query string that is hashed and signed
    (server/internal/security/sigv4_utility.go). Strings are byte strings here:
    every character is below 256. */
module QueryString {
  import opened Prelude
  import opened Ordering
  import opened Text

  type Params = map<string, string>

  predicate IsBytes(s: string) {
    forall i :: 0 <= i < |s| ==> s[i] as int < 0x100
  }

  ghost predicate ByteParams(params: Params) {
    forall k :: k in params ==> IsBytes(k) && IsBytes(params[k])
  }

  predicate Unreserved(c: char) {
    'A' <= c <= 'Z' || 'a' <= c <= 'z' || '0' <= c <= '9' || c in {'-', '_', '.', '~'}
  }

  function HexDigit(n: nat): char
    requires n < 16
  {
    if n < 10 then ('0' as int + n) as char else ('A' as int + n - 10) as char
  }

  function HexValue(c: char): Option<nat> {
    if '0' <= c <= '9' then Some(c as int - '0' as int)
    else if 'A' <= c <= 'F' then Some(c as int - 'A' as int + 10)
    else None
  }

  function EscapeByte(c: char): string
    requires c as int < 0x100
  {
    if Unreserved(c) then [c]
    else if c == ' ' then "+"
    else ['%', HexDigit(c as int / 16), HexDigit(c as int % 16)]
  }

  /** Go's `url.QueryEscape`: percent-encoding (section 2.1 of RFC 3986) with a space written '+'. */
  function QueryEscape(s: string): string
    requires IsBytes(s)
  {
    if s == "" then "" else EscapeByte(s[0]) + QueryEscape(s[1..])
  }

  function QueryUnescape(s: string): Option<string> {
    if s == "" then Some("")
    else if s[0] == '%' then
      if |s| < 3 then None
      else match (HexValue(s[1]), HexValue(s[2]), QueryUnescape(s[3..]))
        case (Some(hi), Some(lo), Some(rest)) => Some([(16 * hi + lo) as char] + rest)
        case _ => None
    else match QueryUnescape(s[1..])
      case Some(rest) => Some([if s[0] == '+' then ' ' else s[0]] + rest)
      case None => None
  }

  lemma HexRoundTrip(n: nat)
    requires n < 16
    ensures HexValue(HexDigit(n)) == Some(n)
    ensures HexDigit(n) !in {'&', '=', '%', '+'}
  {
  }

  lemma EscapeByteRoundTrip(c: char, rest: string)
    requires c as int < 0x100
    ensures QueryUnescape(EscapeByte(c) + rest) ==
            match QueryUnescape(rest) case Some(r) => Some([c] + r) case None => None
    ensures '&' !in EscapeByte(c) && '=' !in EscapeByte(c)
  {
    var whole := EscapeByte(c) + rest;
    if Unreserved(c) || c == ' ' {
      assert whole[1..] == rest;
    } else {
      HexRoundTrip(c as int / 16);
      HexRoundTrip(c as int % 16);
      assert whole[3..] == rest;
      assert 16 * (c as int / 16) + c as int % 16 == c as int;
    }
  }

  lemma {:induction false} EscapeRoundTrip(s: string)
    requires IsBytes(s)
    ensures QueryUnescape(QueryEscape(s)) == Some(s)
    ensures '&' !in QueryEscape(s) && '=' !in QueryEscape(s)
  {
    if s != "" {
      EscapeRoundTrip(s[1..]);
      EscapeByteRoundTrip(s[0], QueryEscape(s[1..]));
      assert s == [s[0]] + s[1..];
    }
  }

  // ---- Printing ----

  function ParamText(params: Params, key: string): string
    requires ByteParams(params) && key in params
  {
    QueryEscape(key) + "=" + QueryEscape(params[key])
  }

  function ParamTexts(params: Params, keys: seq<string>): (texts: seq<string>)
    requires ByteParams(params) && forall k :: k in keys ==> k in params
    ensures |texts| == |keys|
  {
    if keys == [] then [] else ParamTexts(params, keys[..|keys| - 1]) + [ParamText(params, keys[|keys| - 1])]
  }

  /** What `toSortedEncodedQueryString` prints when the map yields its keys in this order. */
  ghost function QueryInOrder(params: Params, order: seq<string>): string
    requires ByteParams(params) && Enumerates(order, params.Keys)
  {
    SortedOrder(params.Keys, order);
    Join(ParamTexts(params, Sort(order, Le)), '&')
  }

  lemma SortedOrder(s: set<string>, order: seq<string>)
    requires Enumerates(order, s)
    ensures forall k :: k in Sort(order, Le) <==> k in s
  {
    LeIsTotalOrder();
    SortSorts(order, Le);
    EnumerationMembers(Sort(order, Le), s);
  }

  lemma QueryOrderIndependent(params: Params, order: seq<string>, other: seq<string>)
    requires ByteParams(params) && Enumerates(order, params.Keys) && Enumerates(other, params.Keys)
    ensures QueryInOrder(params, order) == QueryInOrder(params, other)
  {
    LeIsTotalOrder();
    SortOfPermutation(order, other, Le);
  }

  ghost predicate IsCanonicalQuery(query: string, params: Params)
    requires ByteParams(params)
  {
    forall order :: Enumerates(order, params.Keys) ==> query == QueryInOrder(params, order)
  }

  method ToSortedEncodedQueryString(params: Params) returns (query: string)
    requires ByteParams(params)
    ensures IsCanonicalQuery(query, params)
  {
    var keys: seq<string> := [];
    var rest := params.Keys;
    while rest != {}
      invariant rest <= params.Keys
      invariant Enumerates(keys, params.Keys - rest)
      decreases rest
    {
      var key :| key in rest;
      EnumerationGrows(keys, params.Keys, rest, key);
      keys := keys + [key];
      rest := rest - {key};
    }
    assert params.Keys - rest == params.Keys;
    ghost var order := keys;
    SortedOrder(params.Keys, order);
    keys := Sort(keys, Le);

    var queryParams: seq<string> := [];
    var i := 0;
    while i < |keys|
      invariant 0 <= i <= |keys|
      invariant queryParams == ParamTexts(params, keys[..i])
    {
      assert keys[..i + 1][..i] == keys[..i];
      assert keys[i] in keys;
      queryParams := queryParams + [QueryEscape(keys[i]) + "=" + QueryEscape(params[keys[i]])];
      i := i + 1;
    }
    assert keys[..i] == keys;
    query := Join(queryParams, '&');
    forall other | Enumerates(other, params.Keys) ensures query == QueryInOrder(params, other) {
      QueryOrderIndependent(params, order, other);
    }
  }

  // ---- Reading back ----

  function DecodeParam(text: string): Option<(string, string)> {
    match Cut(text, '=')
    case None => None
    case Some(halves) =>
      match (QueryUnescape(halves.0), QueryUnescape(halves.1))
      case (Some(k), Some(v)) => Some((k, v))
      case _ => None
  }

  function DecodeParams(texts: seq<string>): Params {
    if texts == [] then map[]
    else
      var params := DecodeParams(texts[..|texts| - 1]);
      match DecodeParam(texts[|texts| - 1])
      case Some(pair) => params[pair.0 := pair.1]
      case None => params
  }

  function DecodeQuery(query: string): Params {
    if query == "" then map[] else DecodeParams(Split(query, '&'))
  }

  lemma ParamRoundTrip(params: Params, key: string)
    requires ByteParams(params) && key in params
    ensures DecodeParam(ParamText(params, key)) == Some((key, params[key]))
    ensures '&' !in ParamText(params, key) && ParamText(params, key) != ""
  {
    EscapeRoundTrip(key);
    EscapeRoundTrip(params[key]);
    CutAt(QueryEscape(key), QueryEscape(params[key]), '=');
    assert ParamText(params, key) == QueryEscape(key) + ['='] + QueryEscape(params[key]);
  }

  lemma {:induction false} DecodeParamTexts(params: Params, keys: seq<string>)
    requires ByteParams(params) && forall k :: k in keys ==> k in params
    ensures var texts := ParamTexts(params, keys);
            && (forall k :: k in DecodeParams(texts) <==> k in keys)
            && (forall k :: k in keys ==> DecodeParams(texts)[k] == params[k])
            && (forall t :: t in texts ==> '&' !in t && t != "")
  {
    if keys != [] {
      var init, key := keys[..|keys| - 1], keys[|keys| - 1];
      assert keys == init + [key];
      DecodeParamTexts(params, init);
      ParamRoundTrip(params, key);
      var texts := ParamTexts(params, keys);
      assert texts[..|texts| - 1] == ParamTexts(params, init);
    }
  }

  /** The canonical query string determines the parameters. */
  lemma QueryRoundTrip(params: Params, query: string)
    requires ByteParams(params) && IsCanonicalQuery(query, params)
    ensures DecodeQuery(query) == params
  {
    var order := AnyOrder(params.Keys);
    assert query == QueryInOrder(params, order);
    SortedOrder(params.Keys, order);
    var keys := Sort(order, Le);
    DecodeParamTexts(params, keys);
    var texts := ParamTexts(params, keys);
    if texts == [] {
      assert keys == [];
      assert forall k :: k !in params;
    } else {
      JoinCovers(texts, '&', 0);
      assert texts[0] in texts;
      SplitJoin(texts, '&');
    }
  }

  lemma QueryInjective(params1: Params, query1: string, params2: Params, query2: string)
    requires ByteParams(params1) && IsCanonicalQuery(query1, params1)
    requires ByteParams(params2) && IsCanonicalQuery(query2, params2)
    ensures query1 == query2 <==> params1 == params2
  {
    QueryRoundTrip(params1, query1);
    QueryRoundTrip(params2, query2);
    if params1 == params2 {
      var order := AnyOrder(params1.Keys);
      assert query1 == QueryInOrder(params1, order);
    }
  }
}
