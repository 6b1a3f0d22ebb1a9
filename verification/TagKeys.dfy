/** Tag validation (metrics/model/tag.go) and the composite keys that identify a metric
    (metrics/processor.go). */
module TagKeys {
  import opened Prelude
  import opened Ordering
  import opened Text

  /** The classes of Go's `unicode` package, of which only this matters here:
      the three characters the key printer uses are neither letters nor digits. */
  datatype Alphabet = Alphabet(isLetter: char -> bool, isDigit: char -> bool, isSpace: char -> bool) {
    predicate IsAlnum(c: char) { isLetter(c) || isDigit(c) }
  }

  const SEPARATORS: set<char> := {'=', ',', '|'}

  type Unicode = a: Alphabet | forall c :: c in SEPARATORS ==> !a.IsAlnum(c)
    witness Alphabet(c => false, c => false, c => false)

  type Tags = map<string, string>

  const MAX_TAG_LENGTH := 200

  datatype TagError =
    | KeyEmpty | KeyTooLong | KeyStart | KeyCharacter
    | ValueTooLong | ValueCharacter

  function Utf8Width(c: char): nat {
    if c as int < 0x80 then 1
    else if c as int < 0x800 then 2
    else if c as int < 0x10000 then 3
    else 4
  }

  /** The first byte of a character's UTF-8 form, read as a character: what `rune(key[0])` yields. */
  function LeadByte(c: char): char {
    if c as int < 0x80 then c
    else if c as int < 0x800 then (0xC0 + c as int / 0x40) as char
    else if c as int < 0x10000 then (0xE0 + c as int / 0x1000) as char
    else (0xF0 + c as int / 0x40000) as char
  }

  /** Go's `len` of a string: its bytes, not its characters. */
  function ByteLength(s: string): nat {
    if s == "" then 0 else Utf8Width(s[0]) + ByteLength(s[1..])
  }

  predicate IsTagKeyCharacter(u: Unicode, c: char) {
    u.IsAlnum(c) || c in {'_', '-', '.', '/'}
  }

  predicate IsTagValueCharacter(u: Unicode, c: char) {
    u.IsAlnum(c) || c in {'_', '-', ':', '.', '/'}
  }

  function ValidateTagKey(u: Unicode, key: string): Option<TagError> {
    if forall c :: c in key ==> u.isSpace(c) then Some(KeyEmpty)
    else if ByteLength(key) > MAX_TAG_LENGTH then Some(KeyTooLong)
    else if !u.isLetter(LeadByte(key[0])) then Some(KeyStart)
    else if exists c :: c in key[1..] && !IsTagKeyCharacter(u, c) then Some(KeyCharacter)
    else None
  }

  function ValidateTagValue(u: Unicode, value: string): Option<TagError> {
    if ByteLength(value) > MAX_TAG_LENGTH then Some(ValueTooLong)
    else if exists c :: c in value && !IsTagValueCharacter(u, c) then Some(ValueCharacter)
    else None
  }

  predicate ValidTag(u: Unicode, key: string, value: string) {
    ValidateTagKey(u, key).None? && ValidateTagValue(u, value).None?
  }

  predicate ValidTags(u: Unicode, tags: Tags) {
    forall k :: k in tags ==> ValidTag(u, k, tags[k])
  }

  /** Validated tags cannot hold a character the key printer gives a meaning to.
      The first character of a key is only ever checked through its first byte. */
  lemma ValidTagAvoidsSeparators(u: Unicode, key: string, value: string, c: char)
    requires ValidTag(u, key, value) && c in SEPARATORS
    ensures c !in key && c !in value && key != ""
  {
    assert !u.IsAlnum(c);
    assert key == [key[0]] + key[1..];
    assert c as int < 0x80 && LeadByte(c) == c;
  }

  /** What keeps printed tags apart: no separator where the printer puts its own. */
  predicate Separable(tags: Tags) {
    forall k :: k in tags ==> '=' !in k && ',' !in k && '|' !in k && ',' !in tags[k] && '|' !in tags[k]
  }

  lemma ValidTagsAreSeparable(u: Unicode, tags: Tags)
    requires ValidTags(u, tags)
    ensures Separable(tags)
  {
    forall k, c | k in tags && c in SEPARATORS ensures c !in k && c !in tags[k] {
      ValidTagAvoidsSeparators(u, k, tags[k], c);
    }
  }

  // ---- Printing ----

  function PairText(tags: Tags, key: string): string {
    key + "=" + (if key in tags then tags[key] else "")
  }

  function Printer(tags: Tags): string -> string {
    k => PairText(tags, k)
  }

  /** What `createTagsKey` prints when the map yields its keys in this order. */
  function TagsKeyInOrder(tags: Tags, order: seq<string>): string {
    Join(Sort(MapSeq(Printer(tags), order), Le), ',')
  }

  lemma TagsKeyOrderIndependent(tags: Tags, order: seq<string>, other: seq<string>)
    requires Enumerates(order, tags.Keys) && Enumerates(other, tags.Keys)
    ensures TagsKeyInOrder(tags, order) == TagsKeyInOrder(tags, other)
  {
    LeIsTotalOrder();
    MapOfPermutation(Printer(tags), order, other);
    SortOfPermutation(MapSeq(Printer(tags), order), MapSeq(Printer(tags), other), Le);
  }

  /** `key` is the tags key of `tags`, whichever order the map was iterated in. */
  ghost predicate IsTagsKey(key: string, tags: Tags) {
    forall order :: Enumerates(order, tags.Keys) ==> key == TagsKeyInOrder(tags, order)
  }

  method CreateTagsKey(tags: Tags) returns (key: string)
    ensures IsTagsKey(key, tags)
  {
    if |tags| == 0 {
      assert tags.Keys == {};
      IsTagsKeyFromOrder("", tags, []);
      return "";
    }
    var pairs: seq<string> := [];
    ghost var order: seq<string> := [];
    var rest := tags.Keys;
    while rest != {}
      invariant rest <= tags.Keys
      invariant Enumerates(order, tags.Keys - rest)
      invariant pairs == MapSeq(Printer(tags), order)
      decreases rest
    {
      var k :| k in rest;
      EnumerationGrows(order, tags.Keys, rest, k);
      MapSnoc(Printer(tags), order, k);
      pairs := pairs + [k + "=" + tags[k]];
      order := order + [k];
      rest := rest - {k};
    }
    assert tags.Keys - rest == tags.Keys;
    key := Join(Sort(pairs, Le), ',');
    IsTagsKeyFromOrder(key, tags, order);
  }

  lemma IsTagsKeyFromOrder(key: string, tags: Tags, order: seq<string>)
    requires Enumerates(order, tags.Keys) && key == TagsKeyInOrder(tags, order)
    ensures IsTagsKey(key, tags)
  {
    forall other | Enumerates(other, tags.Keys) ensures key == TagsKeyInOrder(tags, other) {
      TagsKeyOrderIndependent(tags, order, other);
    }
  }

  /** The identity of a metric as the processor's registry sees it. */
  function CompositeKey(metricKey: string, tagsKey: string): string {
    if tagsKey == "" then metricKey else metricKey + "|" + tagsKey
  }

  ghost predicate IsCompositeKey(key: string, dimensional: bool, metricKey: string, tags: Tags) {
    if dimensional
    then exists tagsKey :: IsTagsKey(tagsKey, tags) && key == CompositeKey(metricKey, tagsKey)
    else key == metricKey
  }

  method CreateCompositeKey(dimensional: bool, metricKey: string, tags: Tags) returns (key: string)
    ensures IsCompositeKey(key, dimensional, metricKey, tags)
  {
    if !dimensional {
      return metricKey;
    }
    var tagsKey := CreateTagsKey(tags);
    if tagsKey == "" {
      key := metricKey;
    } else {
      key := metricKey + "|" + tagsKey;
    }
    assert key == CompositeKey(metricKey, tagsKey);
  }

  // ---- Reading back ----

  function DecodePairs(parts: seq<string>): Tags {
    if parts == [] then map[]
    else
      var tags := DecodePairs(parts[1..]);
      match Cut(parts[0], '=')
        case Some(pair) => tags[pair.0 := pair.1]
        case None => tags
  }

  function DecodeTags(tagsKey: string): Tags {
    if tagsKey == "" then map[] else DecodePairs(Split(tagsKey, ','))
  }

  /** Undoes CompositeKey: the tags follow the last '|', if there is one. */
  function DecodeComposite(key: string): (string, Tags) {
    match CutLast(key, '|')
      case None => (key, map[])
      case Some(halves) => (halves.0, DecodeTags(halves.1))
  }

  lemma {:induction false} DecodePairsOf(tags: Tags, keys: seq<string>)
    requires Separable(tags) && forall k :: k in keys ==> k in tags
    ensures forall k :: k in DecodePairs(MapSeq(Printer(tags), keys)) <==> k in keys
    ensures forall k :: k in keys ==> DecodePairs(MapSeq(Printer(tags), keys))[k] == tags[k]
  {
    if keys != [] {
      var k, rest := keys[0], keys[1..];
      assert keys == [k] + rest;
      DecodePairsOf(tags, rest);
      MapCons(Printer(tags), k, rest);
      DecodePair(tags, k, MapSeq(Printer(tags), rest));
    }
  }

  lemma DecodePair(tags: Tags, k: string, parts: seq<string>)
    requires Separable(tags) && k in tags
    ensures DecodePairs([Printer(tags)(k)] + parts) == DecodePairs(parts)[k := tags[k]]
  {
    CutAt(k, tags[k], '=');
    assert PairText(tags, k) == k + ['='] + tags[k];
    assert ([PairText(tags, k)] + parts)[1..] == parts;
  }

  /** The sorted pairs are the pairs of some enumeration of the keys. */
  lemma {:induction false} SortedPairsAreInOrder(tags: Tags, order: seq<string>, pairs: seq<string>)
    returns (keys: seq<string>)
    requires multiset(pairs) == multiset(MapSeq(Printer(tags), order))
    ensures multiset(keys) == multiset(order)
    ensures pairs == MapSeq(Printer(tags), keys)
  {
    var texts := MapSeq(Printer(tags), order);
    if order == [] {
      assert |multiset(pairs)| == 0;
      keys := [];
    } else {
      var i := PairPosition(pairs, texts);
      var left := order[..i] + order[i + 1..];
      WithoutEach(pairs, texts, i);
      assert texts[..i] + texts[i + 1..] == MapSeq(Printer(tags), left);
      var rest := SortedPairsAreInOrder(tags, left, pairs[1..]);
      keys := [order[i]] + rest;
      BackInFront(order[i], rest, order, i);
      MapCons(Printer(tags), order[i], rest);
      assert pairs == [pairs[0]] + pairs[1..];
    }
  }

  lemma PairPosition(pairs: seq<string>, texts: seq<string>) returns (i: nat)
    requires multiset(pairs) == multiset(texts) && texts != []
    ensures pairs != [] && i < |texts| && texts[i] == pairs[0]
  {
    assert |multiset(pairs)| == |multiset(texts)|;
    i := IndexIn(pairs, texts);
  }

  lemma PairTextsAvoid(tags: Tags, keys: seq<string>)
    requires Separable(tags) && forall k :: k in keys ==> k in tags
    ensures forall p :: p in MapSeq(Printer(tags), keys) ==> ',' !in p && '|' !in p && p != ""
  {
    var pairs := MapSeq(Printer(tags), keys);
    forall p | p in pairs ensures ',' !in p && '|' !in p && p != "" {
      var i :| 0 <= i < |pairs| && pairs[i] == p;
      assert keys[i] in keys;
      assert p == keys[i] + "=" + tags[keys[i]];
    }
  }

  lemma DecodeJoined(tags: Tags, keys: seq<string>)
    requires Separable(tags) && forall k :: k in keys <==> k in tags
    ensures DecodeTags(Join(MapSeq(Printer(tags), keys), ',')) == tags
    ensures '|' !in Join(MapSeq(Printer(tags), keys), ',')
    ensures Join(MapSeq(Printer(tags), keys), ',') == "" <==> keys == []
  {
    var pairs := MapSeq(Printer(tags), keys);
    PairTextsAvoid(tags, keys);
    JoinAvoids(pairs, ',', '|');
    if keys != [] {
      JoinCovers(pairs, ',', 0);
      assert pairs[0] in pairs;
      SplitJoin(pairs, ',');
      DecodePairsOf(tags, keys);
    }
  }

  lemma TagsKeyRoundTrip(tags: Tags, order: seq<string>)
    requires Separable(tags) && Enumerates(order, tags.Keys)
    ensures DecodeTags(TagsKeyInOrder(tags, order)) == tags
    ensures '|' !in TagsKeyInOrder(tags, order)
    ensures TagsKeyInOrder(tags, order) == "" <==> tags == map[]
  {
    LeIsTotalOrder();
    var texts := MapSeq(Printer(tags), order);
    SortSorts(texts, Le);
    var keys := SortedPairsAreInOrder(tags, order, Sort(texts, Le));
    EnumerationMembers(keys, tags.Keys);
    DecodeJoined(tags, keys);
    assert keys == [] <==> |tags| == 0;
  }

  /** With no '|' in the metric key, the composite key can be read back. */
  lemma CompositeRoundTrip(metricKey: string, tags: Tags, key: string)
    requires Separable(tags) && '|' !in metricKey
    requires IsCompositeKey(key, true, metricKey, tags)
    ensures DecodeComposite(key) == (metricKey, tags)
  {
    var tagsKey :| IsTagsKey(tagsKey, tags) && key == CompositeKey(metricKey, tagsKey);
    var order := AnyOrder(tags.Keys);
    TagsKeyRoundTrip(tags, order);
    CutLastNone(metricKey, '|');
    CutLastAt(metricKey, tagsKey, '|');
  }

  /** Every collision of composite keys over separable tags, whatever the metric keys hold:
      the two identities are equal, or one is untagged and its metric key already
      is the other's composite key. */
  lemma CompositeCollisions(key1: string, tags1: Tags, full1: string,
                            key2: string, tags2: Tags, full2: string)
    requires Separable(tags1) && Separable(tags2)
    requires IsCompositeKey(full1, true, key1, tags1) && IsCompositeKey(full2, true, key2, tags2)
    ensures full1 == full2 <==>
              || (key1 == key2 && tags1 == tags2)
              || (tags1 != map[] && tags2 == map[] && key2 == full1)
              || (tags2 != map[] && tags1 == map[] && key1 == full2)
  {
    var t1 :| IsTagsKey(t1, tags1) && full1 == CompositeKey(key1, t1);
    var t2 :| IsTagsKey(t2, tags2) && full2 == CompositeKey(key2, t2);
    var order1 := AnyOrder(tags1.Keys);
    var order2 := AnyOrder(tags2.Keys);
    TagsKeyRoundTrip(tags1, order1);
    TagsKeyRoundTrip(tags2, order2);
    CutLastAt(key1, t1, '|');
    CutLastAt(key2, t2, '|');
  }

  /** Two metrics whose keys hold no '|' share a composite key exactly when they are the same. */
  lemma CompositeInjective(key1: string, tags1: Tags, full1: string,
                           key2: string, tags2: Tags, full2: string)
    requires Separable(tags1) && Separable(tags2) && '|' !in key1 && '|' !in key2
    requires IsCompositeKey(full1, true, key1, tags1) && IsCompositeKey(full2, true, key2, tags2)
    ensures full1 == full2 <==> key1 == key2 && tags1 == tags2
  {
    CompositeRoundTrip(key1, tags1, full1);
    CompositeRoundTrip(key2, tags2, full2);
    CompositeCollisions(key1, tags1, full1, key2, tags2, full2);
  }
}
