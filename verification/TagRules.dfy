/** Which tags metrics/model/tag.go accepts, and which error it gives for the others. */
module TagRules {
  import opened Prelude
  import opened TagKeys

  /** Bytes of a string, said without recursion: no fewer than its characters, no more than four
      times as many, exactly as many for ASCII, and they add up. */
  lemma {:induction false} BytesOf(s: string)
    ensures |s| <= ByteLength(s) <= 4 * |s|
    ensures (forall i :: 0 <= i < |s| ==> s[i] as int < 0x80) ==> ByteLength(s) == |s|
    ensures (forall i :: 0 <= i < |s| ==> 0x80 <= s[i] as int < 0x800) ==> ByteLength(s) == 2 * |s|
    ensures (forall i :: 0 <= i < |s| ==> 0x800 <= s[i] as int < 0x10000) ==> ByteLength(s) == 3 * |s|
    ensures (forall i :: 0 <= i < |s| ==> 0x10000 <= s[i] as int) ==> ByteLength(s) == 4 * |s|
  {
    if s != "" {
      BytesOf(s[1..]);
      assert forall i :: 0 <= i < |s[1..]| ==> s[1..][i] == s[i + 1];
    }
  }

  lemma {:induction false} BytesAddUp(a: string, b: string)
    ensures ByteLength(a + b) == ByteLength(a) + ByteLength(b)
  {
    if a == "" {
      assert a + b == b;
    } else {
      BytesAddUp(a[1..], b);
      assert (a + b)[1..] == a[1..] + b;
    }
  }

  ghost predicate Blank(u: Unicode, s: string) {
    forall i :: 0 <= i < |s| ==> u.isSpace(s[i])
  }

  /** Behind its first character a key holds letters, digits and `_-./`. */
  ghost predicate KeyTail(u: Unicode, key: string) {
    forall i :: 1 <= i < |key| ==>
      u.isLetter(key[i]) || u.isDigit(key[i]) || key[i] == '_' || key[i] == '-' || key[i] == '.' || key[i] == '/'
  }

  /** A value holds letters, digits and `_-./:`, and may be empty. */
  ghost predicate ValueBody(u: Unicode, value: string) {
    forall i :: 0 <= i < |value| ==>
      || u.isLetter(value[i]) || u.isDigit(value[i]) || value[i] == '_' || value[i] == '-'
      || value[i] == '.' || value[i] == '/' || value[i] == ':'
  }

  lemma BlankMeans(u: Unicode, s: string)
    ensures Blank(u, s) <==> forall c :: c in s ==> u.isSpace(c)
  {
  }

  lemma TailMeans(u: Unicode, key: string)
    requires key != ""
    ensures KeyTail(u, key) <==> !(exists c :: c in key[1..] && !IsTagKeyCharacter(u, c))
  {
    assert forall i :: 1 <= i < |key| ==> key[1..][i - 1] == key[i];
    if KeyTail(u, key) {
      forall c | c in key[1..] ensures IsTagKeyCharacter(u, c) {
        var i :| 0 <= i < |key[1..]| && key[1..][i] == c;
        assert key[i + 1] == c;
      }
    } else {
      var i :| 1 <= i < |key| && !IsTagKeyCharacter(u, key[i]);
      assert key[i] in key[1..];
    }
  }

  lemma BodyMeans(u: Unicode, value: string)
    ensures ValueBody(u, value) <==> !(exists c :: c in value && !IsTagValueCharacter(u, c))
  {
    if ValueBody(u, value) {
      forall c | c in value ensures IsTagValueCharacter(u, c) {
        var i :| 0 <= i < |value| && value[i] == c;
      }
    } else {
      var i :| 0 <= i < |value| && !IsTagValueCharacter(u, value[i]);
      assert value[i] in value;
    }
  }

  /** A key is accepted exactly if it is not blank, has at most 200 bytes, begins with a byte that
      is a letter and goes on with allowed characters; each error is the first of these to fail. */
  lemma KeyAcceptedExactlyWhen(u: Unicode, key: string)
    ensures ValidateTagKey(u, key) ==
            if Blank(u, key) then Some(KeyEmpty)
            else if ByteLength(key) > 200 then Some(KeyTooLong)
            else if !u.isLetter(LeadByte(key[0])) then Some(KeyStart)
            else if !KeyTail(u, key) then Some(KeyCharacter)
            else None
  {
    BlankMeans(u, key);
    if key != "" {
      TailMeans(u, key);
    }
  }

  lemma ValueAcceptedExactlyWhen(u: Unicode, value: string)
    ensures ValidateTagValue(u, value) ==
            if ByteLength(value) > 200 then Some(ValueTooLong)
            else if !ValueBody(u, value) then Some(ValueCharacter)
            else None
  {
    BodyMeans(u, value);
  }

  /** The first byte of an ASCII character is itself; of any other it is at least 0xC2. */
  lemma LeadByteMeans(c: char)
    ensures c as int < 0x80 ==> LeadByte(c) == c
    ensures c as int >= 0x80 ==> 0xC2 <= LeadByte(c) as int <= 0xF4
    ensures 0x80 <= c as int < 0x800 ==>
              (LeadByte(c) as int - 0xC0) * 0x40 <= c as int < (LeadByte(c) as int - 0xBF) * 0x40
  {
  }
}
