/** What model/attribute_value.go reads from the values JSON yields, mixed and unexpected ones
    included, and the names of the backfill modes (model/matchmaker_backfillmode.go). */
module AttributeReading {
  import opened Prelude
  import opened MatchmakerData

  /** Of a list the texts are kept. */
  lemma OneText(x: Any)
    ensures TextsIn([x]) == if x.Text? then [x.s] else []
  {
    assert [x][..0] == [];
  }

  /** In their order, whichever lists are put together. */
  lemma {:induction false} TextsAddUp(a: seq<Any>, b: seq<Any>)
    ensures TextsIn(a + b) == TextsIn(a) + TextsIn(b)
  {
    if b == [] {
      assert a + b == a;
    } else {
      var init, last := b[..|b| - 1], b[|b| - 1];
      TextsAddUp(a, init);
      TextsSnoc(a + init, last);
      TextsSnoc(init, last);
      Parts(a, init, last, b);
      Regroup(TextsIn(a), TextsIn(init), if last.Text? then [last.s] else []);
    }
  }

  lemma Parts(a: seq<Any>, init: seq<Any>, last: Any, b: seq<Any>)
    requires b != [] && init == b[..|b| - 1] && last == b[|b| - 1]
    ensures b == init + [last] && a + b == (a + init) + [last]
  {
  }

  lemma Regroup(a: seq<string>, b: seq<string>, c: seq<string>)
    ensures (a + b) + c == a + (b + c)
  {
  }

  lemma TextsSnoc(items: seq<Any>, x: Any)
    ensures TextsIn(items + [x]) == TextsIn(items) + if x.Text? then [x.s] else []
  {
    assert (items + [x])[..|items|] == items;
  }

  /** Each shape gives its type and that property alone; what is no list, map, number or text gives
      the untyped attribute. Of a map the numbers are kept. */
  lemma ReadExactly(arg: Any)
    ensures var a := AttributeOf(arg);
            match arg
            case Number(x) => a == AttributeValue(Double, x, "", None, None)
            case Text(s) => a == AttributeValue(String, 0.0, s, None, None)
            case Strings(list) => a == AttributeValue(StringList, 0.0, "", list, None)
            case Numbers(dict) => a == AttributeValue(StringDoubleMap, 0.0, "", None, dict)
            case Array(items) => a == AttributeValue(StringList, 0.0, "", Some(TextsIn(items)), None)
            case Object(fields) =>
              && a.sdm.Some? && a == AttributeValue(StringDoubleMap, 0.0, "", None, a.sdm)
              && (forall k :: k in a.sdm.value <==> k in fields && fields[k].Number?)
              && (forall k :: k in a.sdm.value ==> fields[k] == Number(a.sdm.value[k]))
            case _ => a == AttributeValue(Untyped, 0.0, "", None, None)
  {
  }

  /** The two modes that can be set have these names, and every other mode or name is the unset one. */
  lemma ModeNames(mode: nat, text: string)
    ensures BackfillText(mode) == if mode == 1 then "MANUAL" else if mode == 2 then "AUTOMATIC" else "NOT_SET"
    ensures BackfillMode(text) == 1 <==> text == "MANUAL"
    ensures BackfillMode(text) == 2 <==> text == "AUTOMATIC"
    ensures BackfillMode(text) <= 2
  {
    assert "MANUAL"[0] != "AUTOMATIC"[0];
  }
}
