/** A metric and its way to the StatsD client: tags and current value
    (metrics/base_metric.go), counters (metrics/counter.go), the global tags merged in at a
    flush (metrics/processor.go) and `Send` (metrics/transport.go). float64 is read as real. */
module MetricDelivery {
  import opened Prelude
  import opened TagKeys
  import opened Percentile
  import D = DerivedMetrics

  /** A Go map: shared by reference. */
  class TagMap {
    var entries: Tags
    constructor (entries: Tags)
      ensures this.entries == entries
    { this.entries := entries; }
  }

  datatype Message = Message(key: string, kind: Kind, value: real, tags: TagMap?)
  datatype Kind = Gauge | Count | Timer | Unknown

  // ---- Tags of a metric, and a counter's value ----

  /** `sample` answers the sampler's n-th ShouldSample. */
  class Counter {
    const key: string
    const unicode: Unicode
    const sample: nat -> bool
    var tags: Tags
    var currentValue: real
    var draws: nat
    var enqueued: seq<Message>   // the messages handed to the processor

    constructor (key: string, unicode: Unicode, sample: nat -> bool, tags: Tags)
      ensures this.key == key && this.unicode == unicode && this.sample == sample && this.tags == tags
      ensures currentValue == 0.0 && draws == 0 && enqueued == []
    {
      this.key, this.unicode, this.sample, this.tags := key, unicode, sample, tags;
      currentValue, draws, enqueued := 0.0, 0, [];
    }

    method ShouldSample() returns (yes: bool)
      modifies this`draws
      ensures yes == sample(old(draws)) && draws == old(draws) + 1
    {
      yes := sample(draws);
      draws := draws + 1;
    }

    /** `m` is a message of this counter with a map of its own, holding the counter's tags. */
    ghost predicate IsOwnMessage(m: Message)
      reads this, if m.tags == null then {} else {m.tags}
    {
      m.key == key && m.kind == Count && m.tags != null && m.tags.entries == tags
    }

    /** The value and the message are sampled separately. The message takes a copy of the tags. */
    method Add(value: real)
      modifies this`draws, this`currentValue, this`enqueued
      ensures draws == old(draws) + 2
      ensures currentValue == old(currentValue) + if sample(old(draws)) then value else 0.0
      ensures !sample(old(draws) + 1) ==> enqueued == old(enqueued)
      ensures sample(old(draws) + 1) ==>
                && |enqueued| == |old(enqueued)| + 1 && enqueued[..|old(enqueued)|] == old(enqueued)
                && var m := enqueued[|old(enqueued)|];
                   m.value == value && IsOwnMessage(m) && fresh(m.tags)
    {
      var update := ShouldSample();
      if update {
        currentValue := currentValue + value;
      }
      var enqueue := ShouldSample();
      if enqueue {
        var copy := new TagMap(tags);
        enqueued := enqueued + [Message(key, Count, value, copy)];
      }
    }

    method AddAll(values: seq<real>)
      requires draws == 0 && currentValue == 0.0 && enqueued == []
      modifies this`draws, this`currentValue, this`enqueued
      ensures draws == 2 * |values|
      ensures currentValue == ValueAfter(sample, values)
      ensures Amounts(enqueued) == MessagesAfter(sample, values)
      ensures forall i :: 0 <= i < |enqueued| ==> IsOwnMessage(enqueued[i])
    {
      var i := 0;
      while i < |values|
        invariant 0 <= i <= |values| && draws == 2 * i
        invariant currentValue == ValueAfter(sample, values[..i])
        invariant Amounts(enqueued) == MessagesAfter(sample, values[..i])
        invariant forall j :: 0 <= j < |enqueued| ==> IsOwnMessage(enqueued[j])
        invariant forall j :: 0 <= j < |enqueued| ==> fresh(enqueued[j].tags)
      {
        NextAdd(sample, values, i);
        ghost var before := enqueued;
        Add(values[i]);
        AmountsOf(before, enqueued);
        i := i + 1;
      }
      assert values[..i] == values;
    }

    /** Stops at the first invalid pair it meets, in whatever order the map yields them. */
    method SetTags(add: Tags) returns (error: Option<TagError>, ghost done: set<string>)
      modifies this`tags
      ensures error == None <==> ValidTags(unicode, add)
      ensures error == None ==> tags == old(tags) + add
      ensures done <= add.Keys && tags == old(tags) + Restrict(add, done)
      ensures forall k :: k in done ==> ValidTag(unicode, k, add[k])
      ensures ValidTags(unicode, old(tags)) ==> ValidTags(unicode, tags)
    {
      done := {};
      var rest := add.Keys;
      while rest != {}
        invariant rest + done == add.Keys && rest !! done
        invariant forall k :: k in done ==> ValidTag(unicode, k, add[k])
        invariant tags == old(tags) + Restrict(add, done)
        decreases rest
      {
        var k :| k in rest;
        var keyError := ValidateTagKey(unicode, k);
        if keyError.Some? {
          return keyError, done;
        }
        var valueError := ValidateTagValue(unicode, add[k]);
        if valueError.Some? {
          return valueError, done;
        }
        RestrictGrows(old(tags), add, done, k);
        tags := tags[k := add[k]];
        done := done + {k};
        rest := rest - {k};
      }
      RestrictAll(add, done);
      error := None;
    }

    /** The case without dimensional metrics: every valid pair is set, the others are skipped. */
    method SetEachTag(add: Tags)
      modifies this`tags
      ensures tags == old(tags) + Restrict(add, ValidKeys(unicode, add))
      ensures ValidTags(unicode, old(tags)) ==> ValidTags(unicode, tags)
    {
      var rest := add.Keys;
      ghost var done: set<string> := {};
      while rest != {}
        invariant rest <= add.Keys
        invariant forall k :: k in done <==> k in add && k !in rest && ValidTag(unicode, k, add[k])
        invariant tags == old(tags) + Restrict(add, done)
        decreases rest
      {
        var k :| k in rest;
        if ValidTag(unicode, k, add[k]) {
          RestrictGrows(old(tags), add, done, k);
          tags := tags[k := add[k]];
          done := done + {k};
        }
        rest := rest - {k};
      }
      assert done == ValidKeys(unicode, add);
    }

    /** A dimensional variant is a new metric of value 0 with the tags of both and derived
        metrics that start afresh; the original keeps its tags. */
    method CreateDimensional(dimensional: Tags, derived: seq<D.Derived>)
      returns (variant: Counter, variantDerived: seq<D.Derived>)
      ensures |dimensional| == 0 ==> variant == this && variantDerived == derived
      ensures |dimensional| > 0 ==>
                && fresh(variant) && variant.key == key && variant.tags == tags + dimensional
                && variant.currentValue == 0.0 && variant.enqueued == []
                && |variantDerived| == |derived|
                && forall i :: 0 <= i < |derived| ==>
                     && fresh(D.Footprint(variantDerived[i]))
                     && D.SummaryOf(variantDerived[i]) == D.Reset(D.SummaryOf(derived[i]))
    {
      if |dimensional| == 0 {
        return this, derived;
      }
      variant := new Counter(key, unicode, sample, tags + dimensional);
      variantDerived := D.CloneDerivedMetrics(derived);
    }
  }

  function Amounts(messages: seq<Message>): seq<real> {
    seq(|messages|, i requires 0 <= i < |messages| => messages[i].value)
  }

  lemma AmountsOf(before: seq<Message>, after: seq<Message>)
    requires before <= after && |after| <= |before| + 1
    ensures Amounts(after) ==
            if |after| == |before| then Amounts(before) else Amounts(before) + [after[|before|].value]
  {
  }

  lemma NextAdd(sample: nat -> bool, values: seq<real>, i: nat)
    requires i < |values|
    ensures ValueAfter(sample, values[..i + 1]) ==
            ValueAfter(sample, values[..i]) + if sample(2 * i) then values[i] else 0.0
    ensures MessagesAfter(sample, values[..i + 1]) ==
            if sample(2 * i + 1) then MessagesAfter(sample, values[..i]) + [values[i]]
            else MessagesAfter(sample, values[..i])
  {
    assert values[..i + 1][..i] == values[..i];
  }

  function Restrict(m: Tags, keys: set<string>): Tags {
    map k | k in m && k in keys :: m[k]
  }

  function ValidKeys(unicode: Unicode, m: Tags): set<string> {
    set k | k in m && ValidTag(unicode, k, m[k])
  }

  lemma RestrictGrows(base: Tags, add: Tags, done: set<string>, k: string)
    requires k in add
    ensures (base + Restrict(add, done))[k := add[k]] == base + Restrict(add, done + {k})
  {
  }

  lemma RestrictAll(add: Tags, done: set<string>)
    requires add.Keys <= done
    ensures Restrict(add, done) == add
  {
  }

  function ValueAfter(sample: nat -> bool, values: seq<real>): real {
    if values == [] then 0.0
    else
      var last := |values| - 1;
      ValueAfter(sample, values[..last]) + if sample(2 * last) then values[last] else 0.0
  }

  function MessagesAfter(sample: nat -> bool, values: seq<real>): seq<real> {
    if values == [] then []
    else
      var last := |values| - 1;
      var before := MessagesAfter(sample, values[..last]);
      if sample(2 * last + 1) then before + [values[last]] else before
  }

  function Total(values: seq<real>): real {
    if values == [] then 0.0 else Total(values[..|values| - 1]) + values[|values| - 1]
  }

  predicate DrawsAgree(sample: nat -> bool, i: nat) {
    sample(2 * i) == sample(2 * i + 1)
  }

  predicate Balanced(sample: nat -> bool, values: seq<real>) {
    ValueAfter(sample, values) == Total(MessagesAfter(sample, values))
  }

  lemma TotalSnoc(values: seq<real>, v: real)
    ensures Total(values + [v]) == Total(values) + v
  {
    assert (values + [v])[..|values|] == values;
  }

  lemma LastDraws(sample: nat -> bool, values: seq<real>)
    requires values != []
    ensures var last := |values| - 1;
            var init, v := values[..last], values[last];
            && ValueAfter(sample, values) == ValueAfter(sample, init) + (if sample(2 * last) then v else 0.0)
            && MessagesAfter(sample, values) ==
                 if sample(2 * last + 1) then MessagesAfter(sample, init) + [v] else MessagesAfter(sample, init)
  {
  }

  lemma {:induction false} AgreeingDrawsBalance(sample: nat -> bool, values: seq<real>)
    requires forall i: nat :: i < |values| ==> DrawsAgree(sample, i)
    ensures Balanced(sample, values)
  {
    if values != [] {
      var last := |values| - 1;
      AgreeingDrawsBalance(sample, values[..last]);
      assert DrawsAgree(sample, last);
      TotalSnoc(MessagesAfter(sample, values[..last]), values[last]);
    }
  }

  /** Zeros, then a one: what is seen when only the last Add's draws differ. */
  function OneAt(i: nat): seq<real> {
    seq(i, k => 0.0) + [1.0]
  }

  lemma {:induction false} ZerosBalance(sample: nat -> bool, i: nat)
    ensures ValueAfter(sample, seq(i, k => 0.0)) == 0.0
    ensures Total(MessagesAfter(sample, seq(i, k => 0.0))) == 0.0
  {
    if i > 0 {
      ZerosBalance(sample, i - 1);
      var zeros: seq<real> := seq(i, k => 0.0);
      assert zeros[..i - 1] == seq(i - 1, k => 0.0);
      TotalSnoc(MessagesAfter(sample, zeros[..i - 1]), 0.0);
    }
  }

  lemma OneAtEnds(i: nat)
    ensures |OneAt(i)| == i + 1 && OneAt(i)[i] == 1.0 && OneAt(i)[..i] == seq(i, k => 0.0)
  {
  }

  lemma DisagreeingDrawShows(sample: nat -> bool, i: nat)
    requires !DrawsAgree(sample, i)
    ensures !Balanced(sample, OneAt(i))
  {
    var zeros: seq<real> := seq(i, k => 0.0);
    ZerosBalance(sample, i);
    OneAtEnds(i);
    LastDraws(sample, OneAt(i));
    TotalSnoc(MessagesAfter(sample, zeros), 1.0);
  }

  /** A counter's current value is the total of its messages, whatever is added, exactly when
      the sampler gives both questions of each Add the same answer; always sampling does. */
  lemma BalancedExactlyWhen(sample: nat -> bool)
    ensures (forall values: seq<real> :: Balanced(sample, values)) <==> (forall i: nat :: DrawsAgree(sample, i))
  {
    if forall i: nat :: DrawsAgree(sample, i) {
      forall values: seq<real> ensures Balanced(sample, values) {
        AgreeingDrawsBalance(sample, values);
      }
    } else {
      var i: nat :| !DrawsAgree(sample, i);
      DisagreeingDrawShows(sample, i);
    }
  }

  // ---- Merging global tags into a flush ----

  /** Global tags win. A nil map is replaced by a new one, which only the result refers to. */
  method MergeTags(perMetric: TagMap?, globalTags: Tags) returns (merged: TagMap)
    modifies perMetric
    ensures perMetric != null ==> merged == perMetric && merged.entries == old(perMetric.entries) + globalTags
    ensures perMetric == null ==> fresh(merged) && merged.entries == globalTags
  {
    if perMetric == null {
      merged := new TagMap(map[]);
    } else {
      merged := perMetric;
    }
    ghost var before := merged.entries;
    var rest := globalTags.Keys;
    while rest != {}
      invariant rest <= globalTags.Keys
      invariant merged.entries == before + Restrict(globalTags, globalTags.Keys - rest)
      decreases rest
    {
      var k :| k in rest;
      merged.entries := merged.entries[k := globalTags[k]];
      rest := rest - {k};
    }
    assert Restrict(globalTags, globalTags.Keys - rest) == globalTags;
  }

  function Maps(messages: seq<Message>): set<object> {
    set m | m in messages && m.tags != null :: m.tags
  }

  /** What a message says of tags; a nil map reads as an empty one. */
  function TagsOf(m: Message): Tags
    reads if m.tags == null then {} else {m.tags}
  {
    if m.tags == null then map[] else m.tags.entries
  }

  predicate Carries(m: Message, globalTags: Tags)
    reads if m.tags == null then {} else {m.tags}
  {
    forall k :: k in globalTags ==> k in TagsOf(m) && TagsOf(m)[k] == globalTags[k]
  }

  /** The loop of flushMessages. It assigns to a copy of each message, so what is sent is
      `messages` as they were, with the global tags in every map that was there, shared or not.
      A message carries them exactly if it came with a map; those of Counter.Add do. */
  method MergeAll(messages: seq<Message>, globalTags: Tags)
    modifies Maps(messages)
    ensures forall m :: m in messages && m.tags != null ==> m.tags.entries == old(m.tags.entries) + globalTags
    ensures forall m :: m in messages ==> (Carries(m, globalTags) <==> m.tags != null || globalTags == map[])
  {
    var i := 0;
    while i < |messages|
      invariant 0 <= i <= |messages|
      invariant forall m :: m in messages && m.tags != null ==>
                  m.tags.entries == old(m.tags.entries)
                  || m.tags.entries == old(m.tags.entries) + globalTags
      invariant forall m :: m in messages[..i] && m.tags != null ==> m.tags.entries == old(m.tags.entries) + globalTags
    {
      var message := messages[i];
      assert message in messages;
      label Before:
      var merged := MergeTags(message.tags, globalTags);
      forall m | m in messages && m.tags != null
        ensures || m.tags.entries == old@Before(m.tags.entries)
                || m.tags.entries == old@Before(m.tags.entries) + globalTags
      {
      }
      forall m | m in messages && m.tags != null
        ensures m.tags.entries == old(m.tags.entries) || m.tags.entries == old(m.tags.entries) + globalTags
      {
        MergeTwice(old(m.tags.entries), globalTags);
      }
      message := message.(tags := merged);
      i := i + 1;
    }
    assert messages[..i] == messages;
    forall m | m in messages ensures Carries(m, globalTags) <==> m.tags != null || globalTags == map[] {
      if m.tags == null && globalTags != map[] {
        var k :| k in globalTags;
      }
    }
  }

  lemma MergeTwice(tags: Tags, globalTags: Tags)
    ensures (tags + globalTags) + globalTags == tags + globalTags
  {
  }

  // ---- Send ----

  /** What reaches the StatsD client. */
  datatype Emission =
    | EmitGauge(name: string, value: real) | EmitCount(name: string, count: int) | EmitTimer(name: string, ms: real)

  datatype SendError = ClientFailed | UnsupportedType

  /** None for a message of unknown type. */
  function EmissionOf(m: Message): Option<Emission> {
    match m.kind
    case Gauge => Some(EmitGauge(m.key, m.value))
    case Count => Some(EmitCount(m.key, Truncate(m.value)))
    case Timer => Some(EmitTimer(m.key, m.value))
    case Unknown => None
  }

  predicate AllSupported(messages: seq<Message>) {
    forall i :: 0 <= i < |messages| ==> messages[i].kind != Unknown
  }

  function Emissions(messages: seq<Message>): seq<Emission>
    requires AllSupported(messages)
  {
    seq(|messages|, i requires 0 <= i < |messages| => EmissionOf(messages[i]).value)
  }

  lemma EmissionsSnoc(messages: seq<Message>, m: Message)
    requires AllSupported(messages) && m.kind != Unknown
    ensures AllSupported(messages + [m])
    ensures Emissions(messages + [m]) == Emissions(messages) + [EmissionOf(m).value]
  {
  }

  class StatsDTransport {
    const accepts: nat -> bool       // the client's answer to its n-th call
    var calls: nat
    var delivered: seq<Emission>     // the calls the client accepted

    constructor (accepts: nat -> bool)
      ensures this.accepts == accepts && calls == 0 && delivered == []
    {
      this.accepts := accepts;
      calls, delivered := 0, [];
    }

    method CallClient(e: Emission) returns (ok: bool)
      modifies this
      ensures ok == accepts(old(calls)) && calls == old(calls) + 1
      ensures delivered == old(delivered) + if ok then [e] else []
    {
      ok := accepts(calls);
      calls := calls + 1;
      if ok {
        delivered := delivered + [e];
      }
    }

    /** Delivers in order and stops at the first failure: exactly the messages before it
        have been delivered. */
    method Send(messages: seq<Message>) returns (error: Option<SendError>, ghost sent: nat)
      modifies this
      ensures sent <= |messages| && AllSupported(messages[..sent])
      ensures delivered == old(delivered) + Emissions(messages[..sent])
      ensures forall name ::
                Gauges(name, delivered) == Gauges(name, old(delivered)) + OfKind(Gauge, name, messages[..sent])
      ensures forall name ::
                Timers(name, delivered) == Timers(name, old(delivered)) + OfKind(Timer, name, messages[..sent])
      ensures forall c :: old(calls) <= c < old(calls) + sent ==> accepts(c)
      ensures error == None <==> sent == |messages|
      ensures error == Some(UnsupportedType) <==> sent < |messages| && messages[sent].kind == Unknown
      ensures error == Some(ClientFailed) <==>
                sent < |messages| && messages[sent].kind != Unknown && !accepts(old(calls) + sent)
    {
      sent := 0;
      var i := 0;
      while i < |messages|
        invariant 0 <= i <= |messages| && sent == i && calls == old(calls) + i
        invariant AllSupported(messages[..i])
        invariant delivered == old(delivered) + Emissions(messages[..i])
        invariant forall c :: old(calls) <= c < old(calls) + i ==> accepts(c)
      {
        var e := EmissionOf(messages[i]);
        if e == None {
          DeliveredKinds(old(delivered), messages[..i]);
          return Some(UnsupportedType), i;
        }
        var ok := CallClient(e.value);
        if !ok {
          assert old(delivered) + Emissions(messages[..i]) + [] == old(delivered) + Emissions(messages[..i]);
          DeliveredKinds(old(delivered), messages[..i]);
          return Some(ClientFailed), i;
        }
        assert messages[..i + 1] == messages[..i] + [messages[i]];
        EmissionsSnoc(messages[..i], messages[i]);
        assert old(delivered) + Emissions(messages[..i]) + [e.value] == old(delivered) + Emissions(messages[..i + 1]);
        i := i + 1;
        sent := i;
      }
      DeliveredKinds(old(delivered), messages[..i]);
      assert messages[..i] == messages;
      error := None;
    }
  }

  // ---- What reaches the client under one name ----

  /** The values of the gauges under one name, in the order the client got them. */
  function Gauges(name: string, emissions: seq<Emission>): seq<real> {
    if emissions == [] then []
    else
      var before, last := Gauges(name, emissions[..|emissions| - 1]), emissions[|emissions| - 1];
      if last.EmitGauge? && last.name == name then before + [last.value] else before
  }

  /** The same for timers, in milliseconds. */
  function Timers(name: string, emissions: seq<Emission>): seq<real> {
    if emissions == [] then []
    else
      var before, last := Timers(name, emissions[..|emissions| - 1]), emissions[|emissions| - 1];
      if last.EmitTimer? && last.name == name then before + [last.ms] else before
  }

  /** The values of the messages of one kind under one key. */
  function OfKind(kind: Kind, key: string, messages: seq<Message>): seq<real> {
    if messages == [] then []
    else
      var before, last := OfKind(kind, key, messages[..|messages| - 1]), messages[|messages| - 1];
      if last.kind == kind && last.key == key then before + [last.value] else before
  }

  /** Gauges are delivered as gauges and timers as timers, each with its value, in order. */
  lemma {:induction false} DeliveredByKind(name: string, messages: seq<Message>)
    requires AllSupported(messages)
    ensures Gauges(name, Emissions(messages)) == OfKind(Gauge, name, messages)
    ensures Timers(name, Emissions(messages)) == OfKind(Timer, name, messages)
  {
    if messages != [] {
      EmissionsInit(messages);
      DeliveredByKind(name, messages[..|messages| - 1]);
    }
  }

  lemma {:induction false} GaugesConcat(name: string, a: seq<Emission>, b: seq<Emission>)
    ensures Gauges(name, a + b) == Gauges(name, a) + Gauges(name, b)
  {
    if b == [] {
      assert a + b == a;
    } else {
      GaugesConcat(name, a, b[..|b| - 1]);
      assert (a + b)[..|a + b| - 1] == a + b[..|b| - 1];
    }
  }

  lemma {:induction false} TimersConcat(name: string, a: seq<Emission>, b: seq<Emission>)
    ensures Timers(name, a + b) == Timers(name, a) + Timers(name, b)
  {
    if b == [] {
      assert a + b == a;
    } else {
      TimersConcat(name, a, b[..|b| - 1]);
      assert (a + b)[..|a + b| - 1] == a + b[..|b| - 1];
    }
  }

  lemma DeliveredKinds(before: seq<Emission>, messages: seq<Message>)
    requires AllSupported(messages)
    ensures forall name ::
              Gauges(name, before + Emissions(messages)) == Gauges(name, before) + OfKind(Gauge, name, messages)
    ensures forall name ::
              Timers(name, before + Emissions(messages)) == Timers(name, before) + OfKind(Timer, name, messages)
  {
    forall name
      ensures Gauges(name, before + Emissions(messages)) == Gauges(name, before) + OfKind(Gauge, name, messages)
      ensures Timers(name, before + Emissions(messages)) == Timers(name, before) + OfKind(Timer, name, messages)
    {
      DeliveredByKind(name, messages);
      GaugesConcat(name, before, Emissions(messages));
      TimersConcat(name, before, Emissions(messages));
    }
  }

  // ---- What truncation loses ----

  function TruncatedTotal(values: seq<real>): int {
    if values == [] then 0 else TruncatedTotal(values[..|values| - 1]) + Truncate(values[|values| - 1])
  }

  predicate Whole(x: real) {
    x == x.Floor as real
  }

  lemma TruncateNear(x: real)
    ensures -1.0 < x - Truncate(x) as real < 1.0
    ensures Whole(x) <==> Truncate(x) as real == x
  {
    if x < 0.0 && Whole(x) {
      assert (-x) == (-(x.Floor)) as real;
    }
    if Truncate(x) as real == x {
      assert x.Floor == Truncate(x);
    }
  }

  /** Over n >= 1 counts the delivered total is off by less than n, and exact for whole values. */
  lemma {:induction false} TruncatedTotalNear(values: seq<real>)
    requires values != []
    ensures -(|values| as real) < Total(values) - TruncatedTotal(values) as real < |values| as real
    ensures (forall i :: 0 <= i < |values| ==> Whole(values[i])) ==> Total(values) == TruncatedTotal(values) as real
  {
    var init, last := values[..|values| - 1], values[|values| - 1];
    TruncateNear(last);
    if init != [] {
      TruncatedTotalNear(init);
    }
  }

  /** The counts under one name among some emissions. */
  function CountTotal(name: string, emissions: seq<Emission>): int {
    if emissions == [] then 0
    else
      var before, last := CountTotal(name, emissions[..|emissions| - 1]), emissions[|emissions| - 1];
      if last.EmitCount? && last.name == name then before + last.count else before
  }

  lemma TruncatedSnoc(values: seq<real>, v: real)
    ensures TruncatedTotal(values + [v]) == TruncatedTotal(values) + Truncate(v)
  {
    assert (values + [v])[..|values|] == values;
  }

  lemma EmissionsInit(messages: seq<Message>)
    requires messages != [] && AllSupported(messages)
    ensures AllSupported(messages[..|messages| - 1])
    ensures Emissions(messages)[..|messages| - 1] == Emissions(messages[..|messages| - 1])
    ensures Emissions(messages)[|messages| - 1] == EmissionOf(messages[|messages| - 1]).value
  {
  }

  /** Of whatever messages Send has delivered, those of one counter add up to its truncated total. */
  lemma {:induction false} DeliveredCounts(key: string, messages: seq<Message>)
    requires AllSupported(messages)
    ensures CountTotal(key, Emissions(messages)) == TruncatedTotal(OfKind(Count, key, messages))
  {
    if messages != [] {
      EmissionsInit(messages);
      DeliveredCounts(key, messages[..|messages| - 1]);
      TruncatedSnoc(OfKind(Count, key, messages[..|messages| - 1]), messages[|messages| - 1].value);
    }
  }

  /** What a counter enqueued is what counts under its key. */
  lemma {:induction false} OwnValues(key: string, messages: seq<Message>)
    requires forall i :: 0 <= i < |messages| ==> messages[i].key == key && messages[i].kind == Count
    ensures OfKind(Count, key, messages) == Amounts(messages)
  {
    if messages != [] {
      OwnValues(key, messages[..|messages| - 1]);
      AmountsOf(messages[..|messages| - 1], messages);
    }
  }

  /** A counter's additions, once some Send has delivered their messages among others in order:
      the count the client has for it is off from the messages' total by less than their number,
      and for a sampler whose two draws agree that total is the counter's value. */
  lemma DeliveredNearValue(sample: nat -> bool, added: seq<real>, key: string, sent: seq<Message>)
    requires AllSupported(sent) && OfKind(Count, key, sent) == MessagesAfter(sample, added)
    requires MessagesAfter(sample, added) != [] && forall i: nat :: i < |added| ==> DrawsAgree(sample, i)
    ensures var n, counted := |MessagesAfter(sample, added)|, CountTotal(key, Emissions(sent));
            -(n as real) < ValueAfter(sample, added) - counted as real < n as real
  {
    DeliveredCounts(key, sent);
    AgreeingDrawsBalance(sample, added);
    TruncatedTotalNear(MessagesAfter(sample, added));
  }
}
