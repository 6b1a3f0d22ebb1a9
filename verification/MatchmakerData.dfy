/** Attribute values (model/attribute_value.go) and the two shapes of matchmaker
    data: a flat list of players, and players grouped by team on the wire
    (model/matchmaker_data.go). */
module MatchmakerData {
  import opened Prelude
  import opened Ordering

  // ---- Attribute values ----

  /** Missing is the nil pointer; Other stands for a number outside the five named types. */
  datatype AttributeType = Missing | Untyped | String | Double | StringList | StringDoubleMap | Other(code: int)

  /** `sl` and `sdm` are None where the Go slice or map is nil. */
  datatype AttributeValue = AttributeValue(
    attrType: AttributeType, n: real, s: string,
    sl: Option<seq<string>>, sdm: Option<map<string, real>>)

  /** The dynamic values an `interface{}` holds here: typed lists and maps before
      they are printed as JSON, arrays and objects after they are parsed. */
  datatype Any =
    | Nil | Bool(b: bool) | Number(x: real) | Text(s: string)
    | Strings(list: Option<seq<string>>) | Numbers(dict: Option<map<string, real>>)
    | Array(items: seq<Any>) | Object(fields: map<string, Any>)

  datatype WireAttribute = WireAttribute(attributeType: string, value: Any)

  /** Marshalling follows the pointer to the type, and panics if there is none. */
  predicate Marshals(a: AttributeValue) {
    a.attrType != Missing
  }

  /** The value for one that does not marshal is never used. */
  function FromAttributeValue(a: AttributeValue): WireAttribute {
    match a.attrType
    case String => WireAttribute("STRING", Text(a.s))
    case Double => WireAttribute("DOUBLE", Number(a.n))
    case StringList => WireAttribute("STRING_LIST", Strings(a.sl))
    case StringDoubleMap => WireAttribute("STRING_DOUBLE_MAP", Numbers(a.sdm))
    case _ => WireAttribute("NONE", Nil)
  }

  const ZERO := AttributeValue(Untyped, 0.0, "", None, None)

  function TextsIn(items: seq<Any>): seq<string> {
    if items == [] then []
    else
      var before := TextsIn(items[..|items| - 1]);
      var last := items[|items| - 1];
      if last.Text? then before + [last.s] else before
  }

  function NumbersIn(fields: map<string, Any>): map<string, real> {
    map k | k in fields && fields[k].Number? :: fields[k].x
  }

  function AttributeOf(arg: Any): AttributeValue {
    match arg
    case Number(x) => ZERO.(attrType := Double, n := x)
    case Text(s) => ZERO.(attrType := String, s := s)
    case Strings(list) => ZERO.(attrType := StringList, sl := list)
    case Numbers(dict) => ZERO.(attrType := StringDoubleMap, sdm := dict)
    case Array(items) => ZERO.(attrType := StringList, sl := Some(TextsIn(items)))
    case Object(fields) => ZERO.(attrType := StringDoubleMap, sdm := Some(NumbersIn(fields)))
    case _ => ZERO
  }

  /** The value as it comes back from JSON: typed lists and maps reappear as
      arrays and objects, nil ones as null. */
  function Reload(v: Any): Any {
    match v
    case Strings(list) => if list == None then Nil else Array(MapSeq(s => Text(s), list.value))
    case Numbers(dict) => if dict == None then Nil else Object(map k | k in dict.value :: Number(dict.value[k]))
    case _ => v
  }

  method MakeAttributeValue(arg: Any) returns (a: AttributeValue)
    ensures a == AttributeOf(arg)
  {
    match arg {
      case Array(items) =>
        var val: seq<string> := [];
        var i := 0;
        while i < |items|
          invariant 0 <= i <= |items|
          invariant val == TextsIn(items[..i])
        {
          assert items[..i + 1][..i] == items[..i];
          if items[i].Text? {
            val := val + [items[i].s];
          }
          i := i + 1;
        }
        assert items[..i] == items;
        a := ZERO.(attrType := StringList, sl := Some(val));
      case Object(fields) =>
        var val: map<string, real> := map[];
        var rest := fields.Keys;
        while rest != {}
          invariant rest <= fields.Keys
          invariant val == map k | k in fields && k !in rest && fields[k].Number? :: fields[k].x
          decreases rest
        {
          var key :| key in rest;
          if fields[key].Number? {
            val := val[key := fields[key].x];
          }
          rest := rest - {key};
        }
        assert val == NumbersIn(fields);
        a := ZERO.(attrType := StringDoubleMap, sdm := Some(val));
      case Number(x) => a := ZERO.(attrType := Double, n := x);
      case Text(s) => a := ZERO.(attrType := String, s := s);
      case Strings(list) => a := ZERO.(attrType := StringList, sl := list);
      case Numbers(dict) => a := ZERO.(attrType := StringDoubleMap, sdm := dict);
      case _ => a := ZERO;
    }
  }

  lemma {:induction false} TextsOfTexts(list: seq<string>)
    ensures TextsIn(MapSeq(s => Text(s), list)) == list
  {
    if list != [] {
      var init := list[..|list| - 1];
      TextsOfTexts(init);
      assert MapSeq(s => Text(s), list)[..|list| - 1] == MapSeq(s => Text(s), init);
    }
  }

  lemma NumbersOfNumbers(dict: map<string, real>)
    ensures NumbersIn(map k | k in dict :: Number(dict[k])) == dict
  {
  }

  function Reread(a: AttributeValue): AttributeValue {
    AttributeOf(Reload(FromAttributeValue(a).value))
  }

  /** What comes out at the other end; None if marshalling panics. */
  function Delivered(a: AttributeValue): Option<AttributeValue> {
    if Marshals(a) then Some(Reread(a)) else None
  }

  /** One property is in use, the one its type names, and it is not nil. */
  predicate SingleTyped(a: AttributeValue) {
    match a.attrType
    case Missing => false
    case Untyped => a == ZERO
    case String => a == ZERO.(attrType := String, s := a.s)
    case Double => a == ZERO.(attrType := Double, n := a.n)
    case StringList => a == ZERO.(attrType := StringList, sl := a.sl) && a.sl.Some?
    case StringDoubleMap => a == ZERO.(attrType := StringDoubleMap, sdm := a.sdm) && a.sdm.Some?
    case Other(_) => false
  }

  /** An attribute survives the wire exactly when it is single-typed. */
  lemma AttributeSurvivesExactlyWhen(a: AttributeValue)
    ensures Delivered(a) == Some(a) <==> SingleTyped(a)
    ensures SingleTyped(Reread(a))
  {
    if a.attrType.StringList? && a.sl.Some? {
      TextsOfTexts(a.sl.value);
    }
    if a.attrType.StringDoubleMap? && a.sdm.Some? {
      NumbersOfNumbers(a.sdm.value);
    }
  }

  /** The wire form a parsed attribute is printed back as. */
  function Reprinted(w: WireAttribute): WireAttribute {
    var out := FromAttributeValue(AttributeOf(w.value));
    out.(value := Reload(out.value))
  }

  /** The tag names the value's shape, and lists and maps are homogeneous. */
  predicate WellTagged(w: WireAttribute) {
    match w.value
    case Nil => w.attributeType == "NONE"
    case Text(_) => w.attributeType == "STRING"
    case Number(_) => w.attributeType == "DOUBLE"
    case Array(items) => w.attributeType == "STRING_LIST" && forall i :: 0 <= i < |items| ==> items[i].Text?
    case Object(fields) => w.attributeType == "STRING_DOUBLE_MAP" && forall k :: k in fields ==> fields[k].Number?
    case _ => false
  }

  lemma {:induction false} TextsKeepHomogeneous(items: seq<Any>)
    ensures MapSeq(s => Text(s), TextsIn(items)) == items <==> forall i :: 0 <= i < |items| ==> items[i].Text?
    ensures |TextsIn(items)| <= |items|
  {
    if items != [] {
      var init, last := items[..|items| - 1], items[|items| - 1];
      TextsKeepHomogeneous(init);
      var back := MapSeq(s => Text(s), TextsIn(items));
      if last.Text? {
        assert back == MapSeq(s => Text(s), TextsIn(init)) + [last];
        assert items == init + [last];
      }
    }
  }

  lemma NumbersKeepHomogeneous(fields: map<string, Any>)
    ensures (map k | k in NumbersIn(fields) :: Number(NumbersIn(fields)[k])) == fields
       <==> forall k :: k in fields ==> fields[k].Number?
  {
    var back := map k | k in NumbersIn(fields) :: Number(NumbersIn(fields)[k]);
    if forall k :: k in fields ==> fields[k].Number? {
      assert back.Keys == fields.Keys;
      assert forall k :: k in fields ==> back[k] == fields[k];
    } else {
      var k :| k in fields && !fields[k].Number?;
      assert k !in back;
    }
  }

  lemma WireAttributeSurvivesExactlyWhen(w: WireAttribute)
    requires !w.value.Strings? && !w.value.Numbers?
    ensures Reprinted(w) == w <==> WellTagged(w)
  {
    match w.value {
      case Array(items) => TextsKeepHomogeneous(items);
      case Object(fields) => NumbersKeepHomogeneous(fields);
      case _ =>
    }
  }

  // ---- Players and teams ----

  datatype Player = Player(
    playerId: string, team: string,
    attributes: map<string, AttributeValue>, latency: map<string, int>)

  datatype WirePlayer = WirePlayer(playerId: string, attributes: map<string, WireAttribute>)

  datatype Team = Team(name: string, players: seq<WirePlayer>)

  datatype Data = Data(
    matchId: string, configurationArn: string, players: seq<Player>,
    ticketId: string, backfillMode: nat)

  datatype WireData = WireData(
    matchId: string, configurationArn: string, teams: seq<Team>,
    ticketId: string, backfillMode: string)

  const BACKFILL_MODES: seq<string> := ["NOT_SET", "MANUAL", "AUTOMATIC"]

  function BackfillText(mode: nat): string {
    BACKFILL_MODES[if mode >= 3 then 0 else mode]
  }

  function BackfillMode(text: string): nat {
    if text == "MANUAL" then 1 else if text == "AUTOMATIC" then 2 else 0
  }

  function OnTeam(players: seq<Player>, name: string): seq<Player> {
    if players == [] then []
    else
      var before := OnTeam(players[..|players| - 1], name);
      var last := players[|players| - 1];
      if last.team == name then before + [last] else before
  }

  function TeamNames(players: seq<Player>): set<string> {
    set p | p in players :: p.team
  }

  function WireAttributes(attributes: map<string, AttributeValue>): map<string, WireAttribute> {
    map k | k in attributes :: FromAttributeValue(attributes[k])
  }

  function ToWire(p: Player): WirePlayer {
    WirePlayer(p.playerId, WireAttributes(p.attributes))
  }

  function GroupTeam(players: seq<Player>, name: string): Team {
    Team(name, MapSeq(ToWire, OnTeam(players, name)))
  }

  function Grouping(players: seq<Player>): string -> Team {
    name => GroupTeam(players, name)
  }

  /** The teams printed when the map of teams yields its names in this order. */
  function GroupInOrder(players: seq<Player>, order: seq<string>): seq<Team> {
    MapSeq(Grouping(players), order)
  }

  function FromWire(name: string, w: WirePlayer): Player {
    Player(w.playerId, name, map k | k in w.attributes :: AttributeOf(w.attributes[k].value), map[])
  }

  function UngroupTeam(team: Team): seq<Player> {
    MapSeq(w => FromWire(team.name, w), team.players)
  }

  function Ungroup(teams: seq<Team>): seq<Player> {
    if teams == [] then [] else Ungroup(teams[..|teams| - 1]) + UngroupTeam(teams[|teams| - 1])
  }

  lemma OnTeamAppends(players: seq<Player>, p: Player, name: string)
    ensures OnTeam(players + [p], name) == OnTeam(players, name) + if p.team == name then [p] else []
  {
    assert (players + [p])[..|players|] == players;
  }

  lemma {:induction false} OnTeamConcat(a: seq<Player>, b: seq<Player>, name: string)
    ensures OnTeam(a + b, name) == OnTeam(a, name) + OnTeam(b, name)
  {
    if b == [] {
      assert a + b == a;
    } else {
      var init := b[..|b| - 1];
      OnTeamConcat(a, init, name);
      assert (a + b)[..|a + b| - 1] == a + init;
    }
  }

  lemma {:induction false} OnTeamEmptyExactlyWhen(players: seq<Player>, name: string)
    ensures OnTeam(players, name) == [] <==> name !in TeamNames(players)
    ensures forall p :: p in OnTeam(players, name) ==> p.team == name
  {
    if players != [] {
      var init, last := players[..|players| - 1], players[|players| - 1];
      assert players == init + [last];
      OnTeamEmptyExactlyWhen(init, name);
      assert TeamNames(players) == TeamNames(init) + {last.team};
    }
  }

  // ---- The two conversions ----

  predicate PlayerMarshals(p: Player) {
    forall k :: k in p.attributes ==> Marshals(p.attributes[k])
  }

  predicate AllMarshal(players: seq<Player>) {
    forall i :: 0 <= i < |players| ==> PlayerMarshals(players[i])
  }

  /** None is the panic. */
  method WireAttributesOf(p: Player) returns (wire: Option<map<string, WireAttribute>>)
    ensures wire == if PlayerMarshals(p) then Some(WireAttributes(p.attributes)) else None
  {
    var out: map<string, WireAttribute> := map[];
    var rest := p.attributes.Keys;
    while rest != {}
      invariant rest <= p.attributes.Keys
      invariant forall k :: k in p.attributes && k !in rest ==> Marshals(p.attributes[k])
      invariant out == map k | k in p.attributes && k !in rest :: FromAttributeValue(p.attributes[k])
      decreases rest
    {
      var k :| k in rest;
      if !Marshals(p.attributes[k]) {
        return None;
      }
      out := out[k := FromAttributeValue(p.attributes[k])];
      rest := rest - {k};
    }
    assert out == WireAttributes(p.attributes);
    wire := Some(out);
  }

  method WirePlayersOf(members: seq<Player>) returns (wirePlayers: Option<seq<WirePlayer>>)
    ensures wirePlayers == if AllMarshal(members) then Some(MapSeq(ToWire, members)) else None
  {
    var out: seq<WirePlayer> := [];
    var i := 0;
    while i < |members|
      invariant 0 <= i <= |members|
      invariant AllMarshal(members[..i]) && out == MapSeq(ToWire, members[..i])
    {
      var attributes := WireAttributesOf(members[i]);
      if attributes == None {
        return None;
      }
      out := out + [WirePlayer(members[i].playerId, attributes.value)];
      i := i + 1;
    }
    assert members[..i] == members;
    wirePlayers := Some(out);
  }

  method GroupByTeam(players: seq<Player>) returns (teams: map<string, seq<Player>>)
    ensures teams.Keys == TeamNames(players)
    ensures forall name :: name in teams ==> teams[name] == OnTeam(players, name)
  {
    teams := map[];
    var i := 0;
    while i < |players|
      invariant 0 <= i <= |players|
      invariant teams.Keys == TeamNames(players[..i])
      invariant forall name :: name in teams ==> teams[name] == OnTeam(players[..i], name)
    {
      var p := players[i];
      assert players[..i + 1] == players[..i] + [p];
      OnTeamEmptyExactlyWhen(players[..i], p.team);
      forall name
        ensures OnTeam(players[..i + 1], name) == OnTeam(players[..i], name) + if p.team == name then [p] else []
      {
        OnTeamAppends(players[..i], p, name);
      }
      if p.team !in teams {
        teams := teams[p.team := []];
      }
      teams := teams[p.team := teams[p.team] + [p]];
      i := i + 1;
    }
    assert players[..i] == players;
  }

  /** The teams of the players, in whatever order the map iteration yields. */
  ghost predicate IsGrouping(players: seq<Player>, teams: seq<Team>) {
    exists order: seq<string> :: Enumerates(order, TeamNames(players)) && teams == GroupInOrder(players, order)
  }

  /** None is the panic of an attribute without a type; otherwise no field but the latencies is lost. */
  method FromMatchmakerData(m: Data) returns (mo: Option<WireData>)
    ensures mo.Some? <==> AllMarshal(m.players)
    ensures mo.Some? ==>
              && IsGrouping(m.players, mo.value.teams)
              && mo.value.matchId == m.matchId && mo.value.configurationArn == m.configurationArn
              && mo.value.ticketId == m.ticketId && mo.value.backfillMode == BackfillText(m.backfillMode)
  {
    var byName := GroupByTeam(m.players);
    var teams, order := PrintTeams(m.players, byName);
    if teams == None {
      return None;
    }
    mo := Some(WireData(m.matchId, m.configurationArn, teams.value, m.ticketId, BackfillText(m.backfillMode)));
  }

  lemma {:induction false} TeamsMarshal(players: seq<Player>, name: string)
    ensures AllMarshal(players) ==> AllMarshal(OnTeam(players, name))
    ensures !AllMarshal(OnTeam(players, name)) ==> !AllMarshal(players)
  {
    if players != [] {
      TeamsMarshal(players[..|players| - 1], name);
    }
  }

  /** A player that does not marshal is on some team. */
  lemma {:induction false} OnOwnTeam(players: seq<Player>, i: nat)
    requires i < |players|
    ensures players[i] in OnTeam(players, players[i].team) && players[i].team in TeamNames(players)
  {
    if i < |players| - 1 {
      OnOwnTeam(players[..|players| - 1], i);
    }
  }

  lemma MarshalByTeam(players: seq<Player>, names: set<string>)
    requires names == TeamNames(players)
    ensures AllMarshal(players) <==> forall name :: name in names ==> AllMarshal(OnTeam(players, name))
  {
    forall name ensures AllMarshal(players) ==> AllMarshal(OnTeam(players, name)) {
      TeamsMarshal(players, name);
    }
    if i :| 0 <= i < |players| && !PlayerMarshals(players[i]) {
      OnOwnTeam(players, i);
      var team := OnTeam(players, players[i].team);
      var j :| 0 <= j < |team| && team[j] == players[i];
      assert !AllMarshal(team);
    }
  }

  method PrintTeams(ghost players: seq<Player>, byName: map<string, seq<Player>>)
    returns (teams: Option<seq<Team>>, ghost order: seq<string>)
    requires byName.Keys == TeamNames(players)
    requires forall name :: name in byName ==> byName[name] == OnTeam(players, name)
    ensures teams.Some? <==> AllMarshal(players)
    ensures teams.Some? ==> Enumerates(order, byName.Keys) && teams.value == GroupInOrder(players, order)
  {
    MarshalByTeam(players, byName.Keys);
    var out: seq<Team> := [];
    order := [];
    var rest := byName.Keys;
    while rest != {}
      invariant rest <= byName.Keys
      invariant forall name :: name in byName && name !in rest ==> AllMarshal(byName[name])
      invariant Enumerates(order, byName.Keys - rest)
      invariant out == GroupInOrder(players, order)
      decreases rest
    {
      var name :| name in rest;
      var wirePlayers := WirePlayersOf(byName[name]);
      if wirePlayers == None {
        return None, order;
      }
      out := out + [Team(name, wirePlayers.value)];
      MapSnoc(Grouping(players), order, name);
      EnumerationGrows(order, byName.Keys, rest, name);
      order := order + [name];
      rest := rest - {name};
    }
    assert byName.Keys - rest == byName.Keys;
    teams := Some(out);
  }

  method ToMatchmakerData(mo: WireData) returns (data: Data)
    ensures data == Data(mo.matchId, mo.configurationArn, Ungroup(mo.teams), mo.ticketId, BackfillMode(mo.backfillMode))
  {
    var players: seq<Player> := [];
    var i := 0;
    while i < |mo.teams|
      invariant 0 <= i <= |mo.teams|
      invariant players == Ungroup(mo.teams[..i])
    {
      var team := mo.teams[i];
      ghost var before := players;
      var j := 0;
      while j < |team.players|
        invariant 0 <= j <= |team.players|
        invariant players == before + UngroupTeam(team)[..j]
      {
        var player := team.players[j];
        var attributes: map<string, AttributeValue> := map[];
        var rest := player.attributes.Keys;
        while rest != {}
          invariant rest <= player.attributes.Keys
          invariant attributes ==
                    map k | k in player.attributes && k !in rest :: AttributeOf(player.attributes[k].value)
          decreases rest
        {
          var k :| k in rest;
          var a := MakeAttributeValue(player.attributes[k].value);
          attributes := attributes[k := a];
          rest := rest - {k};
        }
        assert UngroupTeam(team)[j] == Player(player.playerId, team.name, attributes, map[]);
        players := players + [Player(player.playerId, team.name, attributes, map[])];
        j := j + 1;
      }
      assert mo.teams[..i + 1][..i] == mo.teams[..i];
      i := i + 1;
    }
    assert mo.teams[..i] == mo.teams;
    data := Data(mo.matchId, mo.configurationArn, players, mo.ticketId, BackfillMode(mo.backfillMode));
  }

  // ---- Round trip from players ----

  function ReloadPlayer(w: WirePlayer): WirePlayer {
    w.(attributes := map k | k in w.attributes :: w.attributes[k].(value := Reload(w.attributes[k].value)))
  }

  function ReloadTeam(t: Team): Team {
    t.(players := MapSeq(w => ReloadPlayer(w), t.players))
  }

  function ReloadTeams(teams: seq<Team>): seq<Team> {
    MapSeq(t => ReloadTeam(t), teams)
  }

  /** What is left of a player after the wire: latency is dropped, attributes are as delivered. */
  function DeliveredPlayer(p: Player): Player {
    Player(p.playerId, p.team, map k | k in p.attributes :: Reread(p.attributes[k]), map[])
  }

  function DeliveredPlayers(players: seq<Player>): seq<Player> {
    MapSeq(p => DeliveredPlayer(p), players)
  }

  lemma PlayerSurvivesExactlyWhen(p: Player)
    ensures DeliveredPlayer(p) == p <==>
              p.latency == map[] && forall k :: k in p.attributes ==> SingleTyped(p.attributes[k])
  {
    var back := DeliveredPlayer(p).attributes;
    forall k | k in p.attributes ensures back[k] == p.attributes[k] <==> SingleTyped(p.attributes[k]) {
      AttributeSurvivesExactlyWhen(p.attributes[k]);
    }
    if forall k :: k in p.attributes ==> SingleTyped(p.attributes[k]) {
      assert back == p.attributes;
    }
  }

  lemma PlayerDelivered(p: Player)
    ensures FromWire(p.team, ReloadPlayer(ToWire(p))) == DeliveredPlayer(p)
  {
  }

  lemma TeamDelivered(players: seq<Player>, name: string)
    ensures UngroupTeam(ReloadTeam(GroupTeam(players, name))) == DeliveredPlayers(OnTeam(players, name))
  {
    OnTeamEmptyExactlyWhen(players, name);
    var members := OnTeam(players, name);
    var back := UngroupTeam(ReloadTeam(GroupTeam(players, name)));
    forall i | 0 <= i < |members| ensures back[i] == DeliveredPlayer(members[i]) {
      assert members[i] in members;
      PlayerDelivered(members[i]);
    }
  }

  lemma {:induction false} OnTeamOfOneTeam(members: seq<Player>, own: string, name: string)
    requires forall p :: p in members ==> p.team == own
    ensures OnTeam(members, name) == if own == name then members else []
  {
    if members != [] {
      var init := members[..|members| - 1];
      assert members == init + [members[|members| - 1]];
      assert members[|members| - 1] in members;
      assert forall p :: p in init ==> p in members;
      OnTeamOfOneTeam(init, own, name);
    }
  }

  lemma DeliveredOnTeam(players: seq<Player>, team: string, name: string)
    ensures OnTeam(DeliveredPlayers(OnTeam(players, team)), name) ==
            if team == name then DeliveredPlayers(OnTeam(players, team)) else []
  {
    var members := DeliveredPlayers(OnTeam(players, team));
    OnTeamEmptyExactlyWhen(players, team);
    forall p | p in members ensures p.team == team {
      var i :| 0 <= i < |members| && members[i] == p;
      assert OnTeam(players, team)[i] in OnTeam(players, team);
    }
    OnTeamOfOneTeam(members, team, name);
  }

  /** The last team printed, read back. */
  lemma RoundTripLast(players: seq<Player>, init: seq<string>, last: string, name: string)
    ensures var back := OnTeam(Ungroup(ReloadTeams(GroupInOrder(players, init))), name);
            OnTeam(Ungroup(ReloadTeams(GroupInOrder(players, init + [last]))), name) ==
            if last == name then back + DeliveredPlayers(OnTeam(players, name)) else back
  {
    var back := OnTeam(Ungroup(ReloadTeams(GroupInOrder(players, init))), name);
    PrintedLast(players, init, last);
    TeamDelivered(players, last);
    OnTeamConcat(Ungroup(ReloadTeams(GroupInOrder(players, init))), DeliveredPlayers(OnTeam(players, last)), name);
    DeliveredOnTeam(players, last, name);
    assert back + [] == back;
  }

  lemma PrintedLast(players: seq<Player>, init: seq<string>, last: string)
    ensures Ungroup(ReloadTeams(GroupInOrder(players, init + [last]))) ==
            Ungroup(ReloadTeams(GroupInOrder(players, init))) + UngroupTeam(ReloadTeam(GroupTeam(players, last)))
  {
    var teams := ReloadTeams(GroupInOrder(players, init + [last]));
    assert teams[..|teams| - 1] == ReloadTeams(GroupInOrder(players, init));
  }

  lemma LastOf(order: seq<string>)
    requires order != [] && forall i, j :: 0 <= i < j < |order| ==> order[i] != order[j]
    ensures var init, last := order[..|order| - 1], order[|order| - 1];
            && order == init + [last] && last !in init
            && (forall name :: name in order <==> name in init || name == last)
            && (forall i, j :: 0 <= i < j < |init| ==> init[i] != init[j])
  {
    var init, last := order[..|order| - 1], order[|order| - 1];
    assert order == init + [last];
  }

  lemma {:induction false} RoundTripByTeam(players: seq<Player>, order: seq<string>, name: string)
    requires forall i, j :: 0 <= i < j < |order| ==> order[i] != order[j]
    ensures OnTeam(Ungroup(ReloadTeams(GroupInOrder(players, order))), name) ==
            if name in order then DeliveredPlayers(OnTeam(players, name)) else []
    decreases |order|
  {
    if order != [] {
      LastOf(order);
      RoundTripByTeam(players, order[..|order| - 1], name);
      RoundTripLast(players, order[..|order| - 1], order[|order| - 1], name);
    }
  }

  lemma {:induction false} OnTeamOfDelivered(players: seq<Player>, name: string)
    ensures OnTeam(DeliveredPlayers(players), name) == DeliveredPlayers(OnTeam(players, name))
  {
    if players != [] {
      var init, last := players[..|players| - 1], players[|players| - 1];
      OnTeamOfDelivered(init, name);
      assert DeliveredPlayers(players)[..|players| - 1] == DeliveredPlayers(init);
      assert last.team == name ==>
          DeliveredPlayers(OnTeam(players, name)) == DeliveredPlayers(OnTeam(init, name)) + [DeliveredPlayer(last)];
    }
  }

  lemma {:induction false} CountWithinTeam(players: seq<Player>, p: Player)
    ensures multiset(players)[p] == multiset(OnTeam(players, p.team))[p]
  {
    if players != [] {
      var init, last := players[..|players| - 1], players[|players| - 1];
      assert players == init + [last];
      CountWithinTeam(init, p);
    }
  }

  lemma SameTeamsSamePlayers(a: seq<Player>, b: seq<Player>)
    requires forall name :: OnTeam(a, name) == OnTeam(b, name)
    ensures multiset(a) == multiset(b)
  {
    forall p ensures multiset(a)[p] == multiset(b)[p] {
      CountWithinTeam(a, p);
      CountWithinTeam(b, p);
    }
  }

  /** Grouping, printing, parsing and flattening gives the delivered players back,
      permuted, each team in its own order, whatever order the teams came in. */
  lemma PlayersRoundTrip(players: seq<Player>, order: seq<string>)
    requires Enumerates(order, TeamNames(players))
    ensures var back := Ungroup(ReloadTeams(GroupInOrder(players, order)));
            && (forall name :: OnTeam(back, name) == DeliveredPlayers(OnTeam(players, name)))
            && multiset(back) == multiset(DeliveredPlayers(players))
  {
    EnumerationMembers(order, TeamNames(players));
    var back := Ungroup(ReloadTeams(GroupInOrder(players, order)));
    forall name ensures OnTeam(back, name) == DeliveredPlayers(OnTeam(players, name)) {
      RoundTripByTeam(players, order, name);
      OnTeamEmptyExactlyWhen(players, name);
    }
    forall name ensures OnTeam(back, name) == OnTeam(DeliveredPlayers(players), name) {
      OnTeamOfDelivered(players, name);
    }
    SameTeamsSamePlayers(back, DeliveredPlayers(players));
  }

  lemma BackfillModeSurvivesExactlyWhen(mode: nat)
    ensures BackfillMode(BackfillText(mode)) == mode <==> mode <= 2
  {
    assert BACKFILL_MODES[1] == "MANUAL" && BACKFILL_MODES[2] == "AUTOMATIC";
    assert BACKFILL_MODES[0][0] == 'N';
  }

  // ---- Round trip from the wire ----

  function ReprintedPlayer(w: WirePlayer): WirePlayer {
    w.(attributes := map k | k in w.attributes :: Reprinted(w.attributes[k]))
  }

  function ReprintedTeam(t: Team): Team {
    t.(players := MapSeq(w => ReprintedPlayer(w), t.players))
  }

  function ReprintedTeams(teams: seq<Team>): seq<Team> {
    MapSeq(t => ReprintedTeam(t), teams)
  }

  predicate DistinctNames(teams: seq<Team>) {
    forall i, j :: 0 <= i < j < |teams| ==> teams[i].name != teams[j].name
  }

  predicate NoEmptyTeam(teams: seq<Team>) {
    forall i :: 0 <= i < |teams| ==> teams[i].players != []
  }

  function Names(teams: seq<Team>): seq<string> {
    MapSeq((t: Team) => t.name, teams)
  }

  lemma UngroupedLast(teams: seq<Team>, name: string)
    requires teams != []
    ensures var init, last := teams[..|teams| - 1], teams[|teams| - 1];
            OnTeam(Ungroup(teams), name) ==
            if last.name == name then OnTeam(Ungroup(init), name) + UngroupTeam(last) else OnTeam(Ungroup(init), name)
  {
    var init, last := teams[..|teams| - 1], teams[|teams| - 1];
    OnTeamConcat(Ungroup(init), UngroupTeam(last), name);
    OnTeamOfOneTeam(UngroupTeam(last), last.name, name);
    assert OnTeam(Ungroup(init), name) + [] == OnTeam(Ungroup(init), name);
  }

  lemma NamesOfInit(teams: seq<Team>)
    requires teams != [] && DistinctNames(teams)
    ensures var init, last := teams[..|teams| - 1], teams[|teams| - 1];
            && Names(teams) == Names(init) + [last.name]
            && last.name !in Names(init)
            && forall i :: 0 <= i < |init| ==> init[i] == teams[i] && teams[i].name in Names(init)
  {
    var init := teams[..|teams| - 1];
    forall i | 0 <= i < |init| ensures teams[i].name in Names(init) {
      assert Names(init)[i] == teams[i].name;
    }
  }

  lemma {:induction false} UngroupedTeam(teams: seq<Team>, name: string)
    requires DistinctNames(teams)
    ensures forall i :: 0 <= i < |teams| && teams[i].name == name ==>
              OnTeam(Ungroup(teams), name) == UngroupTeam(teams[i])
    ensures name !in Names(teams) ==> OnTeam(Ungroup(teams), name) == []
  {
    if teams != [] {
      var init, last := teams[..|teams| - 1], teams[|teams| - 1];
      UngroupedTeam(init, name);
      UngroupedLast(teams, name);
      NamesOfInit(teams);
    }
  }

  lemma PlayerReprinted(name: string, w: WirePlayer)
    ensures ReloadPlayer(ToWire(FromWire(name, w))) == ReprintedPlayer(w)
  {
  }

  lemma TeamReprinted(teams: seq<Team>, i: nat)
    requires DistinctNames(teams) && i < |teams|
    ensures ReloadTeam(GroupTeam(Ungroup(teams), teams[i].name)) == ReprintedTeam(teams[i])
  {
    var t := teams[i];
    UngroupedTeam(teams, t.name);
    forall j | 0 <= j < |t.players|
      ensures ReloadPlayer(ToWire(UngroupTeam(t)[j])) == ReprintedPlayer(t.players[j])
    {
      PlayerReprinted(t.name, t.players[j]);
    }
  }

  lemma {:induction false} NamesOfUngrouped(teams: seq<Team>)
    ensures forall name :: name in TeamNames(Ungroup(teams)) <==>
              exists i :: 0 <= i < |teams| && teams[i].name == name && teams[i].players != []
  {
    if teams != [] {
      var init, last := teams[..|teams| - 1], teams[|teams| - 1];
      assert teams == init + [last];
      NamesOfUngrouped(init);
      var own := UngroupTeam(last);
      assert TeamNames(Ungroup(teams)) == TeamNames(Ungroup(init)) + TeamNames(own);
      if own != [] {
        assert own[0] in own;
      }
      assert TeamNames(own) == if last.players == [] then {} else {last.name};
      forall i | 0 <= i < |init| && init[i].players != [] ensures init[i].name in TeamNames(Ungroup(teams)) {
        assert init[i].name in TeamNames(Ungroup(init));
      }
      forall name | name in TeamNames(Ungroup(teams))
        ensures exists i :: 0 <= i < |teams| && teams[i].name == name && teams[i].players != []
      {
        if name in TeamNames(Ungroup(init)) {
          var i :| 0 <= i < |init| && init[i].name == name && init[i].players != [];
          assert teams[i].name == name;
        } else {
          assert teams[|init|].name == name;
        }
      }
    }
  }

  lemma NamesEnumerate(teams: seq<Team>)
    requires DistinctNames(teams) && NoEmptyTeam(teams)
    ensures Enumerates(Names(teams), TeamNames(Ungroup(teams)))
  {
    NamesOfUngrouped(teams);
    var names := Names(teams);
    forall i | 0 <= i < |teams| ensures names[i] in TeamNames(Ungroup(teams)) && multiset(names)[names[i]] == 1 {
      assert teams[i].players != [];
      DistinctCount(names, i);
    }
    forall name | name in TeamNames(Ungroup(teams)) ensures name in names {
      var i :| 0 <= i < |teams| && teams[i].name == name && teams[i].players != [];
      assert names[i] == name;
    }
    assert forall name :: name in names <==> name in multiset(names);
  }

  lemma DistinctCount(names: seq<string>, i: nat)
    requires i < |names| && forall a, b :: 0 <= a < b < |names| ==> names[a] != names[b]
    ensures multiset(names)[names[i]] == 1
  {
    assert names == names[..i] + [names[i]] + names[i + 1..];
  }

  /** Flattening a wire value and grouping it again gives the same teams, as a
      permutation and with their players in order, exactly when the team names are
      distinct and no team is empty. */
  lemma TeamsRoundTripExactlyWhen(teams: seq<Team>, order: seq<string>)
    requires Enumerates(order, TeamNames(Ungroup(teams)))
    ensures multiset(ReloadTeams(GroupInOrder(Ungroup(teams), order))) == multiset(ReprintedTeams(teams))
       <==> DistinctNames(teams) && NoEmptyTeam(teams)
  {
    var players := Ungroup(teams);
    if DistinctNames(teams) && NoEmptyTeam(teams) {
      NamesEnumerate(teams);
      MapOfPermutation(Grouping(players), order, Names(teams));
      MapOfPermutation(t => ReloadTeam(t), GroupInOrder(players, order), GroupInOrder(players, Names(teams)));
      forall i | 0 <= i < |teams| ensures ReloadTeam(GroupTeam(players, teams[i].name)) == ReprintedTeam(teams[i]) {
        TeamReprinted(teams, i);
      }
      assert ReloadTeams(GroupInOrder(players, Names(teams))) == ReprintedTeams(teams);
    } else if multiset(ReloadTeams(GroupInOrder(players, order))) == multiset(ReprintedTeams(teams)) {
      EnumerationMembers(order, TeamNames(players));
      GroupedTeamsAreProper(players, order);
      SameNames(ReloadTeams(GroupInOrder(players, order)), ReprintedTeams(teams), teams);
      assert false;
    }
  }

  lemma GroupedTeamsAreProper(players: seq<Player>, order: seq<string>)
    requires Enumerates(order, TeamNames(players))
    ensures DistinctNames(ReloadTeams(GroupInOrder(players, order)))
    ensures NoEmptyTeam(ReloadTeams(GroupInOrder(players, order)))
  {
    EnumerationMembers(order, TeamNames(players));
    forall i | 0 <= i < |order| ensures OnTeam(players, order[i]) != [] {
      assert order[i] in order;
      OnTeamEmptyExactlyWhen(players, order[i]);
    }
  }

  lemma SameNames(out: seq<Team>, reprinted: seq<Team>, teams: seq<Team>)
    requires reprinted == ReprintedTeams(teams)
    requires DistinctNames(out) && NoEmptyTeam(out) && multiset(out) == multiset(reprinted)
    ensures DistinctNames(teams) && NoEmptyTeam(teams)
  {
    forall i | 0 <= i < |teams| ensures teams[i].players != [] {
      assert reprinted[i] in multiset(out);
      var j :| 0 <= j < |out| && out[j] == reprinted[i];
    }
    MapOfPermutation((t: Team) => t.name, out, reprinted);
    assert Names(reprinted) == Names(teams);
    DistinctElsewhere(Names(out), Names(teams));
    forall i, j | 0 <= i < j < |teams| ensures teams[i].name != teams[j].name {
      assert Names(teams)[i] == teams[i].name && Names(teams)[j] == teams[j].name;
    }
  }

  lemma DistinctElsewhere(a: seq<string>, b: seq<string>)
    requires multiset(a) == multiset(b) && forall i, j :: 0 <= i < j < |a| ==> a[i] != a[j]
    ensures forall i, j :: 0 <= i < j < |b| ==> b[i] != b[j]
  {
    forall i, j | 0 <= i < j < |b| ensures b[i] != b[j] {
      assert b[j] in multiset(a);
      var k :| 0 <= k < |a| && a[k] == b[j];
      DistinctCount(a, k);
      if b[i] == b[j] {
        TwiceCounts(b, i, j);
      }
    }
  }

  lemma TwiceCounts(names: seq<string>, i: nat, j: nat)
    requires i < j < |names| && names[i] == names[j]
    ensures multiset(names)[names[j]] >= 2
  {
    assert names == names[..j] + [names[j]] + names[j + 1..];
    assert names[..j][i] in multiset(names[..j]);
  }
}
