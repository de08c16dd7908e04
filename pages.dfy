/** Page composition. Every handler writes its page keys into the one shared
    `defaultData` object (`const data = defaultData` aliases it, it does not copy
    it), so a key one request writes is still there for every later request
    that does not overwrite it. */
module Pages {
  import opened Js
  import opened Format
  import opened Lists
  import opened Projections

  /** A settled data-layer promise: what its `await` yields, or the reason it throws. */
  datatype Fetched<T> = Resolved(value: T) | Rejected(reason: Value)

  /** How a handler ends: `res.render(view, data)`, or an awaited query threw. */
  datatype Outcome = Rendered(view: string) | Failed(reason: Value)

  /** `config.map`: the viewport scalars the pokemon page copies. */
  datatype MapConfig = MapConfig(
    tileserver: Value, startLat: Value, startLon: Value,
    startZoom: Value, minZoom: Value, maxZoom: Value)

  /** The index handler's queries, in the order it awaits them. Results after the
      first rejection are never awaited. */
  datatype IndexQueries = IndexQueries(
    newPokestops: Fetched<seq<Value>>,
    newGyms: Fetched<seq<Value>>,
    gymDefenders: Fetched<seq<DefenderRow>>,
    gymsUnderAttack: Fetched<array<Record>>,
    top10: Fetched<seq<IvRow>>,
    lifetime: Fetched<seq<StatRow>>,
    today: Fetched<seq<StatRow>>)

  const INDEX_KEYS: set<string> :=
    {"top10_100iv_pokemon", "lifetime", "today", "gym_defenders", "gyms_under_attack", "new_pokestops", "new_gyms"}

  const POKEMON_KEYS: set<string> :=
    {"pokemon", "tileserver", "start_lat", "start_lon", "start_zoom", "min_zoom", "max_zoom"}

  function ReasonOf<T>(f: Fetched<T>): Option<Value>
  {
    if f.Rejected? then Some(f.reason) else None
  }

  /** Each query's rejection reason, if any, in await order. */
  function Reasons(q: IndexQueries): seq<Option<Value>>
  {
    [ReasonOf(q.newPokestops), ReasonOf(q.newGyms), ReasonOf(q.gymDefenders), ReasonOf(q.gymsUnderAttack),
     ReasonOf(q.top10), ReasonOf(q.lifetime), ReasonOf(q.today)]
  }

  /** The reason the index handler throws: the first rejected query in await order. */
  function FirstRejection(q: IndexQueries): (r: Option<Value>)
    ensures r.None? <==> forall j :: 0 <= j < |Reasons(q)| ==> Reasons(q)[j].None?
    ensures r.Some? ==>
      exists j :: 0 <= j < |Reasons(q)| && Reasons(q)[j] == r && forall k :: 0 <= k < j ==> Reasons(q)[k].None?
  {
    var rs := Reasons(q);
    assert rs[0] == ReasonOf(q.newPokestops) && rs[1] == ReasonOf(q.newGyms) && rs[2] == ReasonOf(q.gymDefenders);
    assert rs[3] == ReasonOf(q.gymsUnderAttack) && rs[4] == ReasonOf(q.top10);
    assert rs[5] == ReasonOf(q.lifetime) && rs[6] == ReasonOf(q.today);
    if q.newPokestops.Rejected? then Some(q.newPokestops.reason)
    else if q.newGyms.Rejected? then Some(q.newGyms.reason)
    else if q.gymDefenders.Rejected? then Some(q.gymDefenders.reason)
    else if q.gymsUnderAttack.Rejected? then Some(q.gymsUnderAttack.reason)
    else if q.top10.Rejected? then Some(q.top10.reason)
    else if q.lifetime.Rejected? then Some(q.lifetime.reason)
    else if q.today.Rejected? then Some(q.today.reason)
    else None
  }

  /** The gyms-under-attack list is annotated once its own await and all earlier ones succeed. */
  predicate ReachesAnnotation(q: IndexQueries)
  {
    q.newPokestops.Resolved? && q.newGyms.Resolved? && q.gymDefenders.Resolved? && q.gymsUnderAttack.Resolved?
  }

  function GymsFrame(q: IndexQueries): set<object>
  {
    if q.gymsUnderAttack.Resolved? then {q.gymsUnderAttack.value} else {}
  }

  /** The `forEach` over the gyms under attack: the whole list after the callback ran on each record. */
  function AnnotateAll(gyms: seq<Record>, env: Env): (r: seq<Record>)
    ensures |r| == |gyms|
    ensures forall i :: 0 <= i < |gyms| ==>
      r[i].Keys == gyms[i].Keys + {"team", "slots_available"} &&
      r[i]["team"] == Str(Lower(env.teamName(Get(gyms[i], "team_id")))) &&
      r[i]["slots_available"] == Str(SlotsLabel(Get(gyms[i], "availble_slots"))) &&
      forall k :: k in gyms[i] && k != "team" && k != "slots_available" ==> r[i][k] == gyms[i][k]
  {
    MapSeq((g: Record) => Annotated(g, env), gyms)
  }

  /** Annotates each gym under attack in place, first to last. */
  method AnnotateGyms(gyms: array<Record>, env: Env)
    modifies gyms
    ensures gyms[..] == AnnotateAll(old(gyms[..]), env)
  {
    var i := 0;
    while i < gyms.Length
      invariant 0 <= i <= gyms.Length
      invariant forall j :: 0 <= j < i ==> gyms[j] == Annotated(old(gyms[j]), env)
      invariant forall j :: i <= j < gyms.Length ==> gyms[j] == old(gyms[j])
    {
      gyms[i] := Annotated(gyms[i], env);
      i := i + 1;
    }
  }

  /** The records as the plain objects the view reads. */
  function Objects(records: seq<Record>): (r: seq<Value>)
    ensures |r| == |records|
    ensures forall i :: 0 <= i < |records| ==> r[i] == Obj(records[i])
  {
    MapSeq((r: Record) => Obj(r), records)
  }

  /** The seven index keys with the given values. */
  function IndexMap(top: Value, life: Value, day: Value, defenders: Value, attacked: Value, stops: Value, gyms: Value)
    : (r: map<string, Value>)
    ensures r.Keys == INDEX_KEYS
    ensures r["top10_100iv_pokemon"] == top && r["lifetime"] == life && r["today"] == day
    ensures r["gym_defenders"] == defenders && r["gyms_under_attack"] == attacked
    ensures r["new_pokestops"] == stops && r["new_gyms"] == gyms
  {
    map[
      "top10_100iv_pokemon" := top,
      "lifetime" := life,
      "today" := day,
      "gym_defenders" := defenders,
      "gyms_under_attack" := attacked,
      "new_pokestops" := stops,
      "new_gyms" := gyms]
  }

  /** The keys the index handler assigns, given the gyms list after annotation. */
  function IndexValues(
    newPokestops: seq<Value>, newGyms: seq<Value>, gymDefenders: seq<DefenderRow>, gymsUnderAttack: seq<Record>,
    top10: seq<IvRow>, lifetime: seq<StatRow>, today: seq<StatRow>, env: Env): (r: map<string, Value>)
    ensures r.Keys == INDEX_KEYS
    ensures r["new_pokestops"] == Arr(newPokestops) && r["new_gyms"] == Arr(newGyms)
    ensures r["gym_defenders"] == Arr(Defenders(gymDefenders, env))
    ensures r["top10_100iv_pokemon"] == Arr(TopIv(top10, env))
    ensures r["lifetime"] == Arr(Stats(lifetime, env)) && r["today"] == Arr(Stats(today, env))
    ensures r["gyms_under_attack"] == Arr(Objects(gymsUnderAttack))
  {
    IndexMap(Arr(TopIv(top10, env)), Arr(Stats(lifetime, env)), Arr(Stats(today, env)),
      Arr(Defenders(gymDefenders, env)), Arr(Objects(gymsUnderAttack)), Arr(newPokestops), Arr(newGyms))
  }

  /** The pokemon page's keys: the name/id list and the six viewport scalars of `config.map`. */
  function PokemonValues(pokemon: Value, cfg: MapConfig): (r: map<string, Value>)
    ensures r.Keys == POKEMON_KEYS
    ensures r["pokemon"] == pokemon && r["tileserver"] == cfg.tileserver
    ensures r["start_lat"] == cfg.startLat && r["start_lon"] == cfg.startLon
    ensures r["start_zoom"] == cfg.startZoom && r["min_zoom"] == cfg.minZoom && r["max_zoom"] == cfg.maxZoom
  {
    map[
      "pokemon" := pokemon,
      "tileserver" := cfg.tileserver,
      "start_lat" := cfg.startLat,
      "start_lon" := cfg.startLon,
      "start_zoom" := cfg.startZoom,
      "min_zoom" := cfg.minZoom,
      "max_zoom" := cfg.maxZoom]
  }

  /** What the home page shows once the gyms list has been annotated: one
      defender entry per defender row, and each gym under attack with its
      team and the slot label of its own `availble_slots` ("Full" for 0). */
  lemma IndexShowsAnnotatedGyms(
    newPokestops: seq<Value>, newGyms: seq<Value>, gymDefenders: seq<DefenderRow>, gyms: seq<Record>,
    top10: seq<IvRow>, lifetime: seq<StatRow>, today: seq<StatRow>, env: Env)
    ensures var r := IndexValues(newPokestops, newGyms, gymDefenders, AnnotateAll(gyms, env), top10, lifetime, today, env);
      |r["gym_defenders"].items| == |gymDefenders| &&
      |r["gyms_under_attack"].items| == |gyms| &&
      forall i :: 0 <= i < |gyms| ==>
        Prop(r["gyms_under_attack"].items[i], "team") == Str(Lower(env.teamName(Get(gyms[i], "team_id")))) &&
        Prop(r["gyms_under_attack"].items[i], "slots_available") == Str(SlotsLabel(Get(gyms[i], "availble_slots"))) &&
        (Get(gyms[i], "availble_slots") == Num(0) ==> Prop(r["gyms_under_attack"].items[i], "slots_available") == Str("Full"))
  {
    var annotated := AnnotateAll(gyms, env);
    var r := IndexValues(newPokestops, newGyms, gymDefenders, annotated, top10, lifetime, today, env);
    forall i | 0 <= i < |gyms|
      ensures r["gyms_under_attack"].items[i] == Obj(annotated[i])
    {
    }
  }

  /** The i18n key of grunt type i, `'grunt_' + i`. */
  function GruntKey(i: nat): (key: string)
    ensures |key| > 6 && key[..6] == "grunt_" && ParseInt(key[6..]) == Some(i)
  {
    var key := "grunt_" + IntToString(i);
    assert key[6..] == IntToString(i);
    IntToStringRoundTrip(i);
    key
  }

  /** Distinct grunt types have distinct i18n keys: the number after "grunt_" reads back as i. */
  lemma GruntKeysDistinct(i: nat, j: nat)
    requires i != j
    ensures GruntKey(i) != GruntKey(j)
  {
    assert GruntKey(i)[6..] == IntToString(i);
    assert GruntKey(j)[6..] == IntToString(j);
    IntToStringRoundTrip(i);
    IntToStringRoundTrip(j);
  }

  /** `grunt_types[i]`: the id and the localized name of grunt type i. */
  function GruntEntry(i: nat, env: Env): (v: Value)
    ensures v.Obj? && v.props.Keys == {"id", "name"}
    ensures Prop(v, "id") == Num(i) && Prop(v, "name") == Str(env.translate(GruntKey(i)))
  {
    Obj(map["id" := Num(i), "name" := Str(env.translate(GruntKey(i)))])
  }

  /** The fixed enumeration of grunt types 0 through 50. */
  function GruntTypes(env: Env): (r: seq<Value>)
    ensures |r| == 51
    ensures forall i :: 0 <= i < 51 ==> Prop(r[i], "id") == Num(i)
    ensures forall i, j :: 0 <= i < j < 51 ==> r[i] != r[j]
  {
    seq(51, i requires 0 <= i < 51 => GruntEntry(i, env))
  }

  /** The invasions page's grunt loop: `for (i = 0; i <= 50; i++) push(...)`. */
  method BuildGruntTypes(env: Env) returns (grunts: seq<Value>)
    ensures |grunts| == 51
    ensures forall i :: 0 <= i < 51 ==>
      Prop(grunts[i], "id") == Num(i) && Prop(grunts[i], "name") == Str(env.translate(GruntKey(i)))
    ensures grunts == GruntTypes(env)
  {
    grunts := [];
    var i := 0;
    while i <= 50
      invariant 0 <= i <= 51
      invariant |grunts| == i
      invariant forall j :: 0 <= j < i ==> grunts[j] == GruntEntry(j, env)
    {
      var grunt := env.translate("grunt_" + IntToString(i));
      assert "grunt_" + IntToString(i) == GruntKey(i);
      grunts := grunts + [Obj(map["id" := Num(i), "name" := Str(grunt)])];
      i := i + 1;
    }
  }

  /** The shared `defaultData` object, as a map from keys to values. */
  class ViewData {
    var fields: map<string, Value>

    /** `require('../data/default.js')`: the object the module exports. */
    constructor (defaults: map<string, Value>)
      ensures fields == defaults
    {
      fields := defaults;
    }

    /** `GET /` and `GET /index`. */
    method Index(q: IndexQueries, env: Env) returns (outcome: Outcome)
      modifies this, GymsFrame(q)
      ensures outcome == if FirstRejection(q).Some? then Failed(FirstRejection(q).value) else Rendered("index")
      ensures ReachesAnnotation(q) ==>
        q.gymsUnderAttack.value[..] == AnnotateAll(old(q.gymsUnderAttack.value[..]), env)
      ensures q.gymsUnderAttack.Resolved? && !ReachesAnnotation(q) ==>
        q.gymsUnderAttack.value[..] == old(q.gymsUnderAttack.value[..])
      ensures outcome.Failed? ==> fields == old(fields)
      ensures outcome.Rendered? ==> fields == old(fields) + IndexValues(
        q.newPokestops.value, q.newGyms.value, q.gymDefenders.value, q.gymsUnderAttack.value[..],
        q.top10.value, q.lifetime.value, q.today.value, env)
      ensures forall k :: k in old(fields) && k !in INDEX_KEYS ==> k in fields && fields[k] == old(fields)[k]
    {
      if q.newPokestops.Rejected? { return Failed(q.newPokestops.reason); }
      var newPokestops := q.newPokestops.value;
      if q.newGyms.Rejected? { return Failed(q.newGyms.reason); }
      var newGyms := q.newGyms.value;
      if q.gymDefenders.Rejected? { return Failed(q.gymDefenders.reason); }
      var topGymDefenders := q.gymDefenders.value;
      if q.gymsUnderAttack.Rejected? { return Failed(q.gymsUnderAttack.reason); }
      var gymsUnderAttack := q.gymsUnderAttack.value;
      AnnotateGyms(gymsUnderAttack, env);
      if q.top10.Rejected? { return Failed(q.top10.reason); }
      var top10 := q.top10.value;
      if q.lifetime.Rejected? { return Failed(q.lifetime.reason); }
      var lifetime := q.lifetime.value;
      if q.today.Rejected? { return Failed(q.today.reason); }
      var today := q.today.value;

      // the seven property assignments, which no await separates
      fields := fields + IndexValues(newPokestops, newGyms, topGymDefenders, gymsUnderAttack[..], top10, lifetime, today, env);
      return Rendered("index");
    }

    /** `GET /pokemon`; `pokemon` is whatever `map.getPokemonNameIdsList()` returns (it is not awaited). */
    method Pokemon(pokemon: Value, cfg: MapConfig) returns (outcome: Outcome)
      modifies this
      ensures outcome == Rendered("pokemon")
      ensures fields == old(fields) + PokemonValues(pokemon, cfg)
      ensures forall k :: k in old(fields) && k !in POKEMON_KEYS ==> k in fields && fields[k] == old(fields)[k]
    {
      fields := fields + PokemonValues(pokemon, cfg);
      return Rendered("pokemon");
    }

    /** `GET /raids`. */
    method Raids(geofences: seq<Record>, pokemon: Value) returns (outcome: Outcome)
      modifies this
      ensures outcome == Rendered("raids")
      ensures fields == old(fields) + map["cities" := Arr(Cities(geofences)), "pokemon" := pokemon]
    {
      fields := fields["cities" := Arr(Cities(geofences))];
      fields := fields["pokemon" := pokemon];
      return Rendered("raids");
    }

    /** `GET /gyms`. */
    method Gyms(geofences: seq<Record>) returns (outcome: Outcome)
      modifies this
      ensures outcome == Rendered("gyms")
      ensures fields == old(fields)["cities" := Arr(Cities(geofences))]
    {
      fields := fields["cities" := Arr(Cities(geofences))];
      return Rendered("gyms");
    }

    /** `GET /quests`: `cities` is written before the rewards query is awaited,
        so it is written even when that query throws. */
    method Quests(geofences: seq<Record>, rewards: Fetched<Value>) returns (outcome: Outcome)
      modifies this
      ensures outcome == if rewards.Resolved? then Rendered("quests") else Failed(rewards.reason)
      ensures rewards.Resolved? ==>
        fields == old(fields) + map["cities" := Arr(Cities(geofences)), "rewards" := rewards.value]
      ensures rewards.Rejected? ==> fields == old(fields)["cities" := Arr(Cities(geofences))]
    {
      fields := fields["cities" := Arr(Cities(geofences))];
      if rewards.Rejected? { return Failed(rewards.reason); }
      fields := fields["rewards" := rewards.value];
      return Rendered("quests");
    }

    /** `GET /invasions`. */
    method Invasions(geofences: seq<Record>, env: Env) returns (outcome: Outcome)
      modifies this
      ensures outcome == Rendered("invasions")
      ensures fields == old(fields) + map["cities" := Arr(Cities(geofences)), "grunt_types" := Arr(GruntTypes(env))]
    {
      var gruntTypes := BuildGruntTypes(env);
      fields := fields["cities" := Arr(Cities(geofences))];
      fields := fields["grunt_types" := Arr(gruntTypes)];
      return Rendered("invasions");
    }

    /** `GET /nests`. */
    method Nests(geofences: seq<Record>) returns (outcome: Outcome)
      modifies this
      ensures outcome == Rendered("nests")
      ensures fields == old(fields)["cities" := Arr(Cities(geofences))]
    {
      fields := fields["cities" := Arr(Cities(geofences))];
      return Rendered("nests");
    }
  }

  /** Two requests in a row on one process: the nests page is rendered with the
      grunt list an earlier invasions request left in the shared object, and
      with the cities of its own geofences. */
  method NestsAfterInvasions(defaults: map<string, Value>, geofences: seq<Record>, env: Env)
    returns (rendered: map<string, Value>)
    ensures "grunt_types" in rendered && rendered["grunt_types"] == Arr(GruntTypes(env))
    ensures "cities" in rendered && rendered["cities"] == Arr(Cities(geofences))
    ensures forall k :: k in defaults && k != "grunt_types" && k != "cities" ==> k in rendered && rendered[k] == defaults[k]
  {
    var data := new ViewData(defaults);
    var _ := data.Invasions(geofences, env);
    var _ := data.Nests(geofences);
    rendered := data.fields;
  }
}
