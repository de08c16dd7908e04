/** The record shaping of the index and geofenced pages: each `.map` projection
    of a query result into display entries, and the annotation of a gym that is
    under attack. */
module Projections {
  import opened Js
  import opened Format
  import opened Lists

  /** A row of `map.getGymDefenders(10)`. */
  datatype DefenderRow = DefenderRow(guardingPokemonId: int, count: Option<nat>)

  /** A row of `map.getTopPokemonIVStats(100, 10)`; `iv` is copied through unread. */
  datatype IvRow = IvRow(pokemonId: int, iv: Value, count: Option<nat>)

  /** A row of `map.getTopPokemonStats(lifetime, 10)`. */
  datatype StatRow = StatRow(pokemonId: int, shiny: Option<nat>, count: Option<nat>)

  function DefenderEntry(row: DefenderRow, env: Env): (v: Value)
    ensures v.Obj? && v.props.Keys == {"id", "name", "count", "image_url"}
    ensures Prop(v, "id") == Num(row.guardingPokemonId) && Prop(v, "name") == PokedexName(env.pokedex, row.guardingPokemonId)
    ensures Prop(v, "count") == Str(env.formatCount(CountOrZero(row.count)))
    ensures Prop(v, "image_url") == Str(env.pokemonIcon(row.guardingPokemonId, Num(0)))
  {
    Obj(map[
      "id" := Num(row.guardingPokemonId),
      "name" := PokedexName(env.pokedex, row.guardingPokemonId),
      "count" := CountText(row.count, env),
      "image_url" := Str(env.pokemonIcon(row.guardingPokemonId, Num(0)))])
  }

  /** The `gym_defenders` list: one entry per defender row, in query order. */
  function Defenders(rows: seq<DefenderRow>, env: Env): (r: seq<Value>)
    ensures |r| == |rows|
    ensures forall i :: 0 <= i < |rows| ==>
      r[i].Obj? && r[i].props.Keys == {"id", "name", "count", "image_url"} &&
      Prop(r[i], "id") == Num(rows[i].guardingPokemonId) &&
      Prop(r[i], "name") == PokedexName(env.pokedex, rows[i].guardingPokemonId) &&
      Prop(r[i], "count") == Str(env.formatCount(CountOrZero(rows[i].count))) &&
      Prop(r[i], "image_url") == Str(env.pokemonIcon(rows[i].guardingPokemonId, Num(0)))
  {
    MapSeq(row => DefenderEntry(row, env), rows)
  }

  function IvEntry(row: IvRow, env: Env): (v: Value)
    ensures v.Obj? && v.props.Keys == {"pokemon_id", "name", "iv", "count", "image_url"}
    ensures Prop(v, "pokemon_id") == Num(row.pokemonId) && Prop(v, "name") == PokedexName(env.pokedex, row.pokemonId)
    ensures Prop(v, "iv") == row.iv && Prop(v, "count") == Str(env.formatCount(CountOrZero(row.count)))
    ensures Prop(v, "image_url") == Str(env.pokemonIcon(row.pokemonId, Undefined))
  {
    Obj(map[
      "pokemon_id" := Num(row.pokemonId),
      "name" := PokedexName(env.pokedex, row.pokemonId),
      "iv" := row.iv,
      "count" := CountText(row.count, env),
      "image_url" := Str(env.pokemonIcon(row.pokemonId, Undefined))])
  }

  /** The `top10_100iv_pokemon` list, in query order. */
  function TopIv(rows: seq<IvRow>, env: Env): (r: seq<Value>)
    ensures |r| == |rows|
    ensures forall i :: 0 <= i < |rows| ==>
      r[i].Obj? && r[i].props.Keys == {"pokemon_id", "name", "iv", "count", "image_url"} &&
      Prop(r[i], "pokemon_id") == Num(rows[i].pokemonId) &&
      Prop(r[i], "name") == PokedexName(env.pokedex, rows[i].pokemonId) &&
      Prop(r[i], "iv") == rows[i].iv &&
      Prop(r[i], "count") == Str(env.formatCount(CountOrZero(rows[i].count))) &&
      Prop(r[i], "image_url") == Str(env.pokemonIcon(rows[i].pokemonId, Undefined))
  {
    MapSeq(row => IvEntry(row, env), rows)
  }

  function StatEntry(row: StatRow, env: Env): (v: Value)
    ensures v.Obj? && v.props.Keys == {"pokemon_id", "name", "shiny", "count", "image_url"}
    ensures Prop(v, "pokemon_id") == Num(row.pokemonId) && Prop(v, "name") == PokedexName(env.pokedex, row.pokemonId)
    ensures Prop(v, "shiny") == Str(env.formatCount(CountOrZero(row.shiny)))
    ensures Prop(v, "count") == Str(env.formatCount(CountOrZero(row.count)))
    ensures Prop(v, "image_url") == Str(env.pokemonIcon(row.pokemonId, Undefined))
  {
    Obj(map[
      "pokemon_id" := Num(row.pokemonId),
      "name" := PokedexName(env.pokedex, row.pokemonId),
      "shiny" := CountText(row.shiny, env),
      "count" := CountText(row.count, env),
      "image_url" := Str(env.pokemonIcon(row.pokemonId, Undefined))])
  }

  /** The `lifetime` and `today` lists (both built by the same projection), in query order. */
  function Stats(rows: seq<StatRow>, env: Env): (r: seq<Value>)
    ensures |r| == |rows|
    ensures forall i :: 0 <= i < |rows| ==>
      r[i].Obj? && r[i].props.Keys == {"pokemon_id", "name", "shiny", "count", "image_url"} &&
      Prop(r[i], "pokemon_id") == Num(rows[i].pokemonId) &&
      Prop(r[i], "name") == PokedexName(env.pokedex, rows[i].pokemonId) &&
      Prop(r[i], "shiny") == Str(env.formatCount(CountOrZero(rows[i].shiny))) &&
      Prop(r[i], "count") == Str(env.formatCount(CountOrZero(rows[i].count))) &&
      Prop(r[i], "image_url") == Str(env.pokemonIcon(rows[i].pokemonId, Undefined))
  {
    MapSeq(row => StatEntry(row, env), rows)
  }

  /** The `cities` list: each geofence reduced to its name, in registry order. */
  function Cities(geofences: seq<Record>): (r: seq<Value>)
    ensures |r| == |geofences|
    ensures forall i :: 0 <= i < |geofences| ==>
      r[i].Obj? && r[i].props.Keys == {"name"} && Prop(r[i], "name") == Get(geofences[i], "name")
  {
    MapSeq((g: Record) => Obj(map["name" := Get(g, "name")]), geofences)
  }

  /** One gym under attack after the `forEach` callback: it gains `team` and
      `slots_available`, and every other property keeps its value. */
  function Annotated(gym: Record, env: Env): (a: Record)
    ensures a.Keys == gym.Keys + {"team", "slots_available"}
    ensures a["team"] == Str(Lower(env.teamName(Get(gym, "team_id"))))
    ensures a["slots_available"] == Str(SlotsLabel(Get(gym, "availble_slots")))
    ensures forall k :: k in gym && k != "team" && k != "slots_available" ==> a[k] == gym[k]
  {
    var withTeam := gym["team" := Str(Lower(env.teamName(Get(gym, "team_id"))))];
    withTeam["slots_available" := Str(SlotsLabel(Get(withTeam, "availble_slots")))]
  }
}
