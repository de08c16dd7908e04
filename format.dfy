/** Display formatting of raw records: slot labels, team names, counts and
    catalog names. The foreign helpers are parameters bundled in `Env`. */
module Format {
  import opened Js

  /** What the handlers take from outside: the pokedex catalog and the foreign
      helpers `locale.getTeamName`, `locale.getPokemonIcon`,
      `Number.prototype.toLocaleString` and `i18n.__`, left uninterpreted. */
  datatype Env = Env(
    pokedex: map<int, string>,
    teamName: Value -> string,
    pokemonIcon: (int, Value) -> string,
    formatCount: nat -> string,
    translate: string -> string)

  /** The gym slot label: a strict comparison with the number 0, otherwise the
      value converted by `+ "/6"`. Nothing checks that the value lies in 0..6. */
  function SlotsLabel(slots: Value): (text: string)
    ensures text == "Full" <==> slots == Num(0)
    ensures slots != Num(0) ==> |text| >= 2 && text[|text| - 2..] == "/6"
  {
    if slots == Num(0) then "Full"
    else
      var t := ToJsString(slots) + "/6";
      assert t[|t| - 1] != "Full"[3];
      t
  }

  /** Reads a non-full slot label back: the number in front of "/6". */
  function ParseSlotsLabel(text: string): Option<int>
  {
    if |text| >= 2 && text[|text| - 2..] == "/6" then ParseInt(text[..|text| - 2]) else None
  }

  /** A non-zero number of free slots is recoverable from its label. */
  lemma SlotsLabelRoundTrip(n: int)
    requires n != 0
    ensures ParseSlotsLabel(SlotsLabel(Num(n))) == Some(n)
  {
  }

  /** For a real gym (1 to 6 free slots) the label is one digit followed by "/6". */
  lemma SlotsLabelInRange(k: int)
    requires 1 <= k <= 6
    ensures SlotsLabel(Num(k)) == [DigitChar(k)] + "/6"
  {
  }

  function LowerChar(c: char): char
  {
    if 'A' <= c <= 'Z' then (c as int - 'A' as int + 'a' as int) as char else c
  }

  /** `String.prototype.toLowerCase`, restricted to the ASCII letters. */
  function Lower(s: string): (r: string)
    ensures |r| == |s|
    ensures forall i :: 0 <= i < |s| ==> !('A' <= r[i] <= 'Z')
    ensures forall i :: 0 <= i < |s| && !('A' <= s[i] <= 'Z') ==> r[i] == s[i]
    ensures forall i :: 0 <= i < |s| && 'A' <= s[i] <= 'Z' ==> r[i] as int == s[i] as int + 32
  {
    seq(|s|, i requires 0 <= i < |s| => LowerChar(s[i]))
  }

  /** `(x || 0)` for a count read from a row: absent reads as 0. */
  function CountOrZero(c: Option<nat>): (n: nat)
    ensures c.None? ==> n == 0
    ensures c.Some? ==> n == c.value
  {
    match c
    case None => 0
    case Some(n) => n
  }

  /** `(x.count || 0).toLocaleString()`. */
  function CountText(c: Option<nat>, env: Env): (v: Value)
    ensures c.None? ==> v == Str(env.formatCount(0))
    ensures c.Some? ==> v == Str(env.formatCount(c.value))
  {
    Str(env.formatCount(CountOrZero(c)))
  }

  /** `pokedex[id]`: the catalog name, or undefined for an unknown id (never an error). */
  function PokedexName(pokedex: map<int, string>, id: int): (v: Value)
    ensures v == Undefined <==> id !in pokedex
    ensures id in pokedex ==> v == Str(pokedex[id])
  {
    if id in pokedex then Str(pokedex[id]) else Undefined
  }
}
