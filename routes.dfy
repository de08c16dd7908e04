/** The feature gate: which routes the module registers on its router, decided
    once at load time from the configuration flags. */
module Routes {
  import opened Js

  datatype Page = Home | Login | Logout | PokemonPage | RaidsPage | GymsPage | QuestsPage | InvasionsPage | NestsPage

  /** `config.pages.<x>.enabled` for each optional page. */
  datatype PageFlags = PageFlags(pokemon: bool, raids: bool, gyms: bool, quests: bool, invasions: bool, nests: bool)

  /** The flags the module reads: `config.discord.enabled` and the page flags. */
  datatype Flags = Flags(discordEnabled: bool, pages: PageFlags)

  /** One `router.get(paths, handler)` registration. */
  datatype Route = Route(paths: seq<string>, page: Page)

  function When(enabled: bool, routes: seq<Route>): seq<Route>
  {
    if enabled then routes else []
  }

  /** The registrations, in the order the module makes them. */
  function RouteTable(f: Flags): (r: seq<Route>)
    ensures |r| >= 1 && r[0] == Route(["/", "/index"], Home)
    ensures forall i :: 0 <= i < |r| ==> Enabled(f, r[i].page)
  {
    var home, auth, pokemon, raids := HomeRoutes(), AuthRoutes(f), PokemonRoutes(f), RaidsRoutes(f);
    var gyms, quests, invasions, nests := GymsRoutes(f), QuestsRoutes(f), InvasionsRoutes(f), NestsRoutes(f);
    assert AllEnabled(f, home) && AllEnabled(f, auth) && AllEnabled(f, pokemon) && AllEnabled(f, raids);
    assert AllEnabled(f, gyms) && AllEnabled(f, quests) && AllEnabled(f, invasions) && AllEnabled(f, nests);
    AllEnabledAppend(f, home, auth);
    AllEnabledAppend(f, home + auth, pokemon);
    AllEnabledAppend(f, home + auth + pokemon, raids);
    AllEnabledAppend(f, home + auth + pokemon + raids, gyms);
    AllEnabledAppend(f, home + auth + pokemon + raids + gyms, quests);
    AllEnabledAppend(f, home + auth + pokemon + raids + gyms + quests, invasions);
    AllEnabledAppend(f, home + auth + pokemon + raids + gyms + quests + invasions, nests);
    home + auth + pokemon + raids + gyms + quests + invasions + nests
  }

  /** `router.get(['/', '/index'], ...)`, registered unconditionally. */
  function HomeRoutes(): seq<Route>
  {
    [Route(["/", "/index"], Home)]
  }

  /** The `/login` and `/logout` registrations under `config.discord.enabled`. */
  function AuthRoutes(f: Flags): seq<Route>
  {
    When(f.discordEnabled, [Route(["/login"], Login), Route(["/logout"], Logout)])
  }

  function PokemonRoutes(f: Flags): seq<Route>
  {
    When(f.pages.pokemon, [Route(["/pokemon"], PokemonPage)])
  }

  function RaidsRoutes(f: Flags): seq<Route>
  {
    When(f.pages.raids, [Route(["/raids"], RaidsPage)])
  }

  function GymsRoutes(f: Flags): seq<Route>
  {
    When(f.pages.gyms, [Route(["/gyms"], GymsPage)])
  }

  function QuestsRoutes(f: Flags): seq<Route>
  {
    When(f.pages.quests, [Route(["/quests"], QuestsPage)])
  }

  function InvasionsRoutes(f: Flags): seq<Route>
  {
    When(f.pages.invasions, [Route(["/invasions"], InvasionsPage)])
  }

  function NestsRoutes(f: Flags): seq<Route>
  {
    When(f.pages.nests, [Route(["/nests"], NestsPage)])
  }

  /** One registration per enabled page, and two for Discord sign-in. */
  lemma RouteTableSize(f: Flags)
    ensures |RouteTable(f)| == 1 + (if f.discordEnabled then 2 else 0) + Count(f.pages.pokemon) + Count(f.pages.raids)
      + Count(f.pages.gyms) + Count(f.pages.quests) + Count(f.pages.invasions) + Count(f.pages.nests)
  {
  }

  function Count(b: bool): nat
  {
    if b then 1 else 0
  }

  /** Every registration in the table serves an enabled page. */
  predicate AllEnabled(f: Flags, table: seq<Route>)
  {
    forall i :: 0 <= i < |table| ==> Enabled(f, table[i].page)
  }

  lemma AllEnabledAppend(f: Flags, a: seq<Route>, b: seq<Route>)
    requires AllEnabled(f, a) && AllEnabled(f, b)
    ensures AllEnabled(f, a + b)
  {
  }

  /** The router's dispatch: the first registration that lists the path;
      None is the router's not-found. */
  function Resolve(table: seq<Route>, path: string): (r: Option<Page>)
    ensures r.None? <==> forall i :: 0 <= i < |table| ==> path !in table[i].paths
    ensures r.Some? ==>
      exists i :: 0 <= i < |table| && path in table[i].paths && r == Some(table[i].page) &&
        forall k :: 0 <= k < i ==> path !in table[k].paths
  {
    if table == [] then None
    else if path in table[0].paths then Some(table[0].page)
    else Resolve(table[1..], path)
  }

  /** Every path some registration lists. */
  function Paths(table: seq<Route>): set<string>
  {
    if table == [] then {} else (set p | p in table[0].paths) + Paths(table[1..])
  }

  /** Reference definition: the page each path names, whatever the flags. */
  function PageOf(path: string): Option<Page>
  {
    if path == "/" || path == "/index" then Some(Home)
    else if path == "/login" then Some(Login)
    else if path == "/logout" then Some(Logout)
    else if path == "/pokemon" then Some(PokemonPage)
    else if path == "/raids" then Some(RaidsPage)
    else if path == "/gyms" then Some(GymsPage)
    else if path == "/quests" then Some(QuestsPage)
    else if path == "/invasions" then Some(InvasionsPage)
    else if path == "/nests" then Some(NestsPage)
    else None
  }

  /** Reference definition: the one flag that gates each page. */
  predicate Enabled(f: Flags, p: Page)
  {
    match p
    case Home => true
    case Login => f.discordEnabled
    case Logout => f.discordEnabled
    case PokemonPage => f.pages.pokemon
    case RaidsPage => f.pages.raids
    case GymsPage => f.pages.gyms
    case QuestsPage => f.pages.quests
    case InvasionsPage => f.pages.invasions
    case NestsPage => f.pages.nests
  }

  /** Each registration serves the page its paths name. */
  predicate Consistent(table: seq<Route>)
  {
    forall i, q :: 0 <= i < |table| && q in table[i].paths ==> PageOf(q) == Some(table[i].page)
  }

  lemma {:induction false} PathsAppend(a: seq<Route>, b: seq<Route>)
    ensures Paths(a + b) == Paths(a) + Paths(b)
    decreases |a|
  {
    if a != [] {
      assert (a + b)[0] == a[0];
      assert (a + b)[1..] == a[1..] + b;
      PathsAppend(a[1..], b);
    } else {
      assert a + b == b;
    }
  }

  /** Where no two pages share a path, dispatch is PageOf on the registered paths. */
  lemma {:induction false} ResolveConsistent(table: seq<Route>, path: string)
    requires Consistent(table)
    ensures Resolve(table, path) == if path in Paths(table) then PageOf(path) else None
    decreases |table|
  {
    if table != [] {
      assert Consistent(table[1..]) by {
        forall i, q | 0 <= i < |table[1..]| && q in table[1..][i].paths
          ensures PageOf(q) == Some(table[1..][i].page)
        {
          assert table[1..][i] == table[i + 1];
        }
      }
      ResolveConsistent(table[1..], path);
    }
  }

  lemma PathsWhen(enabled: bool, path: string, page: Page)
    ensures Paths(When(enabled, [Route([path], page)])) == if enabled then {path} else {}
  {
  }

  lemma PathsOfHome()
    ensures Paths([Route(["/", "/index"], Home)]) == {"/", "/index"}
  {
  }

  lemma PathsOfAuth(enabled: bool)
    ensures Paths(When(enabled, [Route(["/login"], Login), Route(["/logout"], Logout)])) ==
      if enabled then {"/login", "/logout"} else {}
  {
  }

  /** The registered path set: "/" and "/index" always, "/login" and "/logout"
      exactly when Discord sign-in is enabled, and each page path exactly when
      its own flag is set. */
  lemma RegisteredPathsOfTable(f: Flags)
    ensures Paths(RouteTable(f)) ==
      {"/", "/index"}
      + (if f.discordEnabled then {"/login", "/logout"} else {})
      + (if f.pages.pokemon then {"/pokemon"} else {})
      + (if f.pages.raids then {"/raids"} else {})
      + (if f.pages.gyms then {"/gyms"} else {})
      + (if f.pages.quests then {"/quests"} else {})
      + (if f.pages.invasions then {"/invasions"} else {})
      + (if f.pages.nests then {"/nests"} else {})
  {
    var home, auth, pokemon, raids := HomeRoutes(), AuthRoutes(f), PokemonRoutes(f), RaidsRoutes(f);
    var gyms, quests, invasions, nests := GymsRoutes(f), QuestsRoutes(f), InvasionsRoutes(f), NestsRoutes(f);
    PathsAppend(home + auth + pokemon + raids + gyms + quests + invasions, nests);
    PathsAppend(home + auth + pokemon + raids + gyms + quests, invasions);
    PathsAppend(home + auth + pokemon + raids + gyms, quests);
    PathsAppend(home + auth + pokemon + raids, gyms);
    PathsAppend(home + auth + pokemon, raids);
    PathsAppend(home + auth, pokemon);
    PathsAppend(home, auth);
    PathsOfHome();
    PathsOfAuth(f.discordEnabled);
    PathsWhen(f.pages.pokemon, "/pokemon", PokemonPage);
    PathsWhen(f.pages.raids, "/raids", RaidsPage);
    PathsWhen(f.pages.gyms, "/gyms", GymsPage);
    PathsWhen(f.pages.quests, "/quests", QuestsPage);
    PathsWhen(f.pages.invasions, "/invasions", InvasionsPage);
    PathsWhen(f.pages.nests, "/nests", NestsPage);
  }

  lemma ConsistentAppend(a: seq<Route>, b: seq<Route>)
    requires Consistent(a) && Consistent(b)
    ensures Consistent(a + b)
  {
  }

  lemma ConsistentWhen(enabled: bool, path: string, page: Page)
    requires PageOf(path) == Some(page)
    ensures Consistent(When(enabled, [Route([path], page)]))
  {
  }

  lemma ConsistentTable(f: Flags)
    ensures Consistent(RouteTable(f))
  {
    var home, auth, pokemon, raids := HomeRoutes(), AuthRoutes(f), PokemonRoutes(f), RaidsRoutes(f);
    var gyms, quests, invasions, nests := GymsRoutes(f), QuestsRoutes(f), InvasionsRoutes(f), NestsRoutes(f);
    assert Consistent(home);
    assert Consistent(auth);
    ConsistentWhen(f.pages.pokemon, "/pokemon", PokemonPage);
    ConsistentWhen(f.pages.raids, "/raids", RaidsPage);
    ConsistentWhen(f.pages.gyms, "/gyms", GymsPage);
    ConsistentWhen(f.pages.quests, "/quests", QuestsPage);
    ConsistentWhen(f.pages.invasions, "/invasions", InvasionsPage);
    ConsistentWhen(f.pages.nests, "/nests", NestsPage);
    ConsistentAppend(home, auth);
    ConsistentAppend(home + auth, pokemon);
    ConsistentAppend(home + auth + pokemon, raids);
    ConsistentAppend(home + auth + pokemon + raids, gyms);
    ConsistentAppend(home + auth + pokemon + raids + gyms, quests);
    ConsistentAppend(home + auth + pokemon + raids + gyms + quests, invasions);
    ConsistentAppend(home + auth + pokemon + raids + gyms + quests + invasions, nests);
  }

  /** A path is registered exactly when it names a page whose flag is set. */
  lemma RegisteredIffEnabled(f: Flags, path: string)
    ensures path in Paths(RouteTable(f)) <==> PageOf(path).Some? && Enabled(f, PageOf(path).value)
  {
    RegisteredAsListed(f, path);
  }

  lemma RegisteredAsListed(f: Flags, path: string)
    ensures path in Paths(RouteTable(f)) <==>
      path == "/" || path == "/index"
      || (f.discordEnabled && (path == "/login" || path == "/logout"))
      || (f.pages.pokemon && path == "/pokemon")
      || (f.pages.raids && path == "/raids")
      || (f.pages.gyms && path == "/gyms")
      || (f.pages.quests && path == "/quests")
      || (f.pages.invasions && path == "/invasions")
      || (f.pages.nests && path == "/nests")
  {
    RegisteredPathsOfTable(f);
  }

  /** A path reaches a handler exactly when it names a page whose flag is set;
      every other path, a disabled page's included, is not found. */
  lemma ResolveRouteTable(f: Flags, path: string)
    ensures Resolve(RouteTable(f), path) ==
      if PageOf(path).Some? && Enabled(f, PageOf(path).value) then PageOf(path) else None
  {
    ConsistentTable(f);
    ResolveConsistent(RouteTable(f), path);
    RegisteredIffEnabled(f, path);
  }
}
