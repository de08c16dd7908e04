# View-model composition of the RDMopole2 web UI routes

This project models the page router of the RDMopole2 dashboard, `src/routes/ui.js`, in Dafny. The router serves the home page and six optional pages (pokemon, raids, gyms, quests, invasions, nests). The model covers four things:

- **Feature gate** (`routes.dfy`): which routes the module registers, decided once from `config.discord.enabled` and the `config.pages.<x>.enabled` flags. Routes are listed in registration order. Dispatch takes the first registration that lists the path.
- **Record shaping** (`js.dfy`, `format.dfy`, `projections.dfy`, `lists.dfy`):
  - JavaScript values, and the number-to-string conversion that `+` applies.
  - The gym slot label (`"Full"` or `"<n>/6"`) and the lower-cased team name.
  - Counts defaulted to 0, and pokedex names that may be undefined.
  - The order-preserving `.map` projections of the defender, IV and catch leaderboards and of the geofence list (`cities`).
- **Page composition** (`pages.dfy`): the shared `defaultData` object is a class `ViewData` with a `fields` map. Each handler is a method that overlays its own page keys onto that one object.
  - `const data = defaultData` is an alias, not a copy. So every key an earlier request wrote stays visible to later requests that do not overwrite it. `NestsAfterInvasions` shows this: a nests page rendered after an invasions request still carries `grunt_types`.
  - The gyms under attack are annotated in place by a loop over an array (`AnnotateGyms`).
  - The 51-entry grunt list is built by a loop (`BuildGruntTypes`).
- **External values as parameters**:
  - Data-layer query results are inputs. A settled promise is `Fetched`: resolved with its value, or rejected with a reason.
  - The geofence list is a sequence of records.
  - The pokedex is a `map<int, string>`.
  - `locale.getTeamName`, `locale.getPokemonIcon`, `toLocaleString` and `i18n.__` are function-typed fields of `Format.Env`, left uninterpreted.

The model follows the code as written, including where it departs from the intended design:
- The index queries are awaited one after another, not concurrently.
- Handlers share one mutable object instead of composing a fresh view-model per request.
- The gym record's field is read as `availble_slots`, spelled as in the code.
- Nothing checks that the slot value lies in 0..6.
- On the quests page, `cities` is written before the rewards query is awaited. So a failing rewards query leaves `cities` written.

## Model

| member | source | states |
|---|---|---|
| Js.NatToString | src/routes/ui.js:25 | the decimal form of a number is a non-empty digit string with no leading zero |
| Js.NatToStringRoundTrip | src/routes/ui.js:25 | reading the decimal digits back gives the number |
| Js.IntToString | src/routes/ui.js:131 | `String(i)` of an integer is non-empty, starts with `-` exactly when i is negative, is otherwise made of digits, and has no leading zero |
| Js.IntToStringRoundTrip | src/routes/ui.js:131 | `String(i)` of any integer (as in `'grunt_' + i`) parses back to `i` |
| Js.ToJsString | src/routes/ui.js:25 | the conversion `+ '/6'` applies: a string converts to itself, a number converts to text that reads back as that number, and an array's text holds at least one "," per pair of neighbouring items |
| Js.JoinItems | src/routes/ui.js:25 | joining array items gives the empty string for no items, and at least one "," for each pair of neighbouring items |
| Format.SlotsLabel | src/routes/ui.js:25 | the label is `"Full"` exactly when `availble_slots` is the number 0; any other label ends in `"/6"` |
| Format.SlotsLabelRoundTrip | src/routes/ui.js:25 | for any non-zero slot number n, the text in front of `"/6"` reads back as n |
| Format.SlotsLabelInRange | src/routes/ui.js:25 | for 1 to 6 free slots the label is that digit followed by `"/6"` |
| Format.Lower | src/routes/ui.js:24 | lower-casing keeps the length, leaves no ASCII capital, keeps non-capitals and maps each capital to its small letter |
| Format.CountOrZero | src/routes/ui.js:35 | `x.count` defaulted to 0: a missing count reads as 0, a present one is kept |
| Format.CountText | src/routes/ui.js:35 | a missing count is formatted as 0, a present one as itself |
| Format.PokedexName | src/routes/ui.js:34 | the name is undefined exactly when the id is not in the pokedex, and otherwise is the catalog name; never an error |
| Lists.MapSeq | src/routes/ui.js:31 | `.map` keeps the length, and entry i is the callback applied to element i |
| Projections.Defenders | src/routes/ui.js:31-38 | one entry per defender row, in order, with exactly the keys id, name, count and image_url: id is `guarding_pokemon_id`, name is the pokedex lookup (possibly undefined), count is the formatted count or 0 |
| Projections.TopIv | src/routes/ui.js:39-47 | one entry per row, in order: pokemon_id and iv copied, pokedex name, count formatted with 0 for a missing count |
| Projections.Stats | src/routes/ui.js:48-65 | the `lifetime` and `today` lists: one entry per row, in order, pokemon_id copied, shiny and count formatted with 0 when missing |
| Projections.Cities | src/routes/ui.js:103 | one entry per geofence, in registry order, whose only key is name, equal to the geofence's name |
| Projections.Annotated | src/routes/ui.js:23-26 | a gym record gains `team` (the lower-cased team name of `team_id`) and `slots_available` (the slot label); every other property keeps its value |
| Pages.AnnotateAll | src/routes/ui.js:23-26 | annotating the list keeps its length and order, and each record is annotated as above |
| Pages.AnnotateGyms | src/routes/ui.js:23-26 | the loop annotates the array in place: its contents become the annotated list |
| Pages.FirstRejection | src/routes/ui.js:19-29 | the handler throws exactly when some query is rejected, and then with the reason of the first rejected query in await order |
| Pages.Objects | src/routes/ui.js:67 | the gyms list is shown as one object per record, in order |
| Pages.IndexValues | src/routes/ui.js:39-69 | the index handler assigns exactly its seven keys: `gym_defenders`, `top10_100iv_pokemon`, `lifetime` and `today` hold the leaderboard projections of their rows, `gyms_under_attack` the gym records, and `new_pokestops` and `new_gyms` the query results unchanged |
| Pages.IndexShowsAnnotatedGyms | src/routes/ui.js:23-69 | on the home page there is one defender entry per defender row, and every gym under attack shows its lower-cased team and the slot label of its own `availble_slots`, `"Full"` when that is 0 |
| Pages.PokemonValues | src/routes/ui.js:88-95 | the pokemon handler assigns exactly `pokemon`, which holds the name/id list, and the six keys that hold `config.map`'s tileserver, start latitude and longitude, and start, minimum and maximum zoom |
| Pages.GruntKey | src/routes/ui.js:131 | the i18n key of grunt type i is `grunt_` followed by text that reads back as i |
| Pages.GruntKeysDistinct | src/routes/ui.js:131 | distinct grunt types look up distinct i18n keys `'grunt_' + i` |
| Pages.GruntEntry | src/routes/ui.js:131-132 | entry i is an object with exactly the keys id and name: id i, and name the translation of its `grunt_` key |
| Pages.GruntTypes | src/routes/ui.js:129-133 | the grunt list has 51 entries, entry i has id i, and no two entries are equal |
| Pages.BuildGruntTypes | src/routes/ui.js:129-133 | exactly 51 grunt entries; entry i has id i and the translation of `"grunt_" + i` as its name; no geofence input is involved |
| Pages.ViewData.constructor | src/routes/ui.js:8 | the shared object starts as the exported default data |
| Pages.ViewData.Index | src/routes/ui.js:17-71 | the first rejected query is what the handler throws, and then no key is written. Otherwise the seven index keys are overlaid on the shared object and every other key keeps its value. The gyms array is annotated in place once its own query and the earlier ones succeed |
| Pages.ViewData.Pokemon | src/routes/ui.js:86-97 | the shared object gains the pokemon keys; every other key keeps its value; renders `pokemon` |
| Pages.ViewData.Raids | src/routes/ui.js:100-107 | `cities` and `pokemon` are overlaid on the shared object; renders `raids` |
| Pages.ViewData.Gyms | src/routes/ui.js:109-115 | only `cities` changes; renders `gyms` |
| Pages.ViewData.Quests | src/routes/ui.js:117-124 | `cities` is always written. `rewards` is written and the page rendered only when the rewards query resolves; otherwise its rejection is thrown |
| Pages.ViewData.Invasions | src/routes/ui.js:126-138 | `cities` and the fixed 51-entry `grunt_types` are overlaid; renders `invasions` |
| Pages.ViewData.Nests | src/routes/ui.js:140-146 | only `cities` changes; renders `nests` |
| Pages.NestsAfterInvasions | src/routes/ui.js:126-146 | on one shared object, a nests page rendered after an invasions request carries that request's `grunt_types`, its own `cities`, and the defaults |
| Routes.Resolve | src/routes/ui.js:17-146 | dispatch finds nothing (not found) exactly when no registration lists the path; otherwise it gives the page of the first registration that lists it |
| Routes.RouteTable | src/routes/ui.js:17-146 | the first registration serves `/` and `/index` for the home page, and every registration's page is enabled |
| Routes.RouteTableSize | src/routes/ui.js:73-146 | there is one registration per enabled page, two for Discord sign-in, and one for the home page |
| Routes.RegisteredPathsOfTable | src/routes/ui.js:17-146 | the registered paths are `/` and `/index`, plus `/login` and `/logout` exactly when Discord is enabled, plus each page path exactly when its own flag is set |
| Routes.RegisteredIffEnabled | src/routes/ui.js:73-146 | a path is registered exactly when it names a page whose flag is set |
| Routes.ResolveRouteTable | src/routes/ui.js:73-146 | dispatch reaches a path's page exactly when that page's flag is set; any other path, including a disabled page's, is not found |

## Left out

- Express mechanics are not modelled: `res.render`, the `/login` and `/logout` redirects, and session destruction with its re-thrown error. The model records only which view a handler renders.
- Express path matching is modelled as exact string equality. Express also ignores case and a trailing slash.
- Interleaving of concurrent requests at await points is not modelled. Handlers run one after another on the shared object. The write order is captured: index writes only after its last await, and quests writes `cities` before its await.
- `map.js`, `GeofenceService`, `locale` and `i18n` internals are foreign code and stay parameters. `getPokemonNameIdsList()` is not awaited in the code, so its return value is an opaque input value.
- Loading `config.json` and `default.js` is I/O. The flags, the map configuration and the initial default map are parameters.
- `toLocaleString` thousands separators depend on the locale, so formatting is the uninterpreted `Env.formatCount`.
- Floating-point numbers are not modelled. Numbers are integers, and `iv` and the map scalars are copied as opaque values.
- Js.IntToString: prints every digit of any integer. JavaScript's `String(n)` switches to exponent form (`"1e+21"`) for magnitudes of 1e21 and above, so the model matches it only below that bound.
- Format.Lower: folds only the ASCII capitals. `toLowerCase` also maps other Unicode capitals. The model assumes the names `locale.getTeamName` returns (foreign code, not part of this model) use none.
- Projections.Annotated: assumes `locale.getTeamName` returns a string (`Env.teamName` is typed so). If it returned anything else, `.toLowerCase()` would throw inside the `forEach`, and the index handler would reject with nothing written. That path is not modelled.
- Query rows are typed: defender, IV and catch rows are `DefenderRow`, `IvRow` and `StatRow`, with integer ids and counts that are absent or natural numbers. The code's `||` default would also pass any other truthy value (a string, say) to `toLocaleString`, and map any falsy one to 0. Those cases are not modelled.
- Js.ToJsString: converts any object to `"[object Object]"` and ignores a custom `toString`.
- Js.Prop: gives undefined for a property of a non-object, such as a string's `length`, which the handlers never read.
- Record identity is not modelled. Gym records are values in an array that is annotated in place. The `gyms_under_attack` key holds the array's contents after the loop, and nothing mutates them afterwards.
