# Weather cache-aside service, modelled in Dafny

This project models the core of a small Spring weather service. A client asks for the current weather by
city name or by postal code. `WeatherService` answers from a local table of `WeatherRecord`s when the
stored record is still fresh. When the record is missing or older than a TTL (time to live), it asks the
external provider instead, writes the answer back, and returns it. `WeatherController` sits in front: it
accepts a request only when exactly one of `city` and `zip` is given.

Modules, one per component:

- `Wrappers` (`wrappers.dfy`): nullable values (`Option`) and calls that may throw (`Result`).
- `Domain` (`domain.dfy`): the `WeatherRecord` entity, the provider's `ApiResponse`, the three provider failure
  kinds, the query sent to the provider, and the provider as an oracle (`Fetcher`).
- `Normalize` (`normalize.dfy`): Java's `trim()`, a root-locale `toLowerCase`, `normalizeCity`, `normalizeZip`
  and the location keys `"city:" + v` / `"zip:" + v`, with idempotence, insensitivity and key lemmas.
- `CacheModel` (`cache_model.dfy`): the lookup written out as values. It covers the store and its invariant, `isStale`,
  the eight setters of a refresh, `save`, and one whole `getByCity` / `getByZip`. The properties of
  the lookup are proved here: freshness law, identity, field overwrite, failure isolation, and a lookup within
  the TTL after a refresh being a hit.
- `Service` (`weather_service.dfy`): the class `WeatherService`, whose methods update the record map and the
  identity counter in place, each proved equal to the `CacheModel` function it implements. Ghost logs
  record the lookups received, the provider calls made and the records saved, which are the interactions
  the service's tests check. `MissThenHit` is a client that runs a miss and then a fresh hit on the class.
- `Controller` (`weather_controller.dfy`): the exactly-one-of rule (`Route`) and `GetWeather`, which dispatches
  to the service.

Time is an integer count of nanoseconds on the service's clock. The TTL is given in minutes and
converted, as `Duration.ofMinutes` does. The provider is a function from query to answer-or-failure
passed into each lookup; the clock's reading `now` is passed in too.

`isBefore` makes a record stale only when `updatedAt + TTL` is strictly before `now`, so it is still
fresh at exactly `updatedAt + TTL` (see `CacheModel.FreshThroughDeadline`).

`getByCity(null)` is modelled as written. The key is `"city:null"`, which it shares with the city
`"NULL"` (`Normalize.NullCityKeyCollides`). Because `normCity` is null, the refresh calls
`fetchByZip(null)` (`CacheModel.NullCityQueriesByZip`). The controller never makes that call
(`Controller.AcceptedRequestsCarryAValue`).

## Model

| member | source | states |
|---|---|---|
| `Normalize.TrimStart` | src/main/java/com/wether_app/service/WeatherService.java:93 | the start of `trim()`: the result is the suffix of the input left after its longest all-blank prefix (chars at or below U+0020), and it starts with a non-blank |
| `Normalize.TrimEnd` | src/main/java/com/wether_app/service/WeatherService.java:93 | the end of `trim()`: the result is the prefix before the longest all-blank suffix, and it ends with a non-blank |
| `Normalize.Trim` | src/main/java/com/wether_app/service/WeatherService.java:93 | `trim()` returns a slice of the input with only blanks cut on either side, and the result starts and ends with a non-blank (or is empty) |
| `Normalize.LowerChar` | src/main/java/com/wether_app/service/WeatherService.java:93 | root-locale lower-casing: never yields a capital, changes exactly the capitals and leaves every other character as it is, never creates or removes a blank (distinct capitals stay distinct: `LowerCharInjective`) |
| `Normalize.ToLower` | src/main/java/com/wether_app/service/WeatherService.java:93 | `toLowerCase(Locale.ROOT)` keeps the length and maps each character by `LowerChar`, position by position |
| `Normalize.LowerCharInjective` | src/main/java/com/wether_app/service/WeatherService.java:93 | two distinct capitals never lower-case to the same letter |
| `Normalize.NormalizeCity` | src/main/java/com/wether_app/service/WeatherService.java:92-94 | null maps to null and only null does; a present city comes back trimmed and free of capitals |
| `Normalize.NormalizeZip` | src/main/java/com/wether_app/service/WeatherService.java:96-98 | null maps to null and only null does; a present zip comes back trimmed and no longer than the input |
| `Normalize.TrimOfTrimmed` | src/main/java/com/wether_app/service/WeatherService.java:93 | a string that starts and ends with a non-blank is left alone by `trim()` |
| `Normalize.TrimIdempotent` | src/main/java/com/wether_app/service/WeatherService.java:93 | trimming twice equals trimming once |
| `Normalize.ToLowerIdempotent` | src/main/java/com/wether_app/service/WeatherService.java:93 | lower-casing twice equals lower-casing once |
| `Normalize.NormalizeCityIdempotent` | src/main/java/com/wether_app/service/WeatherService.java:92-94 | normalising an already normalised city changes nothing |
| `Normalize.NormalizeZipIdempotent` | src/main/java/com/wether_app/service/WeatherService.java:96-98 | normalising an already normalised zip changes nothing |
| `Normalize.TrimStartConcat` | src/main/java/com/wether_app/service/WeatherService.java:93 | leading blanks of `s + t` are those of `s`, running on into `t` when `s` is all blank |
| `Normalize.TrimEndConcat` | src/main/java/com/wether_app/service/WeatherService.java:93 | trailing blanks of `s + t` are those of `t`, running back into `s` when `t` is all blank |
| `Normalize.TrimIgnoresSurroundingBlanks` | src/main/java/com/wether_app/service/WeatherService.java:93 | blanks added on either side do not change what `trim()` returns |
| `Normalize.TrimCommutesWithLower` | src/main/java/com/wether_app/service/WeatherService.java:93 | trimming the lower-cased text equals lower-casing the trimmed text |
| `Normalize.NormalizeCityIgnoresCase` | src/main/java/com/wether_app/service/WeatherService.java:92-94 | a city and its lower-cased form normalise to the same value |
| `Normalize.NormalizeCityIgnoresSurroundingBlanks` | src/main/java/com/wether_app/service/WeatherService.java:92-94 | a city with blanks around it normalises like the bare city |
| `Normalize.NormalizeZipIgnoresSurroundingBlanks` | src/main/java/com/wether_app/service/WeatherService.java:96-98 | a zip with blanks around it normalises like the bare zip |
| `Normalize.NormalizeZipKeepsCase` | src/main/java/com/wether_app/service/WeatherService.java:96-98 | a trimmed zip, capitals included, normalises to itself |
| `Normalize.TrimOfPadded` | src/main/java/com/wether_app/service/WeatherService.java:93 | a text that starts and ends with a non-blank, put between blanks, trims back to itself |
| `Normalize.PostcodeZipExample` | src/main/java/com/wether_app/service/WeatherService.java:96-98 | `" SW1A "` normalises to `"SW1A"` as a zip: the capitals stay |
| `Normalize.PostcodeCityExample` | src/main/java/com/wether_app/service/WeatherService.java:92-94 | `" SW1A "` normalises to `"sw1a"` as a city |
| `Normalize.NormalizeCityOfPadded` | src/main/java/com/wether_app/service/WeatherService.java:92-94 | a trimmed city between blanks normalises to its lower-case form |
| `Normalize.KyivNormalized` | src/test/java/com/weather_app/service/WeatherServiceTest.java:54-56 | `"  Kyiv  "` normalises to `"kyiv"` |
| `Normalize.KyivCapitalised` | src/test/java/com/weather_app/service/WeatherServiceTest.java:95-111 | `"Kyiv"` normalises to `"kyiv"` too |
| `Normalize.CityKeyExample` | src/main/java/com/wether_app/service/WeatherService.java:42-43 | `getByCity("  Kyiv  ")` looks up the key `"city:kyiv"` |
| `Normalize.ZipKeyExample` | src/test/java/com/weather_app/service/WeatherServiceTest.java:162-165 | `getByZip("  90210 ")` looks up `"zip:90210"` with the zip `"90210"` |
| `Normalize.CityAndZipKeysDisjoint` | src/main/java/com/wether_app/service/WeatherService.java:43-55 | no city key equals any zip key |
| `Normalize.CityKeyInjective` | src/main/java/com/wether_app/service/WeatherService.java:42-43 | two present cities share a key exactly when they normalise to the same text |
| `Normalize.NullableText` | src/main/java/com/wether_app/service/WeatherService.java:43 | Java's string concatenation renders a null as `"null"` and a present text as itself |
| `Normalize.CityKey` | src/main/java/com/wether_app/service/WeatherService.java:43 | the city key is `"city:"` followed by the normalised city, or `"city:null"` for a null city |
| `Normalize.ZipKey` | src/main/java/com/wether_app/service/WeatherService.java:55 | the zip key is `"zip:"` followed by the normalised zip, or `"zip:null"` for a null zip |
| `Normalize.LondonKeyExample` | src/test/java/com/weather_app/service/WeatherServiceTest.java:63-91 | `"London"` normalises to `"london"` and looks up `"city:london"` |
| `Normalize.NullCityKeyCollides` | src/main/java/com/wether_app/service/WeatherService.java:42-43 | a null city and the city `"NULL"` both get the key `"city:null"` |
| `Domain.NewRecord` | src/main/java/com/wether_app/service/WeatherService.java:71 | `new WeatherRecord()`: no identity and every nullable field null; its location key starts as `""` where Java has null, which nothing reads because the first setter overwrites it (`CacheModel.Overwrite`, `CacheModel.OverwriteKeepsOnlyIdentity`) |
| `CacheModel.Inv` | src/main/java/com/wether_app/repository/WeatherRecordRepository.java:10-11 | the store invariant implies a positive identity counter, and an empty store with a positive counter satisfies it |
| `CacheModel.Find` | src/main/java/com/wether_app/repository/WeatherRecordRepository.java:11 | `findByLocationKey` finds a record exactly when one is stored under the key, and returns that record |
| `CacheModel.SaveRecord` | src/main/java/com/wether_app/repository/WeatherRecordRepository.java:10 | `save` stores the record under its own key; a record without an identity gets the counter's value and the counter advances, one with an identity is stored as it is |
| `CacheModel.IsStale` | src/main/java/com/wether_app/service/WeatherService.java:86-90 | a record with no stamp is stale; a stamped one is stale exactly when its stamp plus the TTL lies before `now` |
| `CacheModel.QueryFor` | src/main/java/com/wether_app/service/WeatherService.java:66-68 | the provider is asked by city exactly when the normalised city is present, with that city; otherwise by zip with the normalised zip |
| `CacheModel.Overwrite` | src/main/java/com/wether_app/service/WeatherService.java:73-81 | the eight setters: identity kept, key set, stamped `now`, the provider's city or else the normalised city, the normalised zip, the four weather fields from the provider |
| `CacheModel.Refresh` | src/main/java/com/wether_app/service/WeatherService.java:65-84 | exactly one provider call with `QueryFor`; on a failure the same kind is raised, nothing is saved and the store is unchanged; on success the one saved record is returned, stored under the key and stamped `now`, keeping a stored identity or taking the next one on a miss |
| `CacheModel.Lookup` | src/main/java/com/wether_app/service/WeatherService.java:45-49 | no provider call exactly when the key holds a fresh record, which is then returned with the store unchanged; otherwise the outcome is that of `Refresh` |
| `CacheModel.LookupCity` | src/main/java/com/wether_app/service/WeatherService.java:41-50 | a city lookup makes no call or exactly `fetchByCity`/`fetchByZip` as `QueryFor` picks for the normalised city, and saves under the city key |
| `CacheModel.LookupZip` | src/main/java/com/wether_app/service/WeatherService.java:53-62 | a zip lookup makes no call or exactly `fetchByZip(normZip)`, and saves under the zip key |
| `CacheModel.Answer` | src/main/java/com/wether_app/service/WeatherService.java:41-62 | serving one `getByCity`/`getByZip` call makes at most one provider call and saves at most one record, and only after a call; without a call the store is unchanged and a record is returned; a saved record is the one returned |
| `CacheModel.AnswerByCity` | src/main/java/com/wether_app/service/WeatherService.java:41-49 | `getByCity` is the lookup of the city key with the normalised city and a null zip |
| `CacheModel.AnswerByZip` | src/main/java/com/wether_app/service/WeatherService.java:53-61 | `getByZip` is the lookup of the zip key with a null city and the normalised zip |
| `CacheModel.FreshThroughDeadline` | src/main/java/com/wether_app/service/WeatherService.java:86-90 | a record stamped `t` is fresh at exactly `t + ttl` and stale one tick later |
| `CacheModel.StaleStaysStale` | src/main/java/com/wether_app/service/WeatherService.java:86-90 | a stale record stays stale at every later instant |
| `CacheModel.SaveKeepsInv` | src/main/java/com/wether_app/repository/WeatherRecordRepository.java:10-11 | saving a new record under a free key, or a record that keeps its key's identity, keeps every record under its own key with a unique identity below the counter |
| `CacheModel.OverwriteKeepsOnlyIdentity` | src/main/java/com/wether_app/service/WeatherService.java:73-81 | after the eight setters, the record depends on its old content only through its identity, which is kept |
| `CacheModel.ProviderCalledIffMissOrStale` | src/main/java/com/wether_app/service/WeatherService.java:45-49 | the provider is called iff the key is missing or its record is stale, and then exactly once, by city if the normalised city is present, else by zip |
| `CacheModel.FreshHitIsReadOnly` | src/main/java/com/wether_app/service/WeatherService.java:46-48 | a fresh hit returns the stored record as it is, with no provider call, no save and the store unchanged |
| `CacheModel.FailedRefreshLeavesStore` | src/main/java/com/wether_app/service/WeatherService.java:66-83 | a provider failure is raised with its kind, nothing is saved and the store is exactly as before |
| `CacheModel.SuccessfulRefresh` | src/main/java/com/wether_app/service/WeatherService.java:65-84 | a successful refresh saves one record under the key, stamped `now`, with the provider's fields verbatim (absent ones too), the provider's city or else the normalised city, the normalised zip; it is the one returned |
| `CacheModel.StaleRefreshKeepsIdentity` | src/main/java/com/wether_app/service/WeatherService.java:70-71 | refreshing a stale record keeps its identity and uses no new identity value |
| `CacheModel.MissAssignsNewIdentity` | src/main/java/com/wether_app/service/WeatherService.java:70-71 | a miss creates a record with the next identity value, held by no stored record, and advances the counter by one |
| `CacheModel.LookupSavesUnderItsKey` | src/main/java/com/wether_app/service/WeatherService.java:65-84 | a lookup saves at most one record, only after a successful provider call, under its own key, with the normalised zip and the provider's city or else the normalised city |
| `CacheModel.LookupTouchesOnlyItsKey` | src/main/java/com/wether_app/service/WeatherService.java:65-84 | a lookup deletes nothing, changes no record under another key, and adds its key only when it saved |
| `CacheModel.LookupKeepsInv` | src/main/java/com/wether_app/service/WeatherService.java:65-84 | every lookup keeps the store's invariant (own key, unique identity below the counter) |
| `CacheModel.FreshAfterRefresh` | src/main/java/com/wether_app/service/WeatherService.java:45-48 | with a non-negative TTL, the same lookup up to `ttl` later after a refresh is a fresh hit on the saved record, with no call and no save |
| `CacheModel.NegativeTtlAlwaysRefreshes` | src/main/java/com/wether_app/service/WeatherService.java:29 | with a negative TTL, a record just saved is refreshed again by the next lookup at the same instant |
| `CacheModel.CityLookupQuery` | src/main/java/com/wether_app/service/WeatherService.java:41-50 | a city lookup calls at most `fetchByCity(normCity)`, and saves under `"city:" + normCity` with a null zip |
| `CacheModel.ZipLookupQuery` | src/main/java/com/wether_app/service/WeatherService.java:53-62 | a zip lookup calls at most `fetchByZip(normZip)`, and saves under `"zip:" + normZip` with the normalised zip and the provider's city (null if it named none) |
| `CacheModel.NullCityQueriesByZip` | src/main/java/com/wether_app/service/WeatherService.java:66-68 | `getByCity(null)`, when nothing fresh is stored under `"city:null"`, calls `fetchByZip(null)` |
| `CacheModel.ScenarioFreshHit` | src/test/java/com/weather_app/service/WeatherServiceTest.java:45-61 | stamped 11:50, looked up at 12:00 with a 15-minute TTL: the stored record, no call, no save |
| `CacheModel.ScenarioStaleRefresh` | src/test/java/com/weather_app/service/WeatherServiceTest.java:63-91 | London stamped 11:00, looked up at 12:00 with a 15-minute TTL: one `fetchByCity("london")`, one save, same identity, stamped 12:00, provider's temperature, description `"overcast"` |
| `CacheModel.ZipMiss` | src/main/java/com/wether_app/service/WeatherService.java:53-62 | a zip lookup whose key is not stored makes exactly one `fetchByZip(normZip)` and, when the provider answers, saves and returns one record under `"zip:" + normZip` with the next identity, stamped now, holding the normalised zip and the provider's city and temperature, and advances the counter |
| `CacheModel.ScenarioMiss` | src/test/java/com/weather_app/service/WeatherServiceTest.java:152-170 | nothing under `"zip:90210"`: one `fetchByZip("90210")` and one save of a record with the next identity under `"zip:90210"`, stamped 12:00, with the zip `"90210"`, the provider's city `"Beverly Hills"` and its temperature |
| `CacheModel.ScenarioProviderFailure` | src/main/java/com/wether_app/service/WeatherService.java:66-83 | a 404 from the provider is raised as is and the store is untouched |
| `Service.DefaultTtlMinutes` | src/main/java/com/wether_app/service/WeatherService.java:25 | the TTL when none is configured is 15 minutes |
| `Service.WeatherService.constructor` | src/main/java/com/wether_app/service/WeatherService.java:23-31 | the service starts over the given valid repository, with the TTL converted from minutes |
| `Service.WeatherService.FindByLocationKey` | src/main/java/com/wether_app/repository/WeatherRecordRepository.java:11 | finds a record iff one is stored under the key; in a valid store it carries that key and an identity |
| `Service.WeatherService.Save` | src/main/java/com/wether_app/service/WeatherService.java:83 | the store and the saved record are those of `SaveRecord`, the invariant holds, and the save is logged |
| `Service.WeatherService.GetByCity` | src/main/java/com/wether_app/service/WeatherService.java:41-50 | the result, new store and logged calls and saves are those of `LookupCity` on the old store; the invariant holds |
| `Service.WeatherService.GetByZip` | src/main/java/com/wether_app/service/WeatherService.java:53-62 | the result, new store and logged calls and saves are those of `LookupZip` on the old store; the invariant holds |
| `Service.WeatherService.RefreshFromApiAndSave` | src/main/java/com/wether_app/service/WeatherService.java:65-84 | the result, new store and logged calls and saves are those of `Refresh` on the old store; the invariant holds |
| `Service.MissThenHit` | src/main/java/com/wether_app/service/WeatherService.java:41-50 | on one service, a miss at 12:00 for `"  Kyiv  "` makes one `fetchByCity("kyiv")` and returns identity 1 under `"city:kyiv"` stamped 12:00; a lookup of `"Kyiv"` at 12:10 returns the same record; over both lookups the provider is called once and one record, the first result, is saved |
| `Controller.WeatherController.constructor` | src/main/java/com/wether_app/controller/WeatherController.java:16-18 | the controller holds the service it is given |
| `Controller.Route` | src/main/java/com/wether_app/controller/WeatherController.java:26-32 | rejected iff zero or both parameters are present; otherwise the present one is passed on, raw, to its lookup |
| `Controller.RequestOf` | src/main/java/com/wether_app/controller/WeatherController.java:30-32 | an accepted city goes to `getByCity` and an accepted zip to `getByZip`, each with the raw text |
| `Controller.Respond` | src/main/java/com/wether_app/controller/WeatherController.java:34 | a returned record becomes a 200 carrying exactly that record; a failure is passed on with its kind |
| `Controller.WeatherController.GetWeather` | src/main/java/com/wether_app/controller/WeatherController.java:21-35 | a rejected request answers 400 and leaves the service untouched; an accepted one makes exactly the service lookup of `Route` and answers with its result |
| `Controller.NoParameterRejected` | src/test/java/com/wether_app/controller/WeatherControllerTest.java:81-85 | no parameter: 400 |
| `Controller.BothParametersRejected` | src/test/java/com/wether_app/controller/WeatherControllerTest.java:87-91 | both parameters: 400 |
| `Controller.CityOnlyGoesRaw` | src/main/java/com/wether_app/controller/WeatherController.java:30-31 | only a city: `getByCity` receives the raw, un-normalised text |
| `Controller.ZipOnlyGoesRaw` | src/main/java/com/wether_app/controller/WeatherController.java:30-32 | only a zip: `getByZip` receives the raw text |
| `Controller.AcceptedRequestsCarryAValue` | src/main/java/com/wether_app/controller/WeatherController.java:26-32 | an accepted request never calls a lookup with null |

## Left out

- The provider client (`WeatherApiClient`): HTTP through `RestTemplate`, URI building, and JSON-pointer parsing
  are library behaviour. The provider is an oracle passed to each lookup, returning an `ApiResponse` or one
  of the three failure kinds of its exception handlers (401, 404, anything else). The query parameters
  (`q`/`zip`, `appid`, `units`) are not modelled.
- The exception messages are not modelled; a failure is represented by its kind only.
- The Spring Data repository is a map from location key to record plus an identity counter.
  `findByCity` and `findByZip` are never used by the service and are not modelled.
- The database's unique constraint on `locationKey` is not modelled as a failure. `Service.WeatherService.Save`
  requires that a new record's key be free, and that a record with an identity be the one stored under its key
  with that identity. JPA's `save` would accept and merge any record with an identity. The only call
  (WeatherService.java:83) meets both requirements.
- Configuration binding (`WeatherApiProperties`), Spring wiring, and the second constructor that uses the
  system clock are not modelled. The clock is a parameter, and the TTL is the constructor argument.
- `@Transactional`, concurrent requests for one key, and the redundant provider calls they can cause
  are not modelled; each lookup runs alone.
- Weather values are opaque: a `Double` is an uninterpreted bit pattern that is only copied. The humidity
  `Integer` is an unbounded `int`, and the identity `Long` is an unbounded `int` counter starting at 1.
- Clock readings: Java reads the clock once in `isStale` and again when stamping `updatedAt`. Each lookup
  in the model uses one instant `now` for both, as the fixed clock of the tests does.
- Time zones and date-time overflow: instants are plain integers. The zone offset of `LocalDateTime.now(clock)`,
  date-time overflow and `Duration.ofMinutes` overflow are not modelled.
- `Normalize.LowerChar`: lower-casing covers only the capitals of Basic Latin, Latin-1, Greek (U+0391 to U+03A9) and
  basic Cyrillic (U+0400 to U+042F). Other scripts, the mappings that change length (such as U+0130) and the
  context-dependent final-sigma rule (a word-final U+03A3 becomes U+03C2 in Java, U+03C3 here) are not modelled.
- Object identity: a fresh hit in Java returns the very instance the repository holds, and a refresh mutates
  the managed entity. The model stores records as values, so "the same record" means an equal value
  with the same identity column.
- HTTP binding of parameters and the mapping of a propagated exception to an error status belong to
  Spring: `GetWeather` returns the failure kind as it is.
