/**
 * The cache-aside lookup of `WeatherService` as values: the record store, the freshness test, the
 * overwrite of a record from the provider's answer, the write-back, and one whole lookup by city or zip.
 * The class in `Service` performs these steps on its fields; this module says what they compute.
 */
module CacheModel {
  import opened Wrappers
  import opened Domain
  import opened Normalize

  /** The repository: records by their unique location key, and the next value of the identity column. */
  datatype Store = Store(records: map<string, WeatherRecord>, nextId: int)

  /**
   * What the database keeps true: each record sits under its own location key and has an identity
   * the column handed out before (positive, below `nextId`), and no two records share an identity.
   */
  ghost predicate Inv(s: Store)
    ensures Inv(s) ==> 0 < s.nextId
    ensures s.records == map[] && 0 < s.nextId ==> Inv(s)
  {
    0 < s.nextId
    && (forall k :: k in s.records ==>
      s.records[k].locationKey == k && s.records[k].id.Some? && 0 < s.records[k].id.value < s.nextId)
    && (forall k1, k2 :: k1 in s.records && k2 in s.records && s.records[k1].id == s.records[k2].id ==> k1 == k2)
  }

  /** `findByLocationKey`. */
  function Find(s: Store, key: string): (r: Option<WeatherRecord>)
    ensures r.Some? <==> key in s.records
    ensures r.Some? ==> r.value == s.records[key]
  {
    if key in s.records then Some(s.records[key]) else None
  }

  /**
   * `save`: a record without an identity is inserted and takes the next identity value;
   * a record with one replaces the row under its key.
   */
  function SaveRecord(s: Store, rec: WeatherRecord): (r: (Store, WeatherRecord))
    ensures r.1.locationKey == rec.locationKey && r.1.(id := rec.id) == rec && r.1.id.Some?
    ensures r.0.records == s.records[rec.locationKey := r.1]
    ensures rec.id.None? ==> r.1.id == Some(s.nextId) && r.0.nextId == s.nextId + 1
    ensures rec.id.Some? ==> r.1 == rec && r.0.nextId == s.nextId
  {
    if rec.id.None? then
      var saved := rec.(id := Some(s.nextId));
      (Store(s.records[rec.locationKey := saved], s.nextId + 1), saved)
    else
      (Store(s.records[rec.locationKey := rec], s.nextId), rec)
  }

  /**
   * `isStale`: a record never stamped is stale; otherwise it is stale once `updatedAt + ttl`
   * lies strictly before `now`.
   */
  predicate IsStale(r: WeatherRecord, ttl: int, now: Instant)
    ensures r.updatedAt.None? ==> IsStale(r, ttl, now)
    ensures r.updatedAt.Some? ==> (IsStale(r, ttl, now) <==> r.updatedAt.value + ttl < now)
  {
    r.updatedAt.None? || r.updatedAt.value + ttl < now
  }

  /** The provider call a refresh makes: by city whenever the normalised city is not null, else by zip. */
  function QueryFor(normCity: Option<string>, normZip: Option<string>): (q: Query)
    ensures q.FetchByCity? <==> normCity.Some?
    ensures q.FetchByCity? ==> q.city == normCity.value
    ensures q.FetchByZip? ==> q.zip == normZip
  {
    if normCity.Some? then FetchByCity(normCity.value) else FetchByZip(normZip)
  }

  /** The eight setters of a refresh, applied to `rec`: every field but the identity is written. */
  function Overwrite(rec: WeatherRecord, key: string, normCity: Option<string>, normZip: Option<string>,
                     api: ApiResponse, now: Instant): (r: WeatherRecord)
    ensures r.id == rec.id && r.locationKey == key && r.updatedAt == Some(now)
    ensures r.city == (if api.city.Some? then api.city else normCity) && r.zip == normZip
    ensures r.temperature == api.temperature && r.description == api.description
    ensures r.humidity == api.humidity && r.windSpeed == api.windSpeed
  {
    rec.(locationKey := key,
         city := if api.city.Some? then api.city else normCity,
         zip := normZip,
         temperature := api.temperature,
         description := api.description,
         humidity := api.humidity,
         windSpeed := api.windSpeed,
         updatedAt := Some(now))
  }

  /**
   * What one lookup produces: the record returned or the exception raised, the store afterwards,
   * the provider calls made and the records saved, in order.
   */
  datatype Outcome = Outcome(result: Result<WeatherRecord, ApiError>, store: Store,
                             calls: seq<Query>, saves: seq<WeatherRecord>)

  /** `refreshFromApiAndSave`: call the provider, then overwrite the stored record (or a new one) and save it. */
  function Refresh(s: Store, now: Instant, key: string, normCity: Option<string>, normZip: Option<string>,
                   fetch: Fetcher): (o: Outcome)
    ensures o.calls == [QueryFor(normCity, normZip)]
    ensures o.result.Err? <==> fetch(QueryFor(normCity, normZip)).Err?
    ensures o.result.Err? ==> o.result.error == fetch(QueryFor(normCity, normZip)).error && o.store == s && o.saves == []
    ensures o.result.Ok? ==>
      o.saves == [o.result.value] && o.store.records == s.records[key := o.result.value]
      && o.result.value.locationKey == key && o.result.value.updatedAt == Some(now)
      && (key in s.records && s.records[key].id.Some? ==> o.result.value.id == s.records[key].id && o.store.nextId == s.nextId)
      && (key !in s.records ==> o.result.value.id == Some(s.nextId) && o.store.nextId == s.nextId + 1)
  {
    var q := QueryFor(normCity, normZip);
    match fetch(q)
    case Err(e) => Outcome(Err(e), s, [q], [])
    case Ok(api) =>
      var rec := Overwrite(Find(s, key).GetOr(NewRecord), key, normCity, normZip, api, now);
      var (s', saved) := SaveRecord(s, rec);
      Outcome(Ok(saved), s', [q], [saved])
  }

  /** The body shared by `getByCity` and `getByZip` once the key is built: serve a fresh hit, else refresh. */
  function Lookup(s: Store, ttl: int, now: Instant, key: string, normCity: Option<string>,
                  normZip: Option<string>, fetch: Fetcher): (o: Outcome)
    ensures o.calls == [] <==> key in s.records && !IsStale(s.records[key], ttl, now)
    ensures o.calls == [] ==> o == Outcome(Ok(s.records[key]), s, [], [])
    ensures o.calls != [] ==> o == Refresh(s, now, key, normCity, normZip, fetch)
  {
    if key in s.records && !IsStale(s.records[key], ttl, now) then
      Outcome(Ok(s.records[key]), s, [], [])
    else
      Refresh(s, now, key, normCity, normZip, fetch)
  }

  /** `getByCity(cityRaw)`. */
  function LookupCity(s: Store, ttl: int, now: Instant, cityRaw: Option<string>, fetch: Fetcher): (o: Outcome)
    ensures o.calls == [] || o.calls == [QueryFor(NormalizeCity(cityRaw), None)]
    ensures o.saves != [] ==> o.saves[0].locationKey == CityKey(NormalizeCity(cityRaw))
  {
    var normCity := NormalizeCity(cityRaw);
    Lookup(s, ttl, now, CityKey(normCity), normCity, None, fetch)
  }

  /** `getByZip(zipRaw)`. */
  function LookupZip(s: Store, ttl: int, now: Instant, zipRaw: Option<string>, fetch: Fetcher): (o: Outcome)
    ensures o.calls == [] || o.calls == [FetchByZip(NormalizeZip(zipRaw))]
    ensures o.saves != [] ==> o.saves[0].locationKey == ZipKey(NormalizeZip(zipRaw))
  {
    var normZip := NormalizeZip(zipRaw);
    Lookup(s, ttl, now, ZipKey(normZip), None, normZip, fetch)
  }

  /** A call into the service: `getByCity(raw)` or `getByZip(raw)`. */
  datatype Request = CityRequest(rawCity: Option<string>) | ZipRequest(rawZip: Option<string>)

  function Answer(s: Store, ttl: int, now: Instant, req: Request, fetch: Fetcher): (o: Outcome)
    ensures |o.calls| <= 1 && |o.saves| <= |o.calls|
    ensures o.calls == [] ==> o.store == s && o.result.Ok?
    ensures o.saves != [] ==> o.result == Ok(o.saves[0])
  {
    match req
    case CityRequest(raw) => LookupCity(s, ttl, now, raw, fetch)
    case ZipRequest(raw) => LookupZip(s, ttl, now, raw, fetch)
  }

  /** Serving a city request is the lookup under the normalised city's key. */
  lemma AnswerByCity(s: Store, ttl: int, now: Instant, raw: Option<string>, fetch: Fetcher)
    ensures Answer(s, ttl, now, CityRequest(raw), fetch)
         == Lookup(s, ttl, now, CityKey(NormalizeCity(raw)), NormalizeCity(raw), None, fetch)
  {
  }

  /** Serving a zip request is the lookup under the normalised zip's key. */
  lemma AnswerByZip(s: Store, ttl: int, now: Instant, raw: Option<string>, fetch: Fetcher)
    ensures Answer(s, ttl, now, ZipRequest(raw), fetch)
         == Lookup(s, ttl, now, ZipKey(NormalizeZip(raw)), None, NormalizeZip(raw), fetch)
  {
  }

  // ----- freshness -----

  /** A record stamped at `t` is still fresh at exactly `t + ttl` and stale one tick later. */
  lemma FreshThroughDeadline(r: WeatherRecord, ttl: int, t: Instant)
    requires r.updatedAt == Some(t)
    ensures !IsStale(r, ttl, t + ttl)
    ensures IsStale(r, ttl, t + ttl + 1)
  {
  }

  /** Once stale, a record stays stale as the clock moves on. */
  lemma StaleStaysStale(r: WeatherRecord, ttl: int, now: Instant, later: Instant)
    requires IsStale(r, ttl, now) && now <= later
    ensures IsStale(r, ttl, later)
  {
  }

  // ----- the store -----

  /** Saving keeps the store's invariant, when the record is new to its key or keeps the key's identity. */
  lemma SaveKeepsInv(s: Store, rec: WeatherRecord)
    requires Inv(s)
    requires rec.id.None? ==> rec.locationKey !in s.records
    requires rec.id.Some? ==> rec.locationKey in s.records && s.records[rec.locationKey].id == rec.id
    ensures Inv(SaveRecord(s, rec).0)
  {
    var (s', saved) := SaveRecord(s, rec);
    forall other | other in s'.records && other != rec.locationKey
      ensures s'.records[other] == s.records[other] && s'.records[other].id != saved.id
    {
      if rec.id.None? {
        assert s.records[other].id.value < s.nextId;
      }
    }
  }

  /** Overwriting keeps only the identity: two records with the same identity overwrite to the same record. */
  lemma OverwriteKeepsOnlyIdentity(a: WeatherRecord, b: WeatherRecord, key: string, normCity: Option<string>,
                                   normZip: Option<string>, api: ApiResponse, now: Instant)
    requires a.id == b.id
    ensures Overwrite(a, key, normCity, normZip, api, now) == Overwrite(b, key, normCity, normZip, api, now)
    ensures Overwrite(a, key, normCity, normZip, api, now).id == a.id
  {
  }

  // ----- one lookup -----

  /** The provider is called iff the key is missing or its record is stale, and then exactly once, with `QueryFor`. */
  lemma ProviderCalledIffMissOrStale(s: Store, ttl: int, now: Instant, key: string, normCity: Option<string>,
                                     normZip: Option<string>, fetch: Fetcher)
    ensures var o := Lookup(s, ttl, now, key, normCity, normZip, fetch);
      (o.calls != [] <==> (key !in s.records || IsStale(s.records[key], ttl, now)))
      && (o.calls == [] || o.calls == [QueryFor(normCity, normZip)])
  {
  }

  /** A fresh hit returns the stored record as it is: no provider call, no save, store unchanged. */
  lemma FreshHitIsReadOnly(s: Store, ttl: int, now: Instant, key: string, normCity: Option<string>,
                           normZip: Option<string>, fetch: Fetcher)
    requires key in s.records && !IsStale(s.records[key], ttl, now)
    ensures Lookup(s, ttl, now, key, normCity, normZip, fetch) == Outcome(Ok(s.records[key]), s, [], [])
  {
  }

  /** A failed provider call propagates its kind and leaves the store exactly as it was, with nothing saved. */
  lemma FailedRefreshLeavesStore(s: Store, ttl: int, now: Instant, key: string, normCity: Option<string>,
                                 normZip: Option<string>, fetch: Fetcher)
    requires key !in s.records || IsStale(s.records[key], ttl, now)
    requires fetch(QueryFor(normCity, normZip)).Err?
    ensures var o := Lookup(s, ttl, now, key, normCity, normZip, fetch);
      o.result == Err(fetch(QueryFor(normCity, normZip)).error) && o.store == s && o.saves == []
  {
  }

  /**
   * A successful refresh saves exactly one record, under the key, stamped with `now`, holding the provider's
   * fields verbatim (absent ones included), the provider's city if it named one and the normalised city
   * otherwise, and the normalised zip; that record is what the lookup returns.
   */
  lemma SuccessfulRefresh(s: Store, ttl: int, now: Instant, key: string, normCity: Option<string>,
                          normZip: Option<string>, fetch: Fetcher, api: ApiResponse)
    requires key !in s.records || IsStale(s.records[key], ttl, now)
    requires fetch(QueryFor(normCity, normZip)) == Ok(api)
    ensures var o := Lookup(s, ttl, now, key, normCity, normZip, fetch);
      o.result.Ok? && o.saves == [o.result.value]
      && o.store.records == s.records[key := o.result.value]
      && var r := o.result.value;
      r.locationKey == key && r.updatedAt == Some(now)
      && r.city == (if api.city.Some? then api.city else normCity) && r.zip == normZip
      && r.temperature == api.temperature && r.description == api.description
      && r.humidity == api.humidity && r.windSpeed == api.windSpeed
  {
  }

  /** Refreshing a stale record keeps its identity and hands out no new one. */
  lemma StaleRefreshKeepsIdentity(s: Store, ttl: int, now: Instant, key: string, normCity: Option<string>,
                                  normZip: Option<string>, fetch: Fetcher)
    requires Inv(s)
    requires key in s.records && IsStale(s.records[key], ttl, now)
    requires fetch(QueryFor(normCity, normZip)).Ok?
    ensures var o := Lookup(s, ttl, now, key, normCity, normZip, fetch);
      o.result.Ok? && o.result.value.id == s.records[key].id && o.store.nextId == s.nextId
  {
  }

  /** A miss creates one record with one new identity, which no stored record had. */
  lemma MissAssignsNewIdentity(s: Store, ttl: int, now: Instant, key: string, normCity: Option<string>,
                               normZip: Option<string>, fetch: Fetcher)
    requires Inv(s)
    requires key !in s.records
    requires fetch(QueryFor(normCity, normZip)).Ok?
    ensures var o := Lookup(s, ttl, now, key, normCity, normZip, fetch);
      o.result.Ok? && o.result.value.id == Some(s.nextId) && o.store.nextId == s.nextId + 1
      && forall k :: k in s.records ==> s.records[k].id != o.result.value.id
  {
  }

  /** A lookup never deletes a record and touches none but the one under its own key. */
  lemma LookupTouchesOnlyItsKey(s: Store, ttl: int, now: Instant, key: string, normCity: Option<string>,
                                normZip: Option<string>, fetch: Fetcher)
    ensures var o := Lookup(s, ttl, now, key, normCity, normZip, fetch);
      o.store.records.Keys == s.records.Keys + (if o.saves == [] then {} else {key})
      && forall k :: k in s.records && k != key ==> o.store.records[k] == s.records[k]
  {
  }

  /** Every lookup keeps the store's invariant. */
  lemma LookupKeepsInv(s: Store, ttl: int, now: Instant, key: string, normCity: Option<string>,
                       normZip: Option<string>, fetch: Fetcher)
    requires Inv(s)
    ensures Inv(Lookup(s, ttl, now, key, normCity, normZip, fetch).store)
  {
    if !(key in s.records && !IsStale(s.records[key], ttl, now)) {
      var q := QueryFor(normCity, normZip);
      if fetch(q).Ok? {
        var rec := Overwrite(Find(s, key).GetOr(NewRecord), key, normCity, normZip, fetch(q).value, now);
        SaveKeepsInv(s, rec);
      }
    }
  }

  /** Within the TTL after a successful lookup, the same lookup is a fresh hit on the record just saved. */
  lemma FreshAfterRefresh(s: Store, ttl: int, now: Instant, later: Instant, key: string, normCity: Option<string>,
                          normZip: Option<string>, fetch: Fetcher, fetch': Fetcher)
    requires 0 <= ttl && now <= later <= now + ttl
    requires Lookup(s, ttl, now, key, normCity, normZip, fetch).result.Ok?
    requires Lookup(s, ttl, now, key, normCity, normZip, fetch).saves != []
    ensures var o := Lookup(s, ttl, now, key, normCity, normZip, fetch);
      Lookup(o.store, ttl, later, key, normCity, normZip, fetch') == Outcome(o.result, o.store, [], [])
  {
  }

  /** With a negative TTL nothing is ever fresh: a record saved at `now` is refreshed again at `now`. */
  lemma NegativeTtlAlwaysRefreshes(s: Store, ttl: int, now: Instant, key: string, normCity: Option<string>,
                                   normZip: Option<string>, fetch: Fetcher)
    requires ttl < 0
    requires Lookup(s, ttl, now, key, normCity, normZip, fetch).saves != []
    ensures var o := Lookup(s, ttl, now, key, normCity, normZip, fetch);
      Lookup(o.store, ttl, now, key, normCity, normZip, fetch).calls == [QueryFor(normCity, normZip)]
  {
  }

  // ----- by city and by zip -----

  /** A lookup saves at most one record: under its own key, with the normalised zip and the provider's city or else the normalised one. */
  lemma LookupSavesUnderItsKey(s: Store, ttl: int, now: Instant, key: string, normCity: Option<string>,
                               normZip: Option<string>, fetch: Fetcher)
    ensures var o := Lookup(s, ttl, now, key, normCity, normZip, fetch);
      o.saves != [] ==>
        |o.saves| == 1 && fetch(QueryFor(normCity, normZip)).Ok?
        && o.saves[0].locationKey == key && o.saves[0].zip == normZip
        && o.saves[0].city == (var api := fetch(QueryFor(normCity, normZip)).value; if api.city.Some? then api.city else normCity)
  {
  }

  /** A city lookup uses the key `"city:" + normCity` and, when it refreshes a present city, calls `fetchByCity(normCity)`. */
  lemma CityLookupQuery(s: Store, ttl: int, now: Instant, city: string, fetch: Fetcher)
    ensures var normCity := NormalizeCity(Some(city));
      var o := LookupCity(s, ttl, now, Some(city), fetch);
      (o.calls == [] || o.calls == [FetchByCity(normCity.value)])
      && (o.saves != [] ==> o.saves[0].locationKey == CityKey(normCity) && o.saves[0].zip.None?)
  {
    var n := NormalizeCity(Some(city));
    ProviderCalledIffMissOrStale(s, ttl, now, CityKey(n), n, None, fetch);
    LookupSavesUnderItsKey(s, ttl, now, CityKey(n), n, None, fetch);
  }

  /**
   * A zip lookup calls `fetchByZip(normZip)` and stores the normalised zip; the city column holds the
   * provider's city, or stays null when the provider named none.
   */
  lemma ZipLookupQuery(s: Store, ttl: int, now: Instant, zipRaw: Option<string>, fetch: Fetcher)
    ensures var normZip := NormalizeZip(zipRaw);
      var o := LookupZip(s, ttl, now, zipRaw, fetch);
      (o.calls == [] || o.calls == [FetchByZip(normZip)])
      && (o.saves != [] ==>
            o.saves[0].locationKey == ZipKey(normZip) && o.saves[0].zip == normZip
            && o.saves[0].city == fetch(FetchByZip(normZip)).value.city)
  {
    var n := NormalizeZip(zipRaw);
    ProviderCalledIffMissOrStale(s, ttl, now, ZipKey(n), None, n, fetch);
    LookupSavesUnderItsKey(s, ttl, now, ZipKey(n), None, n, fetch);
  }

  /** `getByCity(null)` misses or is stale under `"city:null"` and then calls `fetchByZip(null)`. */
  lemma NullCityQueriesByZip(s: Store, ttl: int, now: Instant, fetch: Fetcher)
    requires "city:null" !in s.records || IsStale(s.records["city:null"], ttl, now)
    ensures LookupCity(s, ttl, now, None, fetch).calls == [FetchByZip(None)]
  {
    NullCityKeyCollides();
  }

  // ----- the service's test scenarios (TTL 15 minutes, clock at 12:00) -----

  function AtTime(hours: int, minutes: int): Instant {
    (hours * 60 + minutes) * NanosPerMinute
  }

  const KyivStamped: WeatherRecord :=
    NewRecord.(id := Some(1), locationKey := "city:kyiv", city := Some("Kyiv"),
               temperature := Some(Double(10)), updatedAt := Some(AtTime(11, 50)))

  /** The literal fact behind `ScenarioFreshHit`: 11:50 plus 15 minutes is not before 12:00. */
  lemma KyivFreshAtNoon()
    ensures !IsStale(KyivStamped, 15 * NanosPerMinute, AtTime(12, 0))
  {
  }

  /** Stamped 11:50, looked up at 12:00 with a 15-minute TTL: returned as stored, no provider call. */
  lemma ScenarioFreshHit(fetch: Fetcher)
    ensures var s := Store(map["city:kyiv" := KyivStamped], 2);
      LookupCity(s, 15 * NanosPerMinute, AtTime(12, 0), Some("  Kyiv  "), fetch) == Outcome(Ok(KyivStamped), s, [], [])
  {
    CityKeyExample();
    KyivFreshAtNoon();
  }

  const LondonStale: WeatherRecord :=
    NewRecord.(id := Some(1), locationKey := "city:london", city := Some("London"),
               temperature := Some(Double(5)), updatedAt := Some(AtTime(11, 0)))

  /** The literal facts behind `ScenarioStaleRefresh`: the London store is valid and its record stale at 12:00. */
  lemma LondonStoreFacts()
    ensures Inv(Store(map["city:london" := LondonStale], 2))
    ensures IsStale(LondonStale, 15 * NanosPerMinute, AtTime(12, 0))
  {
  }

  /**
   * London stamped 11:00, looked up as `"London"` at 12:00: one `fetchByCity("london")`, the same identity,
   * stamped 12:00, with the provider's temperature and description.
   */
  lemma ScenarioStaleRefresh(fetch: Fetcher, api: ApiResponse)
    requires fetch(FetchByCity("london")) == Ok(api) && api.city == Some("London") && api.description == Some("overcast")
    ensures var s := Store(map["city:london" := LondonStale], 2);
      var o := LookupCity(s, 15 * NanosPerMinute, AtTime(12, 0), Some("London"), fetch);
      o.calls == [FetchByCity("london")] && o.saves == [o.result.value]
      && o.result.Ok? && o.result.value.id == Some(1) && o.result.value.city == Some("London")
      && o.result.value.updatedAt == Some(AtTime(12, 0)) && o.result.value.temperature == api.temperature
      && o.result.value.description == Some("overcast")
  {
    var s := Store(map["city:london" := LondonStale], 2);
    var ttl, now := 15 * NanosPerMinute, AtTime(12, 0);
    LondonKeyExample();
    LondonStoreFacts();
    assert LookupCity(s, ttl, now, Some("London"), fetch) == Lookup(s, ttl, now, "city:london", Some("london"), None, fetch);
    SuccessfulRefresh(s, ttl, now, "city:london", Some("london"), None, fetch, api);
    StaleRefreshKeepsIdentity(s, ttl, now, "city:london", Some("london"), None, fetch);
  }


  /** A zip lookup that misses calls the provider once and stores its answer under the next identity, stamped now. */
  lemma ZipMiss(s: Store, ttl: int, now: Instant, zipRaw: Option<string>, fetch: Fetcher, api: ApiResponse)
    requires Inv(s)
    requires ZipKey(NormalizeZip(zipRaw)) !in s.records
    requires fetch(FetchByZip(NormalizeZip(zipRaw))) == Ok(api)
    ensures var o := LookupZip(s, ttl, now, zipRaw, fetch);
      o.calls == [FetchByZip(NormalizeZip(zipRaw))] && o.result.Ok?
      && o.result.value.id == Some(s.nextId) && o.result.value.locationKey == ZipKey(NormalizeZip(zipRaw))
      && o.result.value.updatedAt == Some(now) && o.store.nextId == s.nextId + 1
      && o.result.value.zip == NormalizeZip(zipRaw) && o.result.value.city == api.city
      && o.result.value.temperature == api.temperature && o.saves == [o.result.value]
  {
    var n := NormalizeZip(zipRaw);
    assert QueryFor(None, n) == FetchByZip(n);
    MissAssignsNewIdentity(s, ttl, now, ZipKey(n), None, n, fetch);
    SuccessfulRefresh(s, ttl, now, ZipKey(n), None, n, fetch, api);
    ProviderCalledIffMissOrStale(s, ttl, now, ZipKey(n), None, n, fetch);
  }

  /** The literal facts behind `ScenarioMiss`: the Kyiv store is valid and holds nothing under `"zip:90210"`. */
  lemma KyivStoreValid()
    ensures Inv(Store(map["city:kyiv" := KyivStamped], 100))
    ensures "zip:90210" !in Store(map["city:kyiv" := KyivStamped], 100).records
  {
    assert "zip:90210"[0] != "city:kyiv"[0];
  }

  /**
   * Nothing stored under `"zip:90210"`: one provider call, one save of a record with the next identity,
   * stamped now, carrying the zip `"90210"` and the provider's city and temperature.
   */
  lemma ScenarioMiss(fetch: Fetcher, api: ApiResponse)
    requires fetch(FetchByZip(Some("90210"))) == Ok(api) && api.city == Some("Beverly Hills")
    ensures var s := Store(map["city:kyiv" := KyivStamped], 100);
      var o := LookupZip(s, 15 * NanosPerMinute, AtTime(12, 0), Some("  90210 "), fetch);
      o.calls == [FetchByZip(Some("90210"))] && o.result.Ok?
      && o.result.value.id == Some(100) && o.result.value.locationKey == "zip:90210"
      && o.result.value.updatedAt == Some(AtTime(12, 0)) && o.store.nextId == 101
      && o.result.value.zip == Some("90210") && o.result.value.city == Some("Beverly Hills")
      && o.result.value.temperature == api.temperature && o.saves == [o.result.value]
  {
    ZipKeyExample();
    KyivStoreValid();
    ZipMiss(Store(map["city:kyiv" := KyivStamped], 100), 15 * NanosPerMinute, AtTime(12, 0), Some("  90210 "), fetch, api);
  }


  /** The provider answers 404: the lookup raises the same kind and the store is untouched. */
  lemma ScenarioProviderFailure(fetch: Fetcher)
    requires fetch(FetchByCity("kyiv")) == Err(LocationNotFound)
    ensures var s := Store(map[], 1);
      LookupCity(s, 15 * NanosPerMinute, AtTime(12, 0), Some("  Kyiv  "), fetch) == Outcome(Err(LocationNotFound), s, [FetchByCity("kyiv")], [])
  {
    CityKeyExample();
  }
}
