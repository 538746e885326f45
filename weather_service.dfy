/**
 * `WeatherService`: the cache-aside orchestrator. It owns the repository (records by location key and the
 * identity counter) and a TTL. The clock and the provider are given to each lookup. Ghost logs record the
 * calls the service receives, the provider calls it makes and the records it saves.
 */
module Service {
  import opened Wrappers
  import opened Domain
  import opened Normalize
  import opened CacheModel

  /** The TTL the service takes when none is configured: 15 minutes. */
  const DefaultTtlMinutes: int := 15

  class WeatherService {
    var records: map<string, WeatherRecord>
    var nextId: int
    /** `Duration.ofMinutes(ttlMinutes)`, in the clock's nanoseconds. */
    const ttl: int

    ghost var requests: seq<Request>
    ghost var providerCalls: seq<Query>
    ghost var saves: seq<WeatherRecord>

    function State(): Store
      reads this`records, this`nextId
    {
      Store(records, nextId)
    }

    ghost predicate Valid()
      reads this`records, this`nextId
    {
      Inv(State())
    }

    /** Puts the service over an existing repository, with the TTL in minutes (Java's `@Value` default is 15). */
    constructor (store: Store, ttlMinutes: int)
      requires Inv(store)
      ensures Valid() && State() == store && ttl == ttlMinutes * NanosPerMinute
      ensures requests == [] && providerCalls == [] && saves == []
    {
      records := store.records;
      nextId := store.nextId;
      ttl := ttlMinutes * NanosPerMinute;
      requests, providerCalls, saves := [], [], [];
    }

    /**
     * The service's state and logs after serving `req` at `now` are what the model's `Answer` says,
     * and `res` is the model's result.
     */
    twostate predicate Served(req: Request, now: Instant, fetch: Fetcher, new res: Result<WeatherRecord, ApiError>)
      reads this
    {
      var o := Answer(old(State()), ttl, now, req, fetch);
      res == o.result && State() == o.store
      && requests == old(requests) + [req]
      && providerCalls == old(providerCalls) + o.calls
      && saves == old(saves) + o.saves
    }

    /** `findByLocationKey`: the record stored under `key`, if any. */
    method FindByLocationKey(key: string) returns (found: Option<WeatherRecord>)
      ensures found.Some? <==> key in records
      ensures found.Some? ==> found.value == records[key]
      ensures Valid() ==> found.None? || (found.value.locationKey == key && found.value.id.Some? && found.value.id.value < nextId)
    {
      found := if key in records then Some(records[key]) else None;
      assert found.Some? ==> key in State().records;
    }

    /** `save`: insert a record without identity under the next identity, or replace the row under its key. */
    method Save(rec: WeatherRecord) returns (saved: WeatherRecord)
      requires Valid()
      requires rec.id.None? ==> rec.locationKey !in records
      requires rec.id.Some? ==> rec.locationKey in records && records[rec.locationKey].id == rec.id
      modifies this
      ensures Valid()
      ensures (State(), saved) == SaveRecord(old(State()), rec)
      ensures saves == old(saves) + [saved]
      ensures requests == old(requests) && providerCalls == old(providerCalls)
    {
      SaveKeepsInv(State(), rec);
      if rec.id.None? {
        saved := rec.(id := Some(nextId));
        nextId := nextId + 1;
      } else {
        saved := rec;
      }
      records := records[rec.locationKey := saved];
      saves := saves + [saved];
    }

    /** `getByCity`: normalise, build the key, serve a fresh stored record or refresh it from the provider. */
    method GetByCity(cityRaw: Option<string>, now: Instant, fetch: Fetcher) returns (res: Result<WeatherRecord, ApiError>)
      requires Valid()
      modifies this
      ensures Valid()
      ensures Served(CityRequest(cityRaw), now, fetch, res)
    {
      requests := requests + [CityRequest(cityRaw)];
      var normCity := NormalizeCity(cityRaw);
      var key := CityKey(normCity);
      ghost var s0 := State();
      assert s0 == old(State());
      ghost var o := Lookup(s0, ttl, now, key, normCity, None, fetch);
      AnswerByCity(s0, ttl, now, cityRaw, fetch);

      var existing := FindByLocationKey(key);
      if existing.Some? && !IsStale(existing.value, ttl, now) {
        assert o == Outcome(Ok(existing.value), s0, [], []);
        return Ok(existing.value);
      }
      assert o == Refresh(s0, now, key, normCity, None, fetch);
      res := RefreshFromApiAndSave(key, normCity, None, now, fetch);
    }

    /** `getByZip`: as `GetByCity`, with the zip normalised and keyed instead. */
    method GetByZip(zipRaw: Option<string>, now: Instant, fetch: Fetcher) returns (res: Result<WeatherRecord, ApiError>)
      requires Valid()
      modifies this
      ensures Valid()
      ensures Served(ZipRequest(zipRaw), now, fetch, res)
    {
      requests := requests + [ZipRequest(zipRaw)];
      var normZip := NormalizeZip(zipRaw);
      var key := ZipKey(normZip);
      ghost var s0 := State();
      assert s0 == old(State());
      ghost var o := Lookup(s0, ttl, now, key, None, normZip, fetch);
      AnswerByZip(s0, ttl, now, zipRaw, fetch);

      var existing := FindByLocationKey(key);
      if existing.Some? && !IsStale(existing.value, ttl, now) {
        assert o == Outcome(Ok(existing.value), s0, [], []);
        return Ok(existing.value);
      }
      assert o == Refresh(s0, now, key, None, normZip, fetch);
      res := RefreshFromApiAndSave(key, None, normZip, now, fetch);
    }

    /**
     * `refreshFromApiAndSave`: one provider call; if it fails, nothing is written; otherwise the record
     * under the key (or a new one) gets the eight setters and is saved.
     */
    method RefreshFromApiAndSave(locationKey: string, normCity: Option<string>, normZip: Option<string>,
                                 now: Instant, fetch: Fetcher) returns (res: Result<WeatherRecord, ApiError>)
      requires Valid()
      modifies this
      ensures Valid()
      ensures var o := Refresh(old(State()), now, locationKey, normCity, normZip, fetch);
        res == o.result && State() == o.store
        && providerCalls == old(providerCalls) + o.calls && saves == old(saves) + o.saves
      ensures requests == old(requests)
    {
      var query := if normCity.Some? then FetchByCity(normCity.value) else FetchByZip(normZip);
      providerCalls := providerCalls + [query];
      var api := fetch(query);
      if api.Err? {
        return Err(api.error);
      }

      var found := FindByLocationKey(locationKey);
      var rec := if found.Some? then found.value else NewRecord;
      rec := rec.(locationKey := locationKey);
      rec := rec.(city := if api.value.city.Some? then api.value.city else normCity);
      rec := rec.(zip := normZip);
      rec := rec.(temperature := api.value.temperature);
      rec := rec.(description := api.value.description);
      rec := rec.(humidity := api.value.humidity);
      rec := rec.(windSpeed := api.value.windSpeed);
      rec := rec.(updatedAt := Some(now));

      assert rec == Overwrite(Find(State(), locationKey).GetOr(NewRecord), locationKey, normCity, normZip, api.value, now);
      var saved := Save(rec);
      res := Ok(saved);
      assert Refresh(old(State()), now, locationKey, normCity, normZip, fetch) == Outcome(res, State(), [query], [saved]);
    }
  }

  /**
   * The service's own test sequence on one key: a miss at 12:00 creates identity 1 after one provider call,
   * then a fresh hit at 12:10 on another spelling of the city returns the same record with no call and no save.
   */
  method MissThenHit(fetch: Fetcher, api: ApiResponse)
    returns (first: Result<WeatherRecord, ApiError>, second: Result<WeatherRecord, ApiError>,
             ghost calls: seq<Query>, ghost saved: seq<WeatherRecord>)
    requires fetch(FetchByCity("kyiv")) == Ok(api)
    ensures first.Ok? && first.value.id == Some(1) && first.value.locationKey == "city:kyiv"
    ensures first.value.updatedAt == Some(AtTime(12, 0)) && first.value.temperature == api.temperature
    ensures second == first
    ensures calls == [FetchByCity("kyiv")]
    ensures saved == [first.value]
  {
    var service := new WeatherService(Store(map[], 1), DefaultTtlMinutes);
    ghost var s0, ttl := service.State(), service.ttl;
    CityKeyExample();
    KyivCapitalised();
    assert CityKey(Some("kyiv")) == "city:kyiv";
    assert QueryFor(Some("kyiv"), None) == FetchByCity("kyiv");
    SuccessfulRefresh(s0, ttl, AtTime(12, 0), "city:kyiv", Some("kyiv"), None, fetch, api);
    MissAssignsNewIdentity(s0, ttl, AtTime(12, 0), "city:kyiv", Some("kyiv"), None, fetch);
    ghost var o := Lookup(s0, ttl, AtTime(12, 0), "city:kyiv", Some("kyiv"), None, fetch);
    FreshAfterRefresh(s0, ttl, AtTime(12, 0), AtTime(12, 10), "city:kyiv", Some("kyiv"), None, fetch, fetch);

    first := service.GetByCity(Some("  Kyiv  "), AtTime(12, 0), fetch);
    assert first == o.result && service.State() == o.store;
    assert service.providerCalls == [FetchByCity("kyiv")] && service.saves == [first.value];

    second := service.GetByCity(Some("Kyiv"), AtTime(12, 10), fetch);
    calls, saved := service.providerCalls, service.saves;
  }

}
