/**
 * `WeatherController.getWeather`: accepts a request carrying exactly one of `city` and `zip`, hands the raw
 * value to the matching service lookup, and answers 200 with the record the service returned.
 */
module Controller {
  import opened Wrappers
  import opened Domain
  import opened CacheModel
  import opened Service

  /** Where a request goes: rejected with 400, or to the city or the zip lookup with the raw parameter. */
  datatype Dispatch = Rejected | ToCity(rawCity: string) | ToZip(rawZip: string)

  /** The HTTP answer: 400 with no body, or 200 with the record. */
  datatype Response = BadRequest | OkWith(body: WeatherRecord)

  /** The exactly-one-of rule, then the choice of lookup. */
  function Route(city: Option<string>, zip: Option<string>): (d: Dispatch)
    ensures d.Rejected? <==> (city.Some? <==> zip.Some?)
    ensures d.ToCity? <==> city.Some? && zip.None?
    ensures d.ToCity? ==> city == Some(d.rawCity)
    ensures d.ToZip? ==> zip == Some(d.rawZip)
  {
    if (city.None? && zip.None?) || (city.Some? && zip.Some?) then Rejected
    else if city.Some? then ToCity(city.value)
    else ToZip(zip.value)
  }

  /** The service call an accepted request makes. */
  function RequestOf(d: Dispatch): (r: Request)
    requires !d.Rejected?
    ensures d.ToCity? ==> r == CityRequest(Some(d.rawCity))
    ensures d.ToZip? ==> r == ZipRequest(Some(d.rawZip))
  {
    match d
    case ToCity(c) => CityRequest(Some(c))
    case ToZip(z) => ZipRequest(Some(z))
  }

  /** `ResponseEntity.ok(rec)`; an exception from the service passes through unchanged. */
  function Respond(res: Result<WeatherRecord, ApiError>): (r: Result<Response, ApiError>)
    ensures res.Ok? <==> r.Ok?
    ensures r.Ok? ==> r.value == OkWith(res.value)
    ensures r.Err? ==> r.error == res.error
  {
    match res
    case Ok(rec) => Ok(OkWith(rec))
    case Err(e) => Err(e)
  }

  class WeatherController {
    const service: WeatherService

    constructor (service: WeatherService)
      ensures this.service == service
    {
      this.service := service;
    }

    /**
     * `getWeather`: zero or two parameters give 400 and leave the service untouched (no lookup at all);
     * one parameter is passed raw to its lookup, and the lookup's record comes back with 200.
     */
    method GetWeather(city: Option<string>, zip: Option<string>, now: Instant, fetch: Fetcher)
      returns (r: Result<Response, ApiError>)
      requires service.Valid()
      modifies service
      ensures service.Valid()
      ensures Route(city, zip).Rejected? ==> r == Ok(BadRequest) && unchanged(service)
      ensures !Route(city, zip).Rejected? ==>
        var req := RequestOf(Route(city, zip));
        var o := Answer(old(service.State()), service.ttl, now, req, fetch);
        r == Respond(o.result) && service.Served(req, now, fetch, o.result)
    {
      if (city.None? && zip.None?) || (city.Some? && zip.Some?) {
        return Ok(BadRequest);
      }

      var rec;
      if city.Some? {
        rec := service.GetByCity(city, now, fetch);
      } else {
        rec := service.GetByZip(zip, now, fetch);
      }
      r := Respond(rec);
    }
  }

  // ----- the controller's test cases -----

  /** Neither parameter: rejected. */
  lemma NoParameterRejected()
    ensures Route(None, None) == Rejected
  {
  }

  /** Both parameters: rejected, whatever they hold. */
  lemma BothParametersRejected(city: string, zip: string)
    ensures Route(Some(city), Some(zip)) == Rejected
  {
  }

  /** Only a city: the city lookup gets the raw text, not normalised. */
  lemma CityOnlyGoesRaw(city: string)
    ensures RequestOf(Route(Some(city), None)) == CityRequest(Some(city))
  {
  }

  /** Only a zip: the zip lookup gets the raw text. */
  lemma ZipOnlyGoesRaw(zip: string)
    ensures RequestOf(Route(None, Some(zip))) == ZipRequest(Some(zip))
  {
  }

  /** The controller never reaches `getByCity(null)` or `getByZip(null)`. */
  lemma AcceptedRequestsCarryAValue(city: Option<string>, zip: Option<string>)
    requires !Route(city, zip).Rejected?
    ensures match RequestOf(Route(city, zip))
      case CityRequest(raw) => raw.Some?
      case ZipRequest(raw) => raw.Some?
  {
  }
}
