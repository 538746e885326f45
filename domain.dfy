/**
 * The data the cache works on: the persisted weather record, the provider's parsed answer,
 * the provider's failure kinds, and the query the service sends the provider.
 */
module Domain {
  import opened Wrappers

  /** A Java `Double` the service never computes with: an opaque IEEE-754 bit pattern, only copied. */
  datatype Double = Double(bits: int)

  /** Time on the service's clock: a local date-time counted in nanoseconds from a fixed origin. */
  type Instant = int

  const NanosPerMinute: int := 60_000_000_000

  /**
   * The `weather_records` row. `id` is the identity column (None until the store first saves the row);
   * every other column is nullable in the entity, except `locationKey`, which the service always sets.
   */
  datatype WeatherRecord = WeatherRecord(
    id: Option<int>,
    locationKey: string,
    city: Option<string>,
    zip: Option<string>,
    temperature: Option<Double>,
    description: Option<string>,
    humidity: Option<int>,
    windSpeed: Option<Double>,
    updatedAt: Option<Instant>)

  /**
   * `new WeatherRecord()`: every field null. The entity's `locationKey` is null too; the service sets it
   * before anything reads it, so the model starts it as the empty string.
   */
  const NewRecord: WeatherRecord :=
    WeatherRecord(None, "", None, None, None, None, None, None, None)

  /** The provider's parsed answer: each field independently absent when the payload omits it. */
  datatype ApiResponse = ApiResponse(
    temperature: Option<Double>,
    humidity: Option<int>,
    description: Option<string>,
    windSpeed: Option<Double>,
    city: Option<string>)

  /** The three exceptions the provider client raises: a 401, a 404, and every other failure. */
  datatype ApiError = Unauthorized | LocationNotFound | FetchFailed

  /** A provider call: `fetchByCity(city)` or `fetchByZip(zip)`; the zip may be null (see `GetByCity(null)`). */
  datatype Query = FetchByCity(city: string) | FetchByZip(zip: Option<string>)

  /** The provider as an oracle: what it answers (or throws) for each call. */
  type Fetcher = Query -> Result<ApiResponse, ApiError>
}
