/** The weather service: the request it sends for one location, the
    transform of the provider's payload, the message of the error it raises,
    and the fan-out over several locations. The HTTP call is a parameter. */
module WeatherService {
  import opened Wrappers
  import opened WeatherTypes

  const BaseUrl: string := "https://api.openweathermap.org/data/2.5"
  const DemoApiKey: string := "demo"
  const UnknownDescription: string := "Unknown"
  const ApiErrorPrefix: string := "Weather API error: "
  const GenericFailure: string := "Failed to fetch weather data"

  /** The query parameters of the current-weather request. */
  datatype RequestParams = RequestParams(q: string, appid: string, units: string)

  datatype Request = Request(url: string, params: RequestParams)

  /** The body of a successful reply: a payload of the provider's shape, or
      one the transform cannot read (it throws a type error). */
  datatype Body = Payload(data: WeatherApiResponse) | Malformed

  /** The provider's error body and the HTTP response that carries it. */
  datatype ErrorBody = ErrorBody(message: Option<string>)

  datatype ErrorResponse = ErrorResponse(data: Option<ErrorBody>)

  /** What the request can throw: the HTTP client's own error, with its
      message and the provider's response when there was one, or anything
      else. */
  datatype FetchError =
    | HttpClientError(message: string, response: Option<ErrorResponse>)
    | OtherError

  /** The HTTP call: one reply, or one error, per request. */
  type Fetch = Request -> Result<Body, FetchError>

  /** `config.apiKey || 'demo'`: the configured key unless it is missing or
      empty. */
  function ResolveApiKey(apiKey: Option<string>): (key: string)
    ensures key != ""
    ensures apiKey.Some? && apiKey.value != "" ==> key == apiKey.value
    ensures apiKey.None? || apiKey.value == "" ==> key == DemoApiKey
  {
    if apiKey.Some? && apiKey.value != "" then apiKey.value else DemoApiKey
  }

  /** The current-weather request for `location`. */
  function WeatherRequest(config: WeatherConfig, location: string): (r: Request)
    ensures r.url == BaseUrl + "/weather"
    ensures r.params.q == location
    ensures r.params.units == UnitsName(config.units)
    ensures r.params.appid != ""
    ensures config.apiKey.Some? && config.apiKey.value != "" ==> r.params.appid == config.apiKey.value
    ensures config.apiKey.None? || config.apiKey.value == "" ==> r.params.appid == DemoApiKey
  {
    Request(BaseUrl + "/weather",
            RequestParams(location, ResolveApiKey(config.apiKey), UnitsName(config.units)))
  }

  /** `weather[0]?.description || 'Unknown'`. */
  function FirstDescription(weather: seq<Condition>): (d: string)
    ensures d != ""
    ensures |weather| > 0 && weather[0].description != "" ==> d == weather[0].description
    ensures |weather| == 0 || weather[0].description == "" ==> d == UnknownDescription
  {
    if |weather| > 0 && weather[0].description != "" then weather[0].description else UnknownDescription
  }

  /** The weather record for a provider payload: every field passes through
      unchanged except the description, which falls back to "Unknown", and
      the time, which goes from seconds to milliseconds. */
  function TransformApiResponse(api: WeatherApiResponse): (d: WeatherData)
    ensures d.location == api.name
    ensures d.temperature == api.main.temp
    ensures d.humidity == api.main.humidity
    ensures d.windSpeed == api.wind.speed
    ensures d.pressure == api.main.pressure
    ensures d.description == FirstDescription(api.weather)
    ensures d.timestamp == api.dt * 1000
  {
    WeatherData(
      api.name,
      api.main.temp,
      api.main.humidity,
      FirstDescription(api.weather),
      api.wind.speed,
      api.main.pressure,
      api.dt * 1000)
  }

  /** The millisecond timestamp is a whole number of seconds, and those
      seconds are the payload's `dt`. */
  lemma TimestampSeconds(api: WeatherApiResponse)
    ensures TransformApiResponse(api).timestamp % 1000 == 0
    ensures TransformApiResponse(api).timestamp / 1000 == api.dt
  {
  }

  /** The description is "Unknown" exactly when there is no first condition,
      its description is empty, or it is itself "Unknown". */
  lemma UnknownDescriptionExactly(api: WeatherApiResponse)
    ensures TransformApiResponse(api).description == UnknownDescription
            <==> |api.weather| == 0 || api.weather[0].description in {"", UnknownDescription}
  {
  }

  /** `error.response?.data?.message`. */
  function ProviderMessage(response: Option<ErrorResponse>): (m: Option<string>)
    ensures m.Some? <==> response.Some? && response.value.data.Some? && response.value.data.value.message.Some?
    ensures m.Some? ==> m.value == response.value.data.value.message.value
  {
    match response
    case None => None
    case Some(r) =>
      match r.data
      case None => None
      case Some(body) => body.message
  }

  /** The text of the error the service raises: the provider's message, or
      the HTTP client's own when the provider gave none or an empty one,
      after a fixed prefix; a fixed text for any other error. */
  function ErrorMessage(e: FetchError): (m: string)
    ensures e.HttpClientError? <==> |ApiErrorPrefix| <= |m| && m[..|ApiErrorPrefix|] == ApiErrorPrefix
    ensures e.OtherError? ==> m == GenericFailure
    ensures e.HttpClientError? && ProviderMessage(e.response).Some? && ProviderMessage(e.response).value != "" ==>
              m[|ApiErrorPrefix|..] == ProviderMessage(e.response).value
    ensures e.HttpClientError? && (ProviderMessage(e.response).None? || ProviderMessage(e.response).value == "") ==>
              m[|ApiErrorPrefix|..] == e.message
  {
    match e
    case HttpClientError(message, response) =>
      var provided := ProviderMessage(response);
      var detail := if provided.Some? && provided.value != "" then provided.value else message;
      assert (ApiErrorPrefix + detail)[..|ApiErrorPrefix|] == ApiErrorPrefix;
      ApiErrorPrefix + detail
    case OtherError =>
      assert GenericFailure[0] != ApiErrorPrefix[0];
      GenericFailure
  }

  /** The weather for one location: the transformed payload, or the error
      message when the request fails or its payload cannot be read. */
  function GetWeatherData(config: WeatherConfig, fetch: Fetch, location: string): (r: Result<WeatherData, string>)
    ensures var reply := fetch(WeatherRequest(config, location));
      && (r.Success? <==> reply.Success? && reply.value.Payload?)
      && (r.Success? ==> r.value == TransformApiResponse(reply.value.data))
      && (reply.Failure? ==> r.error == ErrorMessage(reply.error))
      && (reply.Success? && reply.value.Malformed? ==> r.error == GenericFailure)
  {
    match fetch(WeatherRequest(config, location))
    case Success(Payload(data)) => Success(TransformApiResponse(data))
    case Success(Malformed) => Failure(GenericFailure)
    case Failure(e) => Failure(ErrorMessage(e))
  }

  /** `Promise.all`: every value in order when all succeed, otherwise one of
      the failures. */
  function All<T, E>(results: seq<Result<T, E>>): (r: Result<seq<T>, E>)
    ensures r.Success? <==> forall i :: 0 <= i < |results| ==> results[i].Success?
    ensures r.Success? ==> |r.value| == |results| && forall i :: 0 <= i < |results| ==> r.value[i] == results[i].value
    ensures r.Failure? ==> exists i :: 0 <= i < |results| && results[i] == Failure(r.error)
  {
    if |results| == 0 then Success([])
    else
      match results[0]
      case Failure(e) => Failure(e)
      case Success(v) =>
        var rest := All(results[1..]);
        match rest
        case Failure(e) =>
          assert exists i :: 1 <= i < |results| && results[i] == Failure(e);
          Failure(e)
        case Success(vs) =>
          Success([v] + vs)
  }

  /** The weather for several locations: one request per location, results
      in the order of `locations`, and an error, with no partial results,
      as soon as one request fails. */
  function GetWeatherForMultipleLocations(config: WeatherConfig, fetch: Fetch, locations: seq<string>)
    : (r: Result<seq<WeatherData>, string>)
    ensures r.Success? <==> forall i :: 0 <= i < |locations| ==> GetWeatherData(config, fetch, locations[i]).Success?
    ensures r.Success? ==>
              && |r.value| == |locations|
              && forall i :: 0 <= i < |locations| ==> r.value[i] == GetWeatherData(config, fetch, locations[i]).value
    ensures r.Failure? ==>
              exists i :: 0 <= i < |locations| && GetWeatherData(config, fetch, locations[i]) == Failure(r.error)
  {
    var results := seq(|locations|, i requires 0 <= i < |locations| => GetWeatherData(config, fetch, locations[i]));
    assert forall i :: 0 <= i < |locations| ==> results[i] == GetWeatherData(config, fetch, locations[i]);
    All(results)
  }

  /** A provider rejection surfaces the provider's text, after the prefix. */
  lemma ProviderErrorExample(e: FetchError)
    requires e == HttpClientError("Request failed with status code 404",
                                  Some(ErrorResponse(Some(ErrorBody(Some("city not found"))))))
    ensures ErrorMessage(e) == "Weather API error: city not found"
  {
    assert ProviderMessage(e.response) == Some("city not found");
    assert ErrorMessage(e) == ApiErrorPrefix + "city not found";
  }

  /** The payload time of the formatter's test record. */
  lemma TimestampExample(api: WeatherApiResponse)
    requires api.dt == 1701432000
    ensures TransformApiResponse(api).timestamp == 1701432000000
  {
  }
}
