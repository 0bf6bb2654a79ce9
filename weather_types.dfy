/** The record shapes shared by the service and the formatter. Numbers the
    source holds as JavaScript numbers are `real`s here, except the epoch
    times, which are whole seconds and milliseconds. */
module WeatherTypes {
  import opened Wrappers

  /** The unit system: it selects the provider's units and the display symbols. */
  datatype Units = Metric | Imperial

  /** The text the source uses for a unit system (`'metric' | 'imperial'`). */
  function UnitsName(units: Units): string
  {
    match units
    case Metric => "metric"
    case Imperial => "imperial"
  }

  /** One location's weather, as the service hands it to the formatter. */
  datatype WeatherData = WeatherData(
    location: string,
    temperature: real,
    humidity: real,
    description: string,
    windSpeed: real,
    pressure: real,
    /** milliseconds since the Unix epoch (the source's `Date`) */
    timestamp: int)

  datatype MainReadings = MainReadings(temp: real, humidity: real, pressure: real)

  datatype Condition = Condition(description: string)

  datatype WindReading = WindReading(speed: real)

  /** The provider's payload for one location. */
  datatype WeatherApiResponse = WeatherApiResponse(
    name: string,
    main: MainReadings,
    weather: seq<Condition>,
    wind: WindReading,
    /** seconds since the Unix epoch */
    dt: int)

  /** The service's configuration; `apiKey` is optional. */
  datatype WeatherConfig = WeatherConfig(
    apiKey: Option<string>,
    units: Units,
    defaultLocation: string)
}
