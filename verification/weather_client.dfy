/** The weather client's value types and its two requests. */
module WeatherClientInterface {
  import opened Options
  import opened CoreLocation

  /** One forecast day. The date is seconds since the reference date; temperatures are opaque. */
  datatype ConsolidatedWeather = ConsolidatedWeather(
    applicableDate: real,
    id: int,
    maxTemp: real,
    minTemp: real,
    theTemp: real)

  /** The forecast, today first. */
  datatype WeatherResponse = WeatherResponse(consolidatedWeather: seq<ConsolidatedWeather>)

  /** A resolved place, identified by its "where on earth" id. */
  datatype Location = Location(title: string, woeid: int)

  /** The injected client. Each request answers at once with a value, or `None` when its
      publisher completes with a failure (the app ignores the error itself). */
  datatype WeatherClient = WeatherClient(
    weather: int -> Option<WeatherResponse>,
    searchLocations: Coordinate -> Option<seq<Location>>)
}
