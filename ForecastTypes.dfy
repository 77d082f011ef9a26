/**
 * The data shapes of the weather page (app/page.tsx): the coordinate kept in
 * state, and the forecast document returned by the weather provider.
 * JavaScript numbers are carried as reals; nothing here does arithmetic on them.
 */
module ForecastTypes {
  import opened Wrappers

  datatype Coordinate = Coordinate(latitude: real, longitude: real)

  /** The placeholder coordinate that state starts from before a position is known. */
  const DefaultCoordinates: Coordinate := Coordinate(90.0, 0.0)

  /** One sample of the provider's twenty weather attributes. */
  datatype ForecastValue = ForecastValue(
    cloudBase: real,
    cloudCeiling: real,
    cloudCover: real,
    dewPoint: real,
    freezingRainIntensity: real,
    humidity: real,
    precipitationProbability: real,
    pressureSurfaceLevel: real,
    rainIntensity: real,
    sleetIntensity: real,
    snowIntensity: real,
    temperature: real,
    temperatureApparent: real,
    uvHealthConcern: real,
    uvIndex: real,
    visibility: real,
    weatherCode: real,
    windDirection: real,
    windGust: real,
    windSpeed: real)

  /** A daily sample: every ForecastValue attribute plus the apparent-temperature summary. */
  datatype DailyForecastValue = DailyForecastValue(
    base: ForecastValue,
    temperatureApparentAvg: real,
    temperatureApparentMax: real,
    temperatureApparentMin: real)

  datatype TimelineValue = TimelineValue(time: string, values: ForecastValue)

  datatype DailyTimelineValue = DailyTimelineValue(time: string, values: DailyForecastValue)

  datatype Timelines = Timelines(
    hourly: seq<TimelineValue>,
    minutely: seq<TimelineValue>,
    daily: seq<DailyTimelineValue>)

  /** The provider's echo of the requested place; `kind` is the document's `type` field. */
  datatype Location = Location(lat: real, lon: real, name: string, kind: string)

  /**
   * The decoded response. Both parts are optional, so "no timelines" and
   * "timelines with an empty daily list" are different values.
   */
  datatype Forecast = Forecast(timelines: Option<Timelines>, location: Option<Location>)

  /** The `{}` that forecast state starts from. */
  const EmptyForecast: Forecast := Forecast(None, None)
}
