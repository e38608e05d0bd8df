/** `fetchRealTimeWeather`: resolve the city, ask the forecast provider for
    the current conditions at that coordinate, and package the answer as the
    record the weather card displays. The provider call itself is not
    modelled: its answer is an input, `None` standing for any thrown error
    (network failure, missing fields, provider error). */
module WeatherService {
  import opened Wrappers
  import opened WeatherCodes
  import opened Cities

  /** The four current-condition values the provider reports. Numbers are
      idealised as exact reals; the weather code is an integer. */
  datatype Readings = Readings(temperature: real, humidity: real, windSpeed: real, weatherCode: int)

  /** The response record: name, a weather list, rounded measurements. */
  datatype WeatherRecord = WeatherRecord(
    name: string,
    weather: seq<Condition>,
    temp: int,
    humidity: int,
    windSpeed: real)

  /** `Math.round` on exact reals: the nearest integer, halves going up. */
  function Round(x: real): (n: int)
    ensures x - 0.5 < n as real <= x + 0.5
  {
    (x + 0.5).Floor
  }

  /** Exactly one integer lies in the half-open window around `x`, so the
      window characterises `Round`. */
  lemma RoundUnique(x: real, n: int)
    requires x - 0.5 < n as real <= x + 0.5
    ensures Round(x) == n
  {
  }

  /** Rounding an integer-valued number gives it back. */
  lemma RoundInteger(n: int)
    ensures Round(n as real) == n
  {
  }

  /** `Math.round(x * 10) / 10`: a whole number of tenths within a
      twentieth of `x`. */
  function RoundTenth(x: real): (r: real)
    ensures x - 0.05 < r <= x + 0.05
    ensures (r * 10.0).Floor as real == r * 10.0
  {
    Round(x * 10.0) as real / 10.0
  }

  /** Exactly one whole number of tenths lies in the window around `x`, so
      the window characterises `RoundTenth`. */
  lemma TenthUnique(x: real, r: real)
    requires x - 0.05 < r <= x + 0.05
    requires (r * 10.0).Floor as real == r * 10.0
    ensures RoundTenth(x) == r
  {
    RoundUnique(x * 10.0, (r * 10.0).Floor);
  }

  /** The record returned on success. Its name is the caller's string
      verbatim, even when the coordinate came from the fallback. */
  function BuildRecord(cityName: string, readings: Readings): (r: WeatherRecord)
    ensures r.name == cityName
    ensures |r.weather| == 1 && r.weather[0] == Classify(readings.weatherCode)
    ensures readings.temperature - 0.5 < r.temp as real <= readings.temperature + 0.5
    ensures readings.humidity - 0.5 < r.humidity as real <= readings.humidity + 0.5
    ensures readings.windSpeed - 0.05 < r.windSpeed <= readings.windSpeed + 0.05
  {
    WeatherRecord(
      cityName,
      [Classify(readings.weatherCode)],
      Round(readings.temperature),
      Round(readings.humidity),
      RoundTenth(readings.windSpeed))
  }

  /** A record as the service builds it: one weather entry, taken from the
      classifier's range. */
  predicate FromService(r: WeatherRecord) {
    |r.weather| == 1 && r.weather[0] in Conditions
  }

  /** The service's answer once the provider has answered: a record exactly
      when the provider produced readings, never a partial one. */
  function FetchRealTimeWeather(cityName: string, response: Option<Readings>): (r: Option<WeatherRecord>)
    ensures r.Some? <==> response.Some?
    ensures r.Some? ==> FromService(r.value) && r.value.name == cityName
    ensures r.Some? ==> r.value.weather == [Classify(response.value.weatherCode)]
    ensures r.Some? ==> r.value == BuildRecord(cityName, response.value)
  {
    match response
    case Some(readings) => Some(BuildRecord(cityName, readings))
    case None => None
  }

  /** The worked example: readings (24.4, 64.6, 3.24, code 0) for Cape Town. */
  lemma CapeTownExample()
    ensures BuildRecord("Cape Town", Readings(24.4, 64.6, 3.24, 0))
      == WeatherRecord("Cape Town", [ClearSky], 24, 65, 3.2)
  {
  }

  /** An unknown city is fetched at the Cape Town coordinate but reported
      under its own name. */
  lemma UnknownCityKeepsItsName(readings: Readings)
    ensures Resolve("Atlantis") == Coordinate(-33.9249, 18.4241)
    ensures BuildRecord("Atlantis", readings).name == "Atlantis"
  {
  }
}
