/** The page controller: `handleWeatherFetch` as transitions on the page
    state (the displayed record and the loading flag), each emitting the
    toast notifications it raises, plus the page's render conditions. */
module Controller {
  import opened Wrappers
  import opened JsText
  import opened Cities
  import opened WeatherService

  /** A toast: title, description, and whether it uses the destructive variant. */
  datatype Notice = Notice(title: string, description: string, destructive: bool)

  datatype PageState = PageState(weatherData: Option<WeatherRecord>, loading: bool)

  const Initial := PageState(None, false)

  const BlankNotice := Notice(
    "Enter a city name",
    "Please enter a South African city to get weather information.",
    true)

  const ErrorNotice := Notice(
    "Error fetching weather",
    "Unable to fetch weather data. Please try again later.",
    true)

  const SuccessPrefix := "Showing real-time weather for "

  /** The success toast names the city exactly as submitted. */
  function SuccessNotice(city: string): (n: Notice)
    ensures !n.destructive && n.title == "Weather fetched successfully!"
    ensures |n.description| >= |city| && n.description[|n.description| - |city|..] == city
  {
    Notice("Weather fetched successfully!", SuccessPrefix + city, false)
  }

  /** What `handleWeatherFetch` does before its `await`: a blank name is
      rejected with a toast and nothing else; otherwise the loading flag is
      raised and a request goes out for the untrimmed name. */
  datatype Start = Rejected(notice: Notice) | Issued(pending: PageState, city: string, request: Coordinate)

  function Begin(s: PageState, city: string): (r: Start)
    ensures r.Rejected? <==> AllWhiteSpace(city)
    ensures r.Rejected? ==> r.notice == BlankNotice
    ensures r.Issued? ==> r.pending == PageState(s.weatherData, true)
    ensures r.Issued? ==> r.city == city && r.request == Resolve(city)
  {
    if IsBlank(city) then Rejected(BlankNotice)
    else Issued(PageState(s.weatherData, true), city, Resolve(city))
  }

  /** What happens after the `await`: on success the record replaces the
      displayed one wholesale, on failure the displayed one stays; the
      `finally` clause clears the loading flag on both paths. */
  function Finish(s: PageState, city: string, response: Option<Readings>): (r: (PageState, Notice))
    ensures !r.0.loading
    ensures response.Some? ==> r.0.weatherData == Some(BuildRecord(city, response.value))
    ensures response.Some? ==> r.1 == SuccessNotice(city)
    ensures response.None? ==> r.0.weatherData == s.weatherData && r.1 == ErrorNotice
  {
    match FetchRealTimeWeather(city, response)
    case Some(data) => (PageState(Some(data), false), SuccessNotice(city))
    case None => (PageState(s.weatherData, false), ErrorNotice)
  }

  /** One whole submission: the toasts it raised and the coordinate it
      asked the provider about, if any. */
  datatype Outcome = Outcome(state: PageState, notices: seq<Notice>, request: Option<Coordinate>)

  /** `handleWeatherFetch(city)` run to completion, `response` being the
      provider's answer should a request be issued. */
  function Submit(s: PageState, city: string, response: Option<Readings>): (r: Outcome)
    ensures |r.notices| == 1
    ensures r.request.None? <==> AllWhiteSpace(city)
    ensures r.request.Some? ==> r.request.value == Resolve(city) && !r.state.loading
  {
    match Begin(s, city)
    case Rejected(notice) => Outcome(s, [notice], None)
    case Issued(pending, name, request) =>
      var (after, notice) := Finish(pending, name, response);
      Outcome(after, [notice], Some(request))
  }

  /** A blank submission raises only the "Enter a city name" toast and
      leaves the state alone, whatever the provider would have answered. */
  lemma BlankSubmission(s: PageState, city: string, response: Option<Readings>)
    requires AllWhiteSpace(city)
    ensures Submit(s, city, response) == Outcome(s, [BlankNotice], None)
  {
  }

  /** A successful submission replaces the displayed record wholesale: the
      result does not depend on what was displayed before. */
  lemma SuccessReplacesWholesale(s: PageState, t: PageState, city: string, readings: Readings)
    requires !AllWhiteSpace(city)
    ensures Submit(s, city, Some(readings)).state == Submit(t, city, Some(readings)).state
    ensures Submit(s, city, Some(readings)).state == PageState(Some(BuildRecord(city, readings)), false)
    ensures Submit(s, city, Some(readings)).notices == [SuccessNotice(city)]
  {
  }

  /** A failed submission keeps the displayed record and clears loading. */
  lemma FailureKeepsRecord(s: PageState, city: string)
    requires !AllWhiteSpace(city)
    ensures Submit(s, city, None).state == PageState(s.weatherData, false)
    ensures Submit(s, city, None).notices == [ErrorNotice]
  {
  }

  /** The name is not trimmed before the fetch: " Durban" is not blank, is
      requested at the Cape Town coordinate, and is reported as " Durban". */
  lemma UntrimmedName(s: PageState, readings: Readings)
    ensures Submit(s, " Durban", Some(readings)).request == Some(Resolve(DefaultCity))
    ensures Submit(s, " Durban", Some(readings)).state.weatherData.value.name == " Durban"
  {
    assert !IsWhiteSpace(" Durban"[1]);
    assert !AllWhiteSpace(" Durban");
    PaddedNameFallsBack("Durban", " ");
    assert " " + "Durban" == " Durban";
  }

  /** `weatherData && …`: a record is an object and therefore truthy, and
      the initial `null` is falsy, so the card is rendered exactly when a
      record is held. */
  predicate ShowsCard(s: PageState) {
    s.weatherData.Some?
  }

  /** `!weatherData && !loading && …`: the placeholder is never shown
      together with the card, and the page shows neither exactly while the
      first request is in flight. */
  predicate ShowsPlaceholder(s: PageState)
    ensures ShowsPlaceholder(s) ==> !ShowsCard(s)
    ensures !ShowsCard(s) && !ShowsPlaceholder(s) <==> s.weatherData.None? && s.loading
  {
    s.weatherData.None? && !s.loading
  }

  /** On an idle page exactly one of card and placeholder is shown; while
      loading the placeholder never is. */
  lemma RenderExclusive(s: PageState)
    ensures !s.loading ==> (ShowsCard(s) <==> !ShowsPlaceholder(s))
    ensures s.loading ==> !ShowsPlaceholder(s)
  {
  }

  /** Every record the page holds was built by the service. */
  predicate Consistent(s: PageState) {
    s.weatherData.Some? ==> FromService(s.weatherData.value)
  }

  /** Submissions keep the page consistent and, started from an idle page,
      leave it idle. */
  lemma SubmitPreserves(s: PageState, city: string, response: Option<Readings>)
    requires Consistent(s)
    ensures Consistent(Submit(s, city, response).state)
    ensures !s.loading ==> !Submit(s, city, response).state.loading
  {
  }
}
