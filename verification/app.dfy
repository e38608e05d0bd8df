/** The page as a whole: the city input form wired to the page controller,
    as an event machine. A non-blank submission raises the loading flag and
    leaves one request in flight; the request settles later with the
    provider's answer. Because the submit and preset buttons are disabled
    while loading, at most one request is ever in flight. */
module App {
  import opened Wrappers
  import opened JsText
  import opened WeatherService
  import opened Controller
  import opened CityInput
  import Cities
  import WeatherCard

  /** `calls` counts invocations of `handleWeatherFetch`; `toasts` is the
      notification channel, oldest first. */
  datatype App = App(
    form: Form,
    page: PageState,
    inFlight: Option<string>,
    toasts: seq<Notice>,
    calls: nat)

  const Start := App(EmptyForm, Initial, None, [], 0)

  /** An event from the form, or the in-flight request settling with the
      provider's answer (`None` for any thrown error). */
  datatype Event = Input(e: FormEvent) | Settle(response: Option<Readings>)

  /** One event. A form event that calls `onSubmit` starts a submission;
      a settlement with nothing in flight changes nothing. */
  function Dispatch(a: App, ev: Event): (r: App)
    ensures ev.Input? ==> r.form == Handle(a.form, a.page.loading, ev.e).form
    ensures ev.Input? && a.page.loading ==> r.page == a.page && r.inFlight == a.inFlight
    ensures r.calls >= a.calls && |r.toasts| >= |a.toasts| && r.toasts[..|a.toasts|] == a.toasts
  {
    match ev
    case Input(e) =>
      var fr := Handle(a.form, a.page.loading, e);
      var a' := a.(form := fr.form);
      (match fr.submitted
       case None => a'
       case Some(city) =>
         match Begin(a.page, city)
         case Rejected(notice) => a'.(toasts := a.toasts + [notice], calls := a.calls + 1)
         case Issued(pending, name, _) => a'.(page := pending, inFlight := Some(name), calls := a.calls + 1))
    case Settle(response) =>
      match a.inFlight
      case None => a
      case Some(city) =>
        var (after, notice) := Finish(a.page, city, response);
        a.(page := after, inFlight := None, toasts := a.toasts + [notice])
  }

  /** The events in order. */
  function Run(a: App, evs: seq<Event>): App
    decreases |evs|
  {
    if |evs| == 0 then a else Run(Dispatch(a, evs[0]), evs[1..])
  }

  /** Loading exactly while a request is in flight, only non-blank names
      are ever requested, every record held came from the service, and
      every call of `handleWeatherFetch` has raised exactly one toast,
      except the one still in flight. */
  predicate Inv(a: App) {
    && (a.page.loading <==> a.inFlight.Some?)
    && (a.inFlight.Some? ==> !AllWhiteSpace(a.inFlight.value))
    && Consistent(a.page)
    && |a.toasts| + (if a.inFlight.Some? then 1 else 0) == a.calls
  }

  lemma StartInv()
    ensures Inv(Start)
  {
  }

  lemma DispatchPreservesInv(a: App, ev: Event)
    requires Inv(a)
    ensures Inv(Dispatch(a, ev))
  {
  }

  lemma {:induction false} RunPreservesInv(a: App, evs: seq<Event>)
    requires Inv(a)
    ensures Inv(Run(a, evs))
    decreases |evs|
  {
    if |evs| > 0 {
      DispatchPreservesInv(a, evs[0]);
      RunPreservesInv(Dispatch(a, evs[0]), evs[1..]);
    }
  }

  /** Every state reachable from the start satisfies the invariant; in
      particular the card and the placeholder are never shown together,
      and a shown card never falls back to a default emoji or gradient. */
  lemma Reachable(evs: seq<Event>)
    ensures Inv(Run(Start, evs))
    ensures !(ShowsCard(Run(Start, evs).page) && ShowsPlaceholder(Run(Start, evs).page))
    ensures ShowsCard(Run(Start, evs).page) ==>
      var view := WeatherCard.View(Run(Start, evs).page.weatherData.value);
      view.emoji != WeatherCard.DefaultEmoji && view.gradient != WeatherCard.DefaultGradient
  {
    StartInv();
    RunPreservesInv(Start, evs);
    var page := Run(Start, evs).page;
    if ShowsCard(page) {
      WeatherCard.ServiceRecordNeverDefaults(page.weatherData.value);
    }
  }

  /** Submitting the form and then letting the request settle is the
      atomic controller step on the form's text, verbatim. */
  lemma SubmitThenSettle(a: App, response: Option<Readings>)
    requires Inv(a) && !a.page.loading
    ensures var b := Dispatch(Dispatch(a, Input(SubmitForm)), Settle(response));
      var o := Submit(a.page, a.form.text, response);
      b.page == o.state && b.toasts == a.toasts + o.notices && b.inFlight.None? && b.calls == a.calls + 1
  {
  }

  /** Clicking an offered preset on an idle page and letting the request
      settle submits exactly that name, which the resolver finds in its
      table; the text field then shows the name. */
  lemma ClickThenSettle(a: App, city: string, response: Option<Readings>)
    requires Inv(a) && !a.page.loading && city in Presets
    ensures var b := Dispatch(Dispatch(a, Input(ClickPreset(city))), Settle(response));
      var o := Submit(a.page, city, response);
      b.form.text == city && b.page == o.state && b.toasts == a.toasts + o.notices
      && o.request == Some(Cities.CityCoordinates[city])
  {
    ClickNeverFallsBack(a.form, false, city);
  }

  /** While loading, the form's buttons do nothing: only typing has an
      effect. */
  lemma DisabledWhileLoading(a: App, e: FormEvent)
    requires a.page.loading && !e.Change?
    ensures Dispatch(a, Input(e)) == a
  {
  }
}
