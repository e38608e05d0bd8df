/** The city input form: a text field, a submit button, and one-click
    buttons for preset cities. It forwards names to the page controller
    unmodified; the buttons are disabled while a fetch is loading. */
module CityInput {
  import opened Wrappers
  import opened JsText
  import opened Cities

  const PopularCities: seq<string> := [
    "Cape Town", "Johannesburg", "Durban", "Pretoria",
    "Port Elizabeth", "Bloemfontein", "East London", "Pietermaritzburg"
  ]

  /** `popularCities.slice(0, 4)`: only these get a button. */
  const Presets: seq<string> := PopularCities[..4]

  datatype Form = Form(text: string)

  const EmptyForm := Form("")

  /** Typing into the field, submitting the form, or clicking a preset. */
  datatype FormEvent = Change(value: string) | SubmitForm | ClickPreset(city: string)

  /** The form after the event, and the argument `onSubmit` was called
      with, if it was called. */
  datatype FormResult = FormResult(form: Form, submitted: Option<string>)

  /** Whether the control the event comes from can fire: the text field
      always can; the submit button and the preset buttons only when not
      loading, and only offered presets have a button at all. */
  predicate Enabled(loading: bool, e: FormEvent)
    ensures loading ==> (Enabled(loading, e) <==> e.Change?)
    ensures Enabled(loading, e) && e.ClickPreset? ==> e.city in Presets
  {
    match e
    case Change(_) => true
    case SubmitForm => !loading
    case ClickPreset(city) => !loading && city in Presets
  }

  /** `onChange`, `handleSubmit` and `handleCityClick`. An event from a
      control that cannot fire changes nothing. */
  function Handle(f: Form, loading: bool, e: FormEvent): (r: FormResult)
    ensures !Enabled(loading, e) ==> r == FormResult(f, None)
    ensures loading ==> r.submitted.None?
    ensures e.Change? ==> r == FormResult(Form(e.value), None)
    ensures e.SubmitForm? && !loading ==> r == FormResult(f, Some(f.text))
    ensures e.ClickPreset? && Enabled(loading, e) ==> r == FormResult(Form(e.city), Some(e.city))
  {
    if !Enabled(loading, e) then FormResult(f, None)
    else match e
      case Change(value) => FormResult(Form(value), None)
      case SubmitForm => FormResult(f, Some(f.text))
      case ClickPreset(city) => FormResult(Form(city), Some(city))
  }

  /** The offered presets are the first four popular cities. */
  lemma PresetsOffered()
    ensures Presets == ["Cape Town", "Johannesburg", "Durban", "Pretoria"]
    ensures forall c :: c in Presets ==> c in PopularCities
  {
  }

  /** The popular cities are exactly the resolver's table keys. */
  lemma PopularAreKnown()
    ensures forall c :: c in PopularCities ==> c in CityCoordinates
    ensures forall c :: c in CityCoordinates ==> c in PopularCities
  {
  }

  /** A preset click submits a non-blank table key, so it never takes the
      resolver's fallback. */
  lemma ClickNeverFallsBack(f: Form, loading: bool, city: string)
    requires Handle(f, loading, ClickPreset(city)).submitted.Some?
    ensures city in CityCoordinates && Resolve(city) == CityCoordinates[city]
    ensures !AllWhiteSpace(city)
  {
    PopularAreKnown();
    KeysUnpadded();
  }
}
