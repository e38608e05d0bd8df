# South Africa weather explorer: a functional model

This project models the behavioural core of a single-page weather app for South African cities:

- The **weather-code classifier** (`getWeatherFromCode`). It maps the forecast provider's integer `weather_code` to a `(main, description, icon)` triple through an ordered first-match range table.
- The **city resolver**. It looks names up exactly and case-sensitively in an 8-entry coordinate table, with Cape Town as the fallback.
- The **response record** built from the provider's readings.
- The **page controller** (`handleWeatherFetch`). It works on the page state (displayed record, loading flag) and raises toast notifications.
- The page's **render conditions**.
- The **weather card's lookups**: emoji, background gradient, and the defaulting of the category and description.
- The **city input form**: text field, submit button, preset buttons, and the disabled-while-loading guard.

The network call is not modelled. What the provider answers is an input: `Some(readings)` for a response, `None` for any thrown error. Every operation is a pure function over immutable datatypes. The page as a whole is an event machine (`App.Dispatch`) in which a non-blank submission leaves one request in flight until a `Settle` event delivers the provider's answer.

Modules:

- `Wrappers`: `Option`.
- `JsText`: JavaScript `trim` and its white-space set.
- `WeatherCodes`: the classifier.
- `Cities`: the resolver.
- `WeatherService`: record construction and rounding.
- `Controller`: `handleWeatherFetch` and render conditions.
- `WeatherCard`: the card.
- `CityInput`: the form.
- `App`: the wiring.

Because `code <= 3` is tested before any lower bound, every negative weather code yields Clouds / "partly cloudy" / "02d", not the final "clear sky" fallback (`WeatherCodes.Classify`, `WeatherCodes.BoundaryCodes`).

The emoji glyphs are modelled by their intended Unicode code points; see `WeatherCard.Emoji` under "## Left out".

## Model

| member | source | states |
|---|---|---|
| JsText.TrimStart | src/pages/Index.tsx:15 | drops exactly the leading white space: the result is a suffix of the input, does not start with white space, and everything dropped was white space |
| JsText.TrimEnd | src/pages/Index.tsx:15 | drops exactly the trailing white space: the result is a prefix, does not end with white space, and everything dropped was white space |
| JsText.Trim | src/pages/Index.tsx:15 | `city.trim()` neither starts nor ends with white space, and is empty exactly when the input is all white space |
| JsText.TrimIsSlice | src/pages/Index.tsx:15 | `city.trim()` is a contiguous slice of the input with only white space before and after it |
| JsText.IsBlank | src/pages/Index.tsx:15 | `!city.trim()` holds exactly for strings made only of white space |
| JsText.PaddedIsNotTrimmed | src/pages/Index.tsx:15 | a string starting or ending with white space is changed by trimming |
| WeatherCodes.Classify | src/services/weatherService.ts:57-66 | every result is one of the seven triples with main among Clear/Clouds/Rain/Snow/Thunderstorm; clear sky exactly for code 0 or codes above 99; every negative code gives partly cloudy |
| WeatherCodes.FirstMatch | src/services/weatherService.ts:59-64 | first-match lookup in an ordered threshold table: no match iff every upper bound is below the code; otherwise the returned row admits the code and every earlier row rejects it |
| WeatherCodes.ClassifyRow | src/services/weatherService.ts:59-64 | for a non-zero code, the guarded comparisons return row i whenever row i admits it and all earlier rows reject it |
| WeatherCodes.ClassifyIsFirstMatch | src/services/weatherService.ts:57-66 | the if-chain equals the table reading (0 first, then the first admitting band, else clear sky) on every integer |
| WeatherCodes.BandsAscending | src/services/weatherService.ts:59-64 | the thresholds 3/48/67/77/82/99 are strictly ascending |
| WeatherCodes.ClassifyLeastThreshold | src/services/weatherService.ts:59-64 | for any non-zero code, the result is the band whose upper threshold is the least threshold at or above the code |
| WeatherCodes.ClassifyByScan | src/services/weatherService.ts:57-66 | a loop over the threshold table computes the same triple as the classifier for every code |
| WeatherCodes.ClassifyPreimages | src/services/weatherService.ts:57-66 | each triple is produced for exactly its code range: {0} and >99, nonzero ≤3, 4–48, 49–67, 68–77, 78–82, 83–99 |
| WeatherCodes.IconConsistency | src/services/weatherService.ts:58-65 | equal main gives equal icon except Clouds (02d or 03d); equal icon always gives equal main |
| WeatherCodes.BoundaryCodes | src/services/weatherService.ts:57-66 | the results at codes 0,1,3,4,48,49,67,68,77,78,82,83,99,100,-1; fog 45 is Clouds and snow shower 85 is Thunderstorm |
| Cities.Resolve | src/services/weatherService.ts:34 | a table key resolves to its own coordinate, any other name to Cape Town's (-33.9249, 18.4241); the result is always a table coordinate |
| Cities.TableInjective | src/services/weatherService.ts:21-30 | no two cities in the table share a coordinate |
| Cities.FallbackIff | src/services/weatherService.ts:21-34 | the Cape Town coordinate comes back exactly for "Cape Town" and for names not in the table |
| Cities.KeysUnpadded | src/services/weatherService.ts:21-30 | no table key starts or ends with white space |
| Cities.PaddedNameFallsBack | src/services/weatherService.ts:34 | a table key padded with white space at either end resolves to the fallback |
| Cities.CaseSensitive | src/services/weatherService.ts:34 | "durban" and "JOHANNESBURG" fall back, "Durban" does not |
| WeatherService.Round | src/services/weatherService.ts:74-75 | the result is an integer within the half-open window (x − 1/2, x + 1/2] (halves round up) |
| WeatherService.RoundUnique | src/services/weatherService.ts:74-75 | any integer in that window equals the rounded value, so the window characterises rounding |
| WeatherService.RoundInteger | src/services/weatherService.ts:74 | rounding an integer-valued number returns it unchanged |
| WeatherService.RoundTenth | src/services/weatherService.ts:78 | wind speed rounds to a whole number of tenths within 1/20 of the reading |
| WeatherService.TenthUnique | src/services/weatherService.ts:78 | any whole number of tenths in the window (x − 1/20, x + 1/20] equals the rounded wind speed, so the window characterises it |
| WeatherService.BuildRecord | src/services/weatherService.ts:68-80 | the record echoes the caller's name verbatim, has exactly one weather entry (the classification of the code), and rounded temperature, humidity and wind |
| WeatherService.FetchRealTimeWeather | src/services/weatherService.ts:32-81 | a record exactly when the provider answered (never partial): the record built from those readings, named as requested, with the single classified entry and the rounded measurements |
| WeatherService.CapeTownExample | src/services/weatherService.ts:70-80 | readings (24.4, 64.6, 3.24, 0) for "Cape Town" give Clear, temperature 24, humidity 65, wind speed 3.2 (in whatever unit the provider reports) |
| WeatherService.UnknownCityKeepsItsName | src/services/weatherService.ts:32-72 | "Atlantis" is fetched at the Cape Town coordinate but its record is named "Atlantis" |
| Controller.SuccessNotice | src/pages/Index.tsx:32-35 | the success toast is non-destructive, titled "Weather fetched successfully!", and its description ends with the city as submitted |
| Controller.Begin | src/pages/Index.tsx:15-28 | a blank name is rejected with the "Enter a city name" toast; otherwise loading is raised (record kept) and a request goes out for the untrimmed name's resolved coordinate |
| Controller.Finish | src/pages/Index.tsx:28-45 | after the fetch loading is false on both paths; success replaces the record and names the city, failure keeps it and raises the generic error |
| Controller.Submit | src/pages/Index.tsx:14-46 | each submission raises exactly one toast; a request happens iff the name is not blank, for the resolved coordinate, and leaves loading false |
| Controller.BlankSubmission | src/pages/Index.tsx:15-22 | a blank name leaves the state unchanged, issues no request and raises only the blank-name toast, whatever the provider would answer |
| Controller.SuccessReplacesWholesale | src/pages/Index.tsx:31-35 | a successful submission's resulting state does not depend on the previous state: it holds the new record with loading false |
| Controller.FailureKeepsRecord | src/pages/Index.tsx:36-45 | a failed submission keeps the displayed record exactly, clears loading and raises the generic error toast |
| Controller.UntrimmedName | src/pages/Index.tsx:15-28 | " Durban" is not blank, is requested at the Cape Town coordinate and is reported as " Durban" |
| Controller.ShowsPlaceholder | src/pages/Index.tsx:76-90 | the placeholder (`!weatherData && !loading`) is never shown together with the card (`weatherData`), and neither is shown exactly while loading with no record held |
| Controller.RenderExclusive | src/pages/Index.tsx:76-90 | on an idle page exactly one of card and placeholder is shown; while loading the placeholder never is |
| Controller.SubmitPreserves | src/pages/Index.tsx:24-45 | submissions keep every held record service-built, and an idle page stays idle afterwards |
| WeatherCard.Emoji | src/components/WeatherCard.tsx:27-47 | the table glyph for its 16 keys, the default glyph for any other name; never empty |
| WeatherCard.Gradient | src/components/WeatherCard.tsx:49-61 | the table gradient for its 8 keys, "from-blue-400 to-blue-600" otherwise; never empty |
| WeatherCard.EmojiDefaultIff | src/components/WeatherCard.tsx:28-46 | the default glyph appears exactly for names outside the emoji table |
| WeatherCard.GradientDefaultIff | src/components/WeatherCard.tsx:50-60 | the default gradient appears exactly for "Drizzle" and for names outside the gradient table |
| WeatherCard.ClearLooksSunny | src/components/WeatherCard.tsx:28-60 | Clear and Sunny share both emoji and gradient |
| WeatherCard.WeatherMain | src/components/WeatherCard.tsx:63 | the first entry's main, or "Clear" when the list is empty or main is the empty string; never empty |
| WeatherCard.Description | src/components/WeatherCard.tsx:93 | the first entry's description, or "Clear sky" when there is none or it is empty |
| WeatherCard.View | src/components/WeatherCard.tsx:63-121 | the card shows the record's name; the badge equals the category choosing emoji and gradient; headline and "Feels like" both equal the record's temperature; humidity and wind are the record's own values |
| WeatherCard.MainsAreKeys | src/components/WeatherCard.tsx:29-57 | each of Clear/Clouds/Rain/Snow/Thunderstorm is a key of both tables |
| WeatherCard.ServiceRecordNeverDefaults | src/components/WeatherCard.tsx:63-93 | for a service-built record the card shows the classifier's own main and description, a table emoji and a non-default gradient |
| CityInput.Enabled | src/components/CityInput.tsx:46-72 | `disabled={loading}`: while loading only the text field can fire; a preset can fire only if it is one of the offered presets |
| CityInput.Handle | src/components/CityInput.tsx:20-28 | typing sets the text; submit forwards the text unmodified; a preset click sets the text to that city and submits exactly it; nothing is submitted while loading |
| CityInput.PresetsOffered | src/components/CityInput.tsx:67 | the offered presets are the first four popular cities: Cape Town, Johannesburg, Durban, Pretoria |
| CityInput.PopularAreKnown | src/components/CityInput.tsx:12-15 | the popular cities are exactly the resolver's table keys |
| CityInput.ClickNeverFallsBack | src/components/CityInput.tsx:25-28 | a name submitted by a preset click is a non-blank table key, resolved to its own coordinate |
| App.Dispatch | src/pages/Index.tsx:14-46 | events only append toasts and never decrease the call count; while loading, form events leave the page and the in-flight request alone |
| App.StartInv | src/pages/Index.tsx:10-11 | the initial page (no record, not loading, empty field) satisfies the invariant |
| App.DispatchPreservesInv | src/pages/Index.tsx:14-46 | every event keeps these facts: loading iff a request is in flight; the in-flight name is non-blank; records are service-built; one toast per finished call |
| App.RunPreservesInv | src/pages/Index.tsx:14-46 | any sequence of events keeps the invariant |
| App.Reachable | src/pages/Index.tsx:76-90 | in every reachable state card and placeholder are exclusive, and a shown card never uses a default emoji or gradient |
| App.SubmitThenSettle | src/components/CityInput.tsx:20-23 | submitting the form and letting the request settle is the controller's submission on the field's text verbatim, adding its single toast |
| App.ClickThenSettle | src/components/CityInput.tsx:25-28 | clicking a preset and letting it settle submits exactly that name at its own table coordinate and leaves it in the field |
| App.DisabledWhileLoading | src/components/CityInput.tsx:46-72 | while loading, the submit button and the preset buttons have no effect at all |

## Left out

- The network call (`fetchWeatherApi`, its request parameters, the timezone hint and the `!` non-null assertions) is a foreign library doing I/O. The provider's answer is an input, and any thrown error is `None`.
- WeatherService.Round: models `Math.round` on exact reals as `(x + 1/2).Floor`, not on IEEE doubles. Floating-point rounding error is out of scope.
- WeatherService.RoundTenth: the wind speed `Math.round(x * 10) / 10` is idealised the same way. In doubles the result is only the nearest representable value to a whole number of tenths.
- WeatherCodes.Classify: the weather code is an integer. NaN and fractional codes, which a double could carry, are not modelled.
- `src/components/DateTime.tsx` is not part of this model. It is an interval timer plus time-zone formatting from a foreign library.
- Keys inherited from the JavaScript object prototype (such as `cityCoordinates['constructor']`) are not modelled. Both tables are finite maps.
- Overlapping submissions are not modelled. `handleWeatherFetch` has no guard of its own, and the only thing preventing a second submission is the disabled buttons, which the event machine models.
- Implicit form submission with the Enter key is covered by the same disabled-button rule. HTML does not submit a form implicitly when its default button is disabled.
- WeatherCard.Emoji: the glyph values are the decoded code points (U+2600 U+FE0F for Clear and Sunny, U+2601 U+FE0F for Clouds, U+2744 U+FE0F for Snow, U+1F324 U+FE0F for the default, and so on), not the literals as they appear in `src/components/WeatherCard.tsx`. There, the UTF-8 bytes were read as Windows-1252. In the process, the byte 0x8F of every trailing U+FE0F was dropped, along with 0x81 from Clouds and 0x9D from Snow. Squall (U+1F4A8) is the only glyph that came through intact. Both readings give the same answer to which keys share a glyph and whether the default differs from every table value, and those are the only facts the lemmas use.
- Wind speed units are not modelled. The request sets no wind-speed unit, so the value is in the provider's default unit, yet the card labels it "m/s". This model does not establish whether the two agree.
- Rendering, CSS layout, toast presentation and `console.log` calls have no behaviour beyond the strings the model already carries.
