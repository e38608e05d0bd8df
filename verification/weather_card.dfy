/** The weather card's display logic: the two lookup tables keyed by the
    weather category, and the defaulting of the category and description
    when the record carries no usable first entry. */
module WeatherCard {
  import opened WeatherCodes
  import opened WeatherService

  const Sun := "\U{2600}\U{FE0F}"
  const Cloud := "\U{2601}\U{FE0F}"
  const RainCloud := "\U{1F327}\U{FE0F}"
  const SunRainCloud := "\U{1F326}\U{FE0F}"
  const StormCloud := "\U{26C8}\U{FE0F}"
  const Snowflake := "\U{2744}\U{FE0F}"
  const FogGlyph := "\U{1F32B}\U{FE0F}"
  const Gust := "\U{1F4A8}"
  const TornadoGlyph := "\U{1F32A}\U{FE0F}"

  /** `getWeatherEmoji`'s fallback: sun behind a small cloud. */
  const DefaultEmoji := "\U{1F324}\U{FE0F}"

  const EmojiMap: map<string, string> := map[
    "Clear" := Sun, "Clouds" := Cloud, "Rain" := RainCloud,
    "Drizzle" := SunRainCloud, "Thunderstorm" := StormCloud, "Snow" := Snowflake,
    "Mist" := FogGlyph, "Smoke" := FogGlyph, "Haze" := FogGlyph, "Dust" := FogGlyph,
    "Fog" := FogGlyph, "Sand" := FogGlyph, "Ash" := FogGlyph,
    "Squall" := Gust, "Tornado" := TornadoGlyph, "Sunny" := Sun
  ]

  const DefaultGradient := "from-blue-400 to-blue-600"

  const GradientMap: map<string, string> := map[
    "Clear" := "from-yellow-400 to-orange-500",
    "Sunny" := "from-yellow-400 to-orange-500",
    "Clouds" := "from-gray-400 to-gray-600",
    "Rain" := "from-blue-500 to-blue-700",
    "Drizzle" := "from-blue-400 to-blue-600",
    "Thunderstorm" := "from-purple-600 to-purple-800",
    "Snow" := "from-blue-200 to-blue-400",
    "Mist" := "from-gray-300 to-gray-500"
  ]

  /** `emojiMap[main] || default`: no table value is the empty string, so
      the default is taken exactly for names outside the table. */
  function Emoji(main: string): (e: string)
    ensures e != ""
    ensures main in EmojiMap ==> e == EmojiMap[main]
    ensures main !in EmojiMap ==> e == DefaultEmoji
  {
    if main in EmojiMap && EmojiMap[main] != "" then EmojiMap[main] else DefaultEmoji
  }

  /** `gradientMap[main] || default`, likewise. */
  function Gradient(main: string): (g: string)
    ensures g != ""
    ensures main in GradientMap ==> g == GradientMap[main]
    ensures main !in GradientMap ==> g == DefaultGradient
  {
    if main in GradientMap && GradientMap[main] != "" then GradientMap[main] else DefaultGradient
  }

  /** The default glyph is no table value, so seeing it means the name was
      not in the table. */
  lemma EmojiDefaultIff(main: string)
    ensures Emoji(main) == DefaultEmoji <==> main !in EmojiMap
  {
  }

  /** The default gradient is also Drizzle's, so it shows for Drizzle and for
      every name outside the table, and for nothing else. */
  lemma GradientDefaultIff(main: string)
    ensures Gradient(main) == DefaultGradient <==> main == "Drizzle" || main !in GradientMap
  {
  }

  /** Clear and Sunny look the same. */
  lemma ClearLooksSunny()
    ensures Emoji("Clear") == Emoji("Sunny") && Gradient("Clear") == Gradient("Sunny")
  {
  }

  /** `data.weather[0]?.main || 'Clear'`: the first entry's category unless
      the list is empty or the category is the empty string. */
  function WeatherMain(data: WeatherRecord): (m: string)
    ensures m != ""
    ensures |data.weather| > 0 && data.weather[0].main != "" ==> m == data.weather[0].main
    ensures |data.weather| == 0 || data.weather[0].main == "" ==> m == "Clear"
  {
    if |data.weather| > 0 && data.weather[0].main != "" then data.weather[0].main else "Clear"
  }

  /** `data.weather[0]?.description || 'Clear sky'`. */
  function Description(data: WeatherRecord): (d: string)
    ensures d != ""
    ensures |data.weather| > 0 && data.weather[0].description != "" ==> d == data.weather[0].description
    ensures |data.weather| == 0 || data.weather[0].description == "" ==> d == "Clear sky"
  {
    if |data.weather| > 0 && data.weather[0].description != "" then data.weather[0].description
    else "Clear sky"
  }

  /** What the card shows. */
  datatype CardView = CardView(
    title: string,
    emoji: string,
    gradient: string,
    headline: int,
    description: string,
    feelsLike: int,
    humidity: int,
    wind: real,
    badge: string)

  /** The card for a record. The headline and "Feels like" both show
      `Math.round(data.main.temp)`, which is the record's own (already
      rounded) temperature; the badge repeats the category that chose the
      emoji and gradient. */
  function View(data: WeatherRecord): (v: CardView)
    ensures v.title == data.name
    ensures v.badge == WeatherMain(data)
    ensures v.emoji == Emoji(v.badge) && v.gradient == Gradient(v.badge)
    ensures v.headline == v.feelsLike == data.temp
    ensures v.description == Description(data)
    ensures v.humidity == data.humidity && v.wind == data.windSpeed
  {
    var main := WeatherMain(data);
    RoundInteger(data.temp);
    CardView(
      data.name,
      Emoji(main),
      Gradient(main),
      Round(data.temp as real),
      Description(data),
      Round(data.temp as real),
      data.humidity,
      data.windSpeed,
      main)
  }

  /** Every category the classifier can produce is a key of both tables. */
  lemma MainsAreKeys()
    ensures forall m :: m in Mains ==> m in EmojiMap && m in GradientMap
  {
  }

  /** A record built by the service never hits either table's default: the
      card shows the classifier's own category, description, emoji and
      gradient. */
  lemma ServiceRecordNeverDefaults(data: WeatherRecord)
    requires FromService(data)
    ensures View(data).badge == data.weather[0].main
    ensures View(data).description == data.weather[0].description
    ensures View(data).emoji == EmojiMap[data.weather[0].main] != DefaultEmoji
    ensures View(data).gradient == GradientMap[data.weather[0].main] != DefaultGradient
  {
  }
}
