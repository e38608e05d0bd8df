/** Translation of the forecast provider's numeric `weather_code` into the
    (main, description, icon) triple the weather card shows.

    The provider reports WMO weather interpretation codes (code table 4677 of
    WMO-No. 306), but the application only approximates that table: fog
    (45, 48) becomes "cloudy" and snow showers (85, 86) become "Thunderstorm".
    The model follows the application's thresholds 0/3/48/67/77/82/99. */
module WeatherCodes {
  import opened Wrappers

  datatype Condition = Condition(main: string, description: string, icon: string)

  const ClearSky := Condition("Clear", "clear sky", "01d")
  const PartlyCloudy := Condition("Clouds", "partly cloudy", "02d")
  const Cloudy := Condition("Clouds", "cloudy", "03d")
  const Rainy := Condition("Rain", "rainy", "09d")
  const Snowy := Condition("Snow", "snowy", "13d")
  const ShowerRain := Condition("Rain", "shower rain", "09d")
  const Thunder := Condition("Thunderstorm", "thunderstorm", "11d")

  /** Every triple the classifier can produce. */
  const Conditions: set<Condition> :=
    {ClearSky, PartlyCloudy, Cloudy, Rainy, Snowy, ShowerRain, Thunder}

  /** The five coarse categories. */
  const Mains: set<string> := {"Clear", "Clouds", "Rain", "Snow", "Thunderstorm"}

  /** `getWeatherFromCode`: guarded comparisons, tested top to bottom. Since
      `code <= 3` is the first lower-bound-free test after `code === 0`, every
      negative code lands in "partly cloudy", not in the final fallback. */
  function Classify(code: int): (c: Condition)
    ensures c in Conditions && c.main in Mains
    ensures c == ClearSky <==> code == 0 || code > 99
    ensures code < 0 ==> c == PartlyCloudy
  {
    if code == 0 then ClearSky
    else if code <= 3 then PartlyCloudy
    else if code <= 48 then Cloudy
    else if code <= 67 then Rainy
    else if code <= 77 then Snowy
    else if code <= 82 then ShowerRain
    else if code <= 99 then Thunder
    else ClearSky
  }

  /** One row of the range table: codes up to `upper` (and above the
      previous row's bound) map to `condition`. */
  datatype Band = Band(upper: int, condition: Condition)

  /** The rows after the `code === 0` test, in the order they are tested. */
  const Bands: seq<Band> := [
    Band(3, PartlyCloudy), Band(48, Cloudy), Band(67, Rainy),
    Band(77, Snowy), Band(82, ShowerRain), Band(99, Thunder)
  ]

  /** First row, in table order, whose upper bound admits `code`; `None`
      when no row does. */
  function FirstMatch(bands: seq<Band>, code: int): (r: Option<Condition>)
    ensures r.None? <==> forall j :: 0 <= j < |bands| ==> bands[j].upper < code
    ensures r.Some? ==> (exists i :: 0 <= i < |bands| && code <= bands[i].upper
                           && r.value == bands[i].condition
                           && forall j :: 0 <= j < i ==> bands[j].upper < code)
  {
    if |bands| == 0 then None
    else if code <= bands[0].upper then Some(bands[0].condition)
    else
      var r := FirstMatch(bands[1..], code);
      assert forall j :: 1 <= j < |bands| ==> bands[j] == bands[1..][j - 1];
      if r.Some? then
        var i :| 0 <= i < |bands[1..]| && code <= bands[1..][i].upper
          && r.value == bands[1..][i].condition
          && forall j :: 0 <= j < i ==> bands[1..][j].upper < code;
        assert bands[i + 1] == bands[1..][i];
        r
      else r
  }

  /** The table-driven reading of the classifier: `code === 0` first, then
      the first admitting row, then the clear-sky fallback. */
  function TableClassify(code: int): Condition {
    if code == 0 then ClearSky
    else match FirstMatch(Bands, code)
      case Some(c) => c
      case None => ClearSky
  }

  /** The if-chain returns row `i` for a non-zero code that row `i` admits
      and every earlier row rejects. */
  lemma ClassifyRow(code: int, i: nat)
    requires code != 0
    requires i < |Bands| && code <= Bands[i].upper
    requires forall j :: 0 <= j < i ==> Bands[j].upper < code
    ensures Classify(code) == Bands[i].condition
  {
    assert i > 0 ==> Bands[i - 1].upper < code;
    if i == 0 {
    } else if i == 1 {
    } else if i == 2 {
    } else if i == 3 {
    } else if i == 4 {
    } else {
      assert i == 5;
    }
  }

  /** The guarded comparisons and the ordered threshold table agree on every code. */
  lemma ClassifyIsFirstMatch(code: int)
    ensures Classify(code) == TableClassify(code)
  {
    if code != 0 {
      var r := FirstMatch(Bands, code);
      if r.Some? {
        var i :| 0 <= i < |Bands| && code <= Bands[i].upper
          && r.value == Bands[i].condition
          && forall j :: 0 <= j < i ==> Bands[j].upper < code;
        ClassifyRow(code, i);
      } else {
        assert Bands[5].upper < code;
      }
    }
  }

  /** The rows are in strictly ascending order of their upper bounds, so the
      first admitting row is the one with the least admitting bound. */
  lemma BandsAscending()
    ensures forall i, j :: 0 <= i < j < |Bands| ==> Bands[i].upper < Bands[j].upper
  {
  }

  /** For every non-zero code at most 99, the result is the row whose upper
      threshold is the least threshold at or above the code. */
  lemma ClassifyLeastThreshold(code: int, i: nat)
    requires code != 0
    requires i < |Bands| && code <= Bands[i].upper
    requires forall j :: 0 <= j < |Bands| && code <= Bands[j].upper ==> Bands[i].upper <= Bands[j].upper
    ensures Classify(code) == Bands[i].condition
  {
    BandsAscending();
    ClassifyRow(code, i);
  }

  /** A scan over the threshold table, as the if-chain reads. */
  method ClassifyByScan(code: int) returns (c: Condition)
    ensures c == Classify(code)
  {
    if code == 0 {
      return ClearSky;
    }
    var i := 0;
    while i < |Bands|
      invariant 0 <= i <= |Bands|
      invariant forall j :: 0 <= j < i ==> Bands[j].upper < code
    {
      if code <= Bands[i].upper {
        ClassifyRow(code, i);
        return Bands[i].condition;
      }
      i := i + 1;
    }
    assert Bands[5].upper < code;
    return ClearSky;
  }

  /** The whole range table, as one equivalence per row. */
  lemma ClassifyPreimages(code: int)
    ensures Classify(code) == ClearSky <==> code == 0 || code > 99
    ensures Classify(code) == PartlyCloudy <==> code != 0 && code <= 3
    ensures Classify(code) == Cloudy <==> 4 <= code <= 48
    ensures Classify(code) == Rainy <==> 49 <= code <= 67
    ensures Classify(code) == Snowy <==> 68 <= code <= 77
    ensures Classify(code) == ShowerRain <==> 78 <= code <= 82
    ensures Classify(code) == Thunder <==> 83 <= code <= 99
  {
  }

  /** Equal categories carry equal icons, except "Clouds", which carries
      "02d" or "03d"; and the icon always determines the category. */
  lemma IconConsistency(a: int, b: int)
    ensures Classify(a).main == Classify(b).main && Classify(a).main != "Clouds"
      ==> Classify(a).icon == Classify(b).icon
    ensures Classify(a).main == "Clouds" ==> Classify(a).icon in {"02d", "03d"}
    ensures Classify(a).icon == Classify(b).icon ==> Classify(a).main == Classify(b).main
  {
  }

  /** The boundary codes, and two places where the table departs from the
      WMO meanings (fog 45, snow shower 85). */
  lemma BoundaryCodes()
    ensures Classify(0) == ClearSky && Classify(1) == PartlyCloudy
    ensures Classify(3) == PartlyCloudy && Classify(4) == Cloudy
    ensures Classify(48) == Cloudy && Classify(49) == Rainy
    ensures Classify(67) == Rainy && Classify(68) == Snowy
    ensures Classify(77) == Snowy && Classify(78) == ShowerRain
    ensures Classify(82) == ShowerRain && Classify(83) == Thunder
    ensures Classify(99) == Thunder && Classify(100) == ClearSky
    ensures Classify(-1) == PartlyCloudy
    ensures Classify(45).main == "Clouds" && Classify(85).main == "Thunderstorm"
  {
  }
}
