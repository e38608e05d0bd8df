/** The city resolver: a fixed table of South African cities, looked up by
    exact, case-sensitive name, with Cape Town as the fallback. */
module Cities {
  import opened JsText

  /** Degrees, as written in the table (four decimal places). */
  datatype Coordinate = Coordinate(lat: real, lon: real)

  const DefaultCity: string := "Cape Town"

  const CityCoordinates: map<string, Coordinate> := map[
    "Cape Town" := Coordinate(-33.9249, 18.4241),
    "Johannesburg" := Coordinate(-26.2041, 28.0473),
    "Durban" := Coordinate(-29.8587, 31.0218),
    "Pretoria" := Coordinate(-25.7479, 28.2293),
    "Port Elizabeth" := Coordinate(-33.9608, 25.6022),
    "Bloemfontein" := Coordinate(-29.0852, 26.1596),
    "East London" := Coordinate(-33.0153, 27.9116),
    "Pietermaritzburg" := Coordinate(-29.6195, 30.3927)
  ]

  /** `cityCoordinates[cityName] || cityCoordinates['Cape Town']`: a table
      entry is an object and therefore truthy, so the fallback is taken
      exactly when the name is not a key. */
  function Resolve(name: string): (c: Coordinate)
    ensures c in CityCoordinates.Values
    ensures name in CityCoordinates ==> c == CityCoordinates[name]
    ensures name !in CityCoordinates ==> c == Coordinate(-33.9249, 18.4241)
  {
    if name in CityCoordinates then CityCoordinates[name] else CityCoordinates[DefaultCity]
  }

  /** No two cities share a coordinate. */
  lemma TableInjective()
    ensures forall a, b :: (a in CityCoordinates && b in CityCoordinates && a != b
                            ==> CityCoordinates[a] != CityCoordinates[b])
  {
  }

  /** The Cape Town coordinate comes back exactly for "Cape Town" itself and
      for every name that is not in the table. */
  lemma FallbackIff(name: string)
    ensures Resolve(name) == Resolve(DefaultCity) <==> name == DefaultCity || name !in CityCoordinates
  {
  }

  /** `k` neither starts nor ends with white space. */
  predicate Unpadded(k: string) {
    |k| > 0 && !IsWhiteSpace(k[0]) && !IsWhiteSpace(k[|k| - 1])
  }

  /** Every key starts and ends with a letter. */
  lemma KeysUnpadded()
    ensures forall k :: k in CityCoordinates ==> Unpadded(k)
  {
  }

  /** A known name padded with white space on either side is not a key, so
      it resolves to the Cape Town fallback, not to the city it names. */
  lemma PaddedNameFallsBack(name: string, pad: string)
    requires name in CityCoordinates
    requires |pad| > 0 && AllWhiteSpace(pad)
    ensures Resolve(pad + name) == Resolve(DefaultCity)
    ensures Resolve(name + pad) == Resolve(DefaultCity)
  {
    KeysUnpadded();
    var front, back := pad + name, name + pad;
    assert front[0] == pad[0];
    assert back[|back| - 1] == pad[|pad| - 1];
    assert front !in CityCoordinates;
    assert back !in CityCoordinates;
  }

  /** Matching is case-sensitive: other spellings of a key fall back. */
  lemma CaseSensitive()
    ensures Resolve("durban") == Resolve(DefaultCity)
    ensures Resolve("JOHANNESBURG") == Resolve(DefaultCity)
    ensures Resolve("Durban") != Resolve(DefaultCity)
  {
  }
}
