/** The astrological-sign table and the element lookup that feeds the
    reading prompt. Sign and element names are Slovene. */
module Elements {
  import opened Text

  /** The element of the fire signs. */
  const Fire: string := "ogenj"
  /** The element of the earth signs. */
  const Earth: string := "zemlja"
  /** The element of the air signs. */
  const Air: string := "zrak"
  /** The element of the water signs. */
  const Water: string := "voda"

  /** What the lookup yields for a sign that is not in the table. */
  const UnknownElement: string := "neznan element"

  /** The four elements a known sign can have. */
  const KnownElements: set<string> := {Fire, Earth, Air, Water}

  /** The lookup table, keyed by the lowercase sign name. */
  const ElementBySign: map<string, string> := map[
    "oven" := Fire, "lev" := Fire, "strelec" := Fire,
    "bik" := Earth, "devica" := Earth, "kozorog" := Earth,
    "dvojček" := Air, "tehtnica" := Air, "vodnar" := Air,
    "rak" := Water, "škorpijon" := Water, "ribi" := Water
  ]

  /** The element reported for a sign: the table entry of the sign's
      lowercase form, or `UnknownElement` when there is none. Never fails. */
  function ElementOf(sign: string): (e: string)
    ensures e in KnownElements || e == UnknownElement
    ensures e == UnknownElement <==> Lower(sign) !in ElementBySign
  {
    var key := Lower(sign);
    if key in ElementBySign then ElementBySign[key] else UnknownElement
  }

  /** The fire signs; with the next three, an independent description of
      the table by element. */
  const FireSigns: set<string> := {"oven", "lev", "strelec"}
  /** The earth signs. */
  const EarthSigns: set<string> := {"bik", "devica", "kozorog"}
  /** The air signs. */
  const AirSigns: set<string> := {"dvojček", "tehtnica", "vodnar"}
  /** The water signs. */
  const WaterSigns: set<string> := {"rak", "škorpijon", "ribi"}

  /** The signs the table assigns to element `e`. */
  function SignsOf(e: string): set<string> {
    set s | s in ElementBySign && ElementBySign[s] == e
  }

  /** The lookup agrees with the grouping by element, in both directions:
      a sign has an element exactly when its lowercase form is one of that
      element's signs, and is unknown exactly when it is in no group. */
  lemma ElementOfMatchesGroups(sign: string)
    ensures ElementOf(sign) == Fire <==> Lower(sign) in FireSigns
    ensures ElementOf(sign) == Earth <==> Lower(sign) in EarthSigns
    ensures ElementOf(sign) == Air <==> Lower(sign) in AirSigns
    ensures ElementOf(sign) == Water <==> Lower(sign) in WaterSigns
    ensures ElementOf(sign) == UnknownElement <==>
      Lower(sign) !in FireSigns + EarthSigns + AirSigns + WaterSigns
  {
  }

  /** The three signs of a known element, by the grouping. */
  function GroupOf(e: string): set<string> {
    if e == Fire then FireSigns
    else if e == Earth then EarthSigns
    else if e == Air then AirSigns
    else if e == Water then WaterSigns
    else {}
  }

  /** Each of the four elements is carried by exactly three signs: the
      table's signs for it are exactly its group. */
  lemma ThreeSignsPerElement(e: string)
    requires e in KnownElements
    ensures SignsOf(e) == GroupOf(e)
    ensures |SignsOf(e)| == 3
  {
    if e == Fire {
      FireGroup();
    } else if e == Earth {
      EarthGroup();
    } else if e == Air {
      AirGroup();
    } else {
      WaterGroup();
    }
  }

  /** The table's fire signs are exactly the three of `FireSigns`, none with a capital. */
  lemma FireGroup()
    ensures SignsOf(Fire) == FireSigns && |FireSigns| == 3
    ensures forall k :: k in FireSigns ==> NoUpper(k)
  {
  }

  /** The table's earth signs are exactly the three of `EarthSigns`, none with a capital. */
  lemma EarthGroup()
    ensures SignsOf(Earth) == EarthSigns && |EarthSigns| == 3
    ensures forall k :: k in EarthSigns ==> NoUpper(k)
  {
  }

  /** The table's air signs are exactly the three of `AirSigns`, none with a capital. */
  lemma AirGroup()
    ensures SignsOf(Air) == AirSigns && |AirSigns| == 3
    ensures forall k :: k in AirSigns ==> NoUpper(k)
  {
  }

  /** The table's water signs are exactly the three of `WaterSigns`, none with a capital. */
  lemma WaterGroup()
    ensures SignsOf(Water) == WaterSigns && |WaterSigns| == 3
    ensures forall k :: k in WaterSigns ==> NoUpper(k)
  {
  }


  /** The table assigns each of the four elements and nothing else. */
  lemma TableElements()
    ensures ElementBySign.Values == KnownElements
  {
    assert ElementBySign["oven"] == Fire && ElementBySign["bik"] == Earth;
    assert ElementBySign["vodnar"] == Air && ElementBySign["rak"] == Water;
  }

  /** The table keys are already lowercase, so every listed sign is found,
      written exactly as in the table. */
  lemma KnownSignsFound(sign: string)
    requires sign in ElementBySign
    ensures ElementOf(sign) == ElementBySign[sign]
  {
    assert ElementBySign.Keys == FireSigns + EarthSigns + AirSigns + WaterSigns;
    SignsAreLowercase(sign);
    LowerOfLowercase(sign);
  }

  /** No sign of the four groups has a capital letter. */
  lemma SignsAreLowercase(sign: string)
    requires sign in FireSigns + EarthSigns + AirSigns + WaterSigns
    ensures NoUpper(sign)
  {
    if sign in FireSigns {
      FireGroup();
    } else if sign in EarthSigns {
      EarthGroup();
    } else if sign in AirSigns {
      AirGroup();
    } else {
      WaterGroup();
    }
  }

  /** The lookup ignores letter case: two signs with the same lowercase form
      get the same element. */
  lemma ElementIgnoresCase(a: string, b: string)
    requires Lower(a) == Lower(b)
    ensures ElementOf(a) == ElementOf(b)
    ensures ElementOf(Lower(a)) == ElementOf(a)
  {
    LowerIdempotent(a);
  }

  /** Worked examples of a known sign in other letter cases. */
  lemma KnownSignExamples()
    ensures ElementOf("OVEN") == ElementOf("oven") == Fire
    ensures ElementOf("Škorpijon") == Water
  {
    assert ElementOf("OVEN") == Fire by { LowerExample("OVEN", "oven"); }
    assert ElementOf("oven") == Fire by { LowerOfLowercase("oven"); }
    assert ElementOf("Škorpijon") == Water by { LowerExample("Škorpijon", "škorpijon"); }
  }

  /** The sign a request gets by default is not in the table. */
  lemma DefaultSignIsUnknown()
    ensures ElementOf("neznano") == UnknownElement
  {
    LowerOfLowercase("neznano");
  }

  /** Checks a lowercase form character by character. */
  lemma LowerExample(s: string, lower: string)
    requires |s| == |lower|
    requires forall i :: 0 <= i < |s| ==> LowerChar(s[i]) == lower[i]
    ensures Lower(s) == lower
  {
  }
}
