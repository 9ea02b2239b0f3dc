/** The background of the current-weather card, chosen from the condition
    label by the first keyword it contains. */
module CurrentWeatherView {
  import opened Common

  const Clear := "weather-gradient-clear"
  const Cloudy := "weather-gradient-cloudy"
  const Rainy := "weather-gradient-rainy"
  const Stormy := "weather-gradient-stormy"
  const Snowy := "weather-gradient-snowy"
  const Foggy := "weather-gradient-foggy"
  const Plain := "weather-gradient"

  /** `getBackgroundClass`: the lower-cased condition (empty when there is
      none) is tested against the keywords in a fixed order, and the first
      match decides. */
  function BackgroundClass(condition: Option<string>): (c: string)
    ensures c in {Clear, Cloudy, Rainy, Stormy, Snowy, Foggy, Plain}
    ensures condition.None? ==> c == Plain
    ensures var s := if condition.Some? then Lower(condition.value) else "";
            && (c == Clear <==> Contains(s, "clear"))
            && (c == Cloudy <==> !Contains(s, "clear") && Contains(s, "cloud"))
            && (c == Rainy <==> !Contains(s, "clear") && !Contains(s, "cloud")
                                && (Contains(s, "rain") || Contains(s, "drizzle")))
            && (c == Stormy <==> !Contains(s, "clear") && !Contains(s, "cloud") && !Contains(s, "rain")
                                 && !Contains(s, "drizzle") && Contains(s, "thunderstorm"))
            && (c == Snowy <==> !Contains(s, "clear") && !Contains(s, "cloud") && !Contains(s, "rain")
                                && !Contains(s, "drizzle") && !Contains(s, "thunderstorm") && Contains(s, "snow"))
            && (c == Foggy <==> !Contains(s, "clear") && !Contains(s, "cloud") && !Contains(s, "rain")
                                && !Contains(s, "drizzle") && !Contains(s, "thunderstorm") && !Contains(s, "snow")
                                && (Contains(s, "mist") || Contains(s, "fog") || Contains(s, "haze")))
  {
    var s := if condition.Some? then Lower(condition.value) else "";
    if Contains(s, "clear") then Clear
    else if Contains(s, "cloud") then Cloudy
    else if Contains(s, "rain") || Contains(s, "drizzle") then Rainy
    else if Contains(s, "thunderstorm") then Stormy
    else if Contains(s, "snow") then Snowy
    else if Contains(s, "mist") || Contains(s, "fog") || Contains(s, "haze") then Foggy
    else Plain
  }

  /** The keywords the card looks for, in the order it looks, and the class
      each one selects. */
  const Keywords := ["clear", "cloud", "rain", "drizzle", "thunderstorm", "snow", "mist", "fog", "haze"]
  const KeywordClasses := [Clear, Cloudy, Rainy, Rainy, Stormy, Snowy, Foggy, Foggy, Foggy]

  /** The position of the first keyword, from position `from` on, that the
      text contains. */
  function FirstKeyword(s: string, from: nat): (r: Option<nat>)
    requires from <= |Keywords|
    ensures r.Some? ==> from <= r.value < |Keywords| && Contains(s, Keywords[r.value])
                        && forall j :: from <= j < r.value ==> !Contains(s, Keywords[j])
    ensures r.None? ==> forall j :: from <= j < |Keywords| ==> !Contains(s, Keywords[j])
    decreases |Keywords| - from
  {
    if from == |Keywords| then None
    else if Contains(s, Keywords[from]) then Some(from)
    else FirstKeyword(s, from + 1)
  }

  /** Whether the lower-cased condition contains one of the keywords. */
  predicate HasKeyword(s: string) {
    exists k :: k in Keywords && Contains(Lower(s), k)
  }

  /** The plain background is chosen exactly when no keyword occurs. */
  lemma PlainIffNoKeyword(s: string)
    ensures BackgroundClass(Some(s)) == Plain <==> !HasKeyword(s)
  {
    FirstMatchWins(s);
    var r := FirstKeyword(Lower(s), 0);
    if r.Some? {
      assert Keywords[r.value] in Keywords && KeywordClasses[r.value] != Plain;
    } else {
      forall k | k in Keywords ensures !Contains(Lower(s), k) {
        var j :| 0 <= j < |Keywords| && Keywords[j] == k;
      }
    }
  }

  /** The choice ignores case: a condition and its lower-cased form get the
      same background. */
  lemma BackgroundIgnoresCase(s: string)
    ensures BackgroundClass(Some(s)) == BackgroundClass(Some(Lower(s)))
  {
    LowerIdempotent(s);
  }

  /** The class is that of the first keyword, in the card's order, that
      the lower-cased condition contains, and the plain gradient when it
      contains none. */
  lemma FirstMatchWins(s: string)
    ensures BackgroundClass(Some(s)) == match FirstKeyword(Lower(s), 0)
                                        case None => Plain
                                        case Some(j) => KeywordClasses[j]
  {
    var l := Lower(s);
    assert FirstKeyword(l, 0) == if Contains(l, "clear") then Some(0) else FirstKeyword(l, 1);
    assert FirstKeyword(l, 1) == if Contains(l, "cloud") then Some(1) else FirstKeyword(l, 2);
    assert FirstKeyword(l, 2) == if Contains(l, "rain") then Some(2) else FirstKeyword(l, 3);
    assert FirstKeyword(l, 3) == if Contains(l, "drizzle") then Some(3) else FirstKeyword(l, 4);
    assert FirstKeyword(l, 4) == if Contains(l, "thunderstorm") then Some(4) else FirstKeyword(l, 5);
    assert FirstKeyword(l, 5) == if Contains(l, "snow") then Some(5) else FirstKeyword(l, 6);
    assert FirstKeyword(l, 6) == if Contains(l, "mist") then Some(6) else FirstKeyword(l, 7);
    assert FirstKeyword(l, 7) == if Contains(l, "fog") then Some(7) else FirstKeyword(l, 8);
    assert FirstKeyword(l, 8) == if Contains(l, "haze") then Some(8) else None;
  }
}
