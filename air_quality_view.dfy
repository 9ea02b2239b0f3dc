/** The air-quality card: its render guard, and the colour and face chosen
    by threshold bands over the index it shows. */
module AirQualityView {
  import opened Common
  import opened WeatherApi

  /** The text colours of the bands, from the best air to the worst. */
  const Colors := ["text-green-400", "text-yellow-400", "text-orange-400",
                   "text-red-500", "text-purple-500", "text-maroon-500"]

  /** `aqi <= bound` on the record's index: an absent index (`undefined`)
      fails every comparison. */
  predicate AtMost(aqi: Option<int>, bound: int) {
    aqi.Some? && aqi.value <= bound
  }

  /** `getAQIColor`: bands at 50, 100, 150, 200 and 300; an absent index
      falls through to the last band. */
  function AQIColor(aqi: Option<int>): (c: string)
    ensures c in Colors
    ensures c == Colors[0] <==> aqi.Some? && aqi.value <= 50
    ensures c == Colors[1] <==> aqi.Some? && 50 < aqi.value <= 100
    ensures c == Colors[2] <==> aqi.Some? && 100 < aqi.value <= 150
    ensures c == Colors[3] <==> aqi.Some? && 150 < aqi.value <= 200
    ensures c == Colors[4] <==> aqi.Some? && 200 < aqi.value <= 300
    ensures c == Colors[5] <==> aqi.None? || aqi.value > 300
  {
    if AtMost(aqi, 50) then "text-green-400"
    else if AtMost(aqi, 100) then "text-yellow-400"
    else if AtMost(aqi, 150) then "text-orange-400"
    else if AtMost(aqi, 200) then "text-red-500"
    else if AtMost(aqi, 300) then "text-purple-500"
    else "text-maroon-500"
  }

  /** The position of a colour among the bands. */
  function Band(c: string): (i: nat)
    requires c in Colors
    ensures i < |Colors| && Colors[i] == c
  {
    if c == Colors[0] then 0
    else if c == Colors[1] then 1
    else if c == Colors[2] then 2
    else if c == Colors[3] then 3
    else if c == Colors[4] then 4
    else 5
  }

  /** A larger index never gets an earlier band, and an absent index gets
      the last band of all. */
  lemma AQIColorMonotone(a: int, b: int)
    requires a <= b
    ensures Band(AQIColor(Some(a))) <= Band(AQIColor(Some(b)))
    ensures Band(AQIColor(Some(a))) <= Band(AQIColor(None)) == |Colors| - 1
  {
  }

  datatype Face = Smile | Meh | Frown

  datatype Icon = Icon(face: Face, color: string)

  /** `getAQIIcon`: a smile up to 50, a neutral face up to 100, a frown
      above, always in the colour of the index's band. */
  function AQIIcon(aqi: Option<int>): (icon: Icon)
    ensures icon.color == AQIColor(aqi)
    ensures icon.face == Smile <==> aqi.Some? && aqi.value <= 50
    ensures icon.face == Meh <==> aqi.Some? && 50 < aqi.value <= 100
  {
    if AtMost(aqi, 50) then Icon(Smile, AQIColor(aqi))
    else if AtMost(aqi, 100) then Icon(Meh, AQIColor(aqi))
    else Icon(Frown, AQIColor(aqi))
  }

  /** What the card shows. */
  datatype Panel = Panel(icon: Icon, color: string, value: Option<int>, level: string,
                         dominantPollutant: string, healthImplications: string)

  /** The card: nothing while loading or without air-quality data. */
  function AirQualityPanel(loading: bool, airQuality: Option<AirQuality>): (p: Option<Panel>)
    ensures p.None? <==> loading || airQuality.None?
    ensures p.Some? ==> var q := airQuality.value;
              && p.value.value == q.value && p.value.level == q.level
              && p.value.icon == AQIIcon(q.value) && p.value.color == AQIColor(q.value)
              && p.value.dominantPollutant == q.dominantPollutant
              && p.value.healthImplications == q.healthImplications
  {
    if loading || airQuality.None? then None
    else
      var q := airQuality.value;
      Some(Panel(AQIIcon(q.value), AQIColor(q.value), q.value, q.level, q.dominantPollutant, q.healthImplications))
  }

  /** The provider's index runs from 1 to 5, inside the first band of the
      0-500 scale the card uses: whatever the provider reports, a card
      with a known level is green with a smile. */
  lemma ProviderIndexAlwaysGood(data: Option<AirPayload>)
    requires TransformAirQuality(data).Ok? && TransformAirQuality(data).value.Some?
    requires TransformAirQuality(data).value.value.level != UnknownLevel
    ensures var p := AirQualityPanel(false, TransformAirQuality(data).value);
            p.Some? && p.value.icon == Icon(Smile, Colors[0]) && p.value.color == Colors[0]
  {
  }

  /** A first sample whose `main` block has no index still renders: as
      "Unknown", in the last band's colour, with a frown. */
  lemma AbsentIndexShowsWorst(components: seq<(string, real)>, rest: seq<AirSample>)
    requires components != []
    ensures var q := TransformAirQuality(Some(AirPayload(Some([AirSample(Some(AirMain(None)), Some(components))] + rest))));
            && q.Ok? && q.value.Some? && q.value.value.level == UnknownLevel
            && var p := AirQualityPanel(false, q.value);
            p.Some? && p.value.icon == Icon(Frown, Colors[5]) && p.value.color == Colors[5]
  {
  }
}
