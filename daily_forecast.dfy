/** `transformForecast`: the three-hour forecast list bucketed by calendar
    day (the locale's day key of each sample) and each day reduced to one
    summary, for at most the first five days.

    The source does this in two phases. A loop over the list fills a
    dictionary from day key to an accumulator (seeded from the day's first
    sample, then updated by every sample of the day); the dictionary's
    values, in key-insertion order, are then cut to five and each is
    finished into a summary. `TransformForecast` is that loop; it is proved
    to produce `ForecastSpec`, the same result defined day by day from the
    samples of each day, and the lemmas below say what each summary field
    is in terms of those samples. */
module DailyForecast {
  import opened Common
  import opened WeatherApi

  datatype DailySummary = DailySummary(date: string, day: string, condition: string, icon: Option<string>,
                                       maxTemp: real, minTemp: real, precipitation: Option<int>,
                                       humidity: int, windSpeed: int)

  /** Number of days kept. */
  const MaxDays := 5

  /** The seed of the dominant-condition reduce, and the label of a sample
      without one. */
  const NoCondition := "N/A"

  /** One value of the per-day dictionary. `conditions` counts the labels
      and `conditionOrder` lists its keys in insertion order; a
      precipitation entry is None where the sample has no probability,
      which makes the JavaScript product NaN. The list of plain
      temperatures the source also collects is never read and is omitted. */
  datatype DayAccumulator = DayAccumulator(firstDt: int, minTemp: real, maxTemp: real,
                                           conditions: map<string, nat>, conditionOrder: seq<string>,
                                           precipitations: seq<Option<real>>, humidities: seq<real>,
                                           windSpeeds: seq<real>)

  predicate AllComplete(s: seq<IntervalRecord>) {
    forall i :: 0 <= i < |s| ==> Complete(s[i])
  }

  function Label(r: IntervalRecord): string
    requires Complete(r)
  {
    ConditionLabel(r.weather.value)
  }

  /** `pop * 100`, undefined (NaN) when `pop` is missing. */
  function PopPercent(r: IntervalRecord): Option<real> {
    if r.pop.Some? then Some(r.pop.value * 100.0) else None
  }

  function Min(a: real, b: real): real { if a <= b then a else b }

  function Max(a: real, b: real): real { if a >= b then a else b }

  function CountIn(conditions: map<string, nat>, c: string): nat {
    if c in conditions then conditions[c] else 0
  }

  /** The accumulator created for a day's first sample. */
  function NewDay(r: IntervalRecord): DayAccumulator
    requires Complete(r)
  {
    DayAccumulator(r.dt, r.main.value.tempMin, r.main.value.tempMax, map[], [], [], [], [])
  }

  /** What the loop body does to the accumulator of the sample's day. */
  function AddRecord(acc: DayAccumulator, r: IntervalRecord): (next: DayAccumulator)
    requires Complete(r)
    ensures next.firstDt == acc.firstDt
    ensures next.minTemp <= acc.minTemp && next.minTemp <= r.main.value.tempMin
    ensures next.minTemp == acc.minTemp || next.minTemp == r.main.value.tempMin
    ensures next.maxTemp >= acc.maxTemp && next.maxTemp >= r.main.value.tempMax
    ensures next.maxTemp == acc.maxTemp || next.maxTemp == r.main.value.tempMax
    ensures CountIn(next.conditions, Label(r)) == CountIn(acc.conditions, Label(r)) + 1
    ensures |next.precipitations| == |acc.precipitations| + 1 && |next.humidities| == |acc.humidities| + 1
    ensures |next.windSpeeds| == |acc.windSpeeds| + 1
  {
    var c := Label(r);
    acc.(minTemp := Min(acc.minTemp, r.main.value.tempMin),
         maxTemp := Max(acc.maxTemp, r.main.value.tempMax),
         conditions := acc.conditions[c := CountIn(acc.conditions, c) + 1],
         conditionOrder := if c in acc.conditions then acc.conditionOrder else acc.conditionOrder + [c],
         precipitations := acc.precipitations + [PopPercent(r)],
         humidities := acc.humidities + [r.main.value.humidity],
         windSpeeds := acc.windSpeeds + [KmPerHour(r.wind.value.speed)])
  }

  /** The accumulator the loop holds for a day once it has seen that day's
      samples `b`, in list order. */
  function Accumulate(b: seq<IntervalRecord>): (acc: DayAccumulator)
    requires |b| > 0 && AllComplete(b)
    ensures |acc.precipitations| == |b| && |acc.humidities| == |b| && |acc.windSpeeds| == |b|
    decreases |b|
  {
    if |b| == 1 then AddRecord(NewDay(b[0]), b[0])
    else AddRecord(Accumulate(b[..|b| - 1]), b[|b| - 1])
  }

  /** The dominant condition: `Object.keys(conditions).reduce((a, b) =>
      conditions[a] > conditions[b] ? a : b, 'N/A')`. An absent key counts
      as 0, which compares like the `undefined` of the source. */
  function DominantCondition(conditions: map<string, nat>, order: seq<string>): (c: string)
    ensures c == NoCondition || c in order
    ensures forall k :: k in order ==> CountIn(conditions, k) <= CountIn(conditions, c)
  {
    var keys := [NoCondition] + order;
    var i := LastMaxIndex(keys, k => CountIn(conditions, k) as real);
    assert forall j :: 0 <= j < |order| ==> keys[j + 1] == order[j];
    keys[i]
  }

  /** `Math.round` of a mean that is NaN when any term is. */
  function RoundedMean(s: seq<Option<real>>): Option<int>
    requires |s| > 0
  {
    if forall i :: 0 <= i < |s| ==> s[i].Some? then Some(Round(Mean(Values(s)))) else None
  }

  function Values(s: seq<Option<real>>): (v: seq<real>)
    requires forall i :: 0 <= i < |s| ==> s[i].Some?
    ensures |v| == |s| && forall i :: 0 <= i < |s| ==> v[i] == s[i].value
  {
    seq(|s|, i requires 0 <= i < |s| => s[i].value)
  }

  /** The second phase: one accumulator finished into a summary. */
  function Summarize(acc: DayAccumulator, icon: Option<string>, loc: Locale): (d: DailySummary)
    requires |acc.precipitations| > 0 && |acc.humidities| > 0 && |acc.windSpeeds| > 0
    ensures d.date == loc.dateLabel(acc.firstDt) && d.day == loc.weekday(acc.firstDt) && d.icon == icon
    ensures d.minTemp == acc.minTemp && d.maxTemp == acc.maxTemp
    ensures d.condition == DominantCondition(acc.conditions, acc.conditionOrder)
    ensures d.humidity as real - 1.0 / 2.0 <= Mean(acc.humidities) < d.humidity as real + 1.0 / 2.0
    ensures d.windSpeed as real - 1.0 / 2.0 <= Mean(acc.windSpeeds) < d.windSpeed as real + 1.0 / 2.0
    ensures d.precipitation.Some? <==> forall i :: 0 <= i < |acc.precipitations| ==> acc.precipitations[i].Some?
  {
    DailySummary(loc.dateLabel(acc.firstDt), loc.weekday(acc.firstDt),
                 DominantCondition(acc.conditions, acc.conditionOrder), icon,
                 acc.maxTemp, acc.minTemp, RoundedMean(acc.precipitations),
                 Round(Mean(acc.humidities)), Round(Mean(acc.windSpeeds)))
  }

  // ---------------------------------------------------------------------------
  // Days of a list

  /** The day key of every sample, in list order. */
  function Keys(list: seq<IntervalRecord>, loc: Locale): (ks: seq<string>)
    ensures |ks| == |list|
    ensures forall i :: 0 <= i < |list| ==> ks[i] == loc.dayKey(list[i].dt)
    decreases |list|
  {
    if list == [] then [] else Keys(list[..|list| - 1], loc) + [loc.dayKey(list[|list| - 1].dt)]
  }

  /** The day keys, each once, in order of first appearance. */
  function DayKeys(list: seq<IntervalRecord>, loc: Locale): seq<string> {
    Distinct(Keys(list, loc))
  }

  /** The samples of day `k`, in list order. */
  function Bucket(list: seq<IntervalRecord>, k: string, loc: Locale): (b: seq<IntervalRecord>)
    ensures |b| > 0 <==> k in Keys(list, loc)
    ensures forall j :: 0 <= j < |b| ==> loc.dayKey(b[j].dt) == k
    ensures AllComplete(list) ==> AllComplete(b)
    decreases |list|
  {
    if list == [] then []
    else
      var p, x := list[..|list| - 1], list[|list| - 1];
      assert AllComplete(list) ==> AllComplete(p);
      Bucket(p, k, loc) + (if loc.dayKey(x.dt) == k then [x] else [])
  }

  /** The bucket holds every sample of day `k` and nothing else from
      outside the list: it is the list filtered by day key. */
  lemma {:induction false} BucketIsFilter(list: seq<IntervalRecord>, k: string, loc: Locale)
    ensures forall j :: 0 <= j < |list| && loc.dayKey(list[j].dt) == k ==> list[j] in Bucket(list, k, loc)
    ensures forall y :: y in Bucket(list, k, loc) ==> y in list
    decreases |list|
  {
    if list != [] {
      var p := list[..|list| - 1];
      BucketIsFilter(p, k, loc);
      assert forall j :: 0 <= j < |p| ==> list[j] == p[j];
    }
  }

  /** The bucket has one entry per occurrence of `k` among the day keys,
      so no sample is repeated or dropped. */
  lemma {:induction false} BucketSize(list: seq<IntervalRecord>, k: string, loc: Locale)
    ensures |Bucket(list, k, loc)| == Count(Keys(list, loc), k)
    decreases |list|
  {
    if list != [] {
      var p := list[..|list| - 1];
      BucketSize(p, k, loc);
      var ks := Keys(list, loc);
      assert ks[..|ks| - 1] == Keys(p, loc);
    }
  }

  /** The summary's icon: that of the first sample of the whole list whose
      day key is `k` (`data.list.find(...)?.weather[0]?.icon`). */
  function DayIcon(list: seq<IntervalRecord>, k: string, loc: Locale): Option<string>
    requires AllComplete(list)
  {
    if k in Keys(list, loc) then FirstIcon(list[FirstIndex(Keys(list, loc), k)].weather.value) else None
  }

  function DaySummary(list: seq<IntervalRecord>, k: string, loc: Locale): DailySummary
    requires AllComplete(list) && k in Keys(list, loc)
  {
    Summarize(Accumulate(Bucket(list, k, loc)), DayIcon(list, k, loc), loc)
  }

  /** What `transformForecast` returns: nothing for an absent payload or
      list, a throw when some sample lacks `main`, `weather` or `wind`,
      otherwise the summaries of the first five days in order of first
      appearance. */
  function ForecastSpec(data: Option<ForecastPayload>, loc: Locale): (r: Outcome<seq<DailySummary>>)
    ensures data.None? || data.value.list.None? ==> r == Ok([])
    ensures data.Some? && data.value.list.Some? ==> (r == Throws <==> !AllComplete(data.value.list.value))
    ensures r.Ok? ==> |r.value| <= MaxDays
  {
    if data.None? || data.value.list.None? then Ok([])
    else
      var list := data.value.list.value;
      if !AllComplete(list) then Throws
      else
        var keys := DayKeys(list, loc);
        var n := if |keys| < MaxDays then |keys| else MaxDays;
        Ok(seq(n, i requires 0 <= i < n => DaySummary(list, keys[i], loc)))
  }

  // ---------------------------------------------------------------------------
  // The loop

  /** How one more sample changes the day keys and the samples of a day. */
  lemma StepFacts(seen: seq<IntervalRecord>, item: IntervalRecord, k: string, loc: Locale)
    ensures Keys(seen + [item], loc) == Keys(seen, loc) + [loc.dayKey(item.dt)]
    ensures Bucket(seen + [item], k, loc)
            == Bucket(seen, k, loc) + (if loc.dayKey(item.dt) == k then [item] else [])
  {
  }

  /** One step of `Accumulate`, for a day that may not have been seen yet. */
  lemma AccumulateStep(b: seq<IntervalRecord>, r: IntervalRecord)
    requires AllComplete(b) && Complete(r)
    ensures AllComplete(b + [r])
    ensures Accumulate(b + [r]) == if b == [] then AddRecord(NewDay(r), r) else AddRecord(Accumulate(b), r)
  {
  }

  /** The loop invariant: after the samples `seen`, the dictionary holds one
      accumulator per day key seen, equal to `Accumulate` of that day's
      samples, and its keys were inserted in order of first appearance. */
  ghost predicate Matches(dailyData: map<string, DayAccumulator>, order: seq<string>,
                          seen: seq<IntervalRecord>, loc: Locale)
  {
    && AllComplete(seen)
    && order == DayKeys(seen, loc)
    && (forall k :: k in dailyData <==> k in Keys(seen, loc))
    && (forall k :: k in dailyData ==>
          |Bucket(seen, k, loc)| > 0 && dailyData[k] == Accumulate(Bucket(seen, k, loc)))
  }

  /** The dictionary after the loop body has handled `item`. */
  function Updated(dailyData: map<string, DayAccumulator>, item: IntervalRecord, loc: Locale)
    : map<string, DayAccumulator>
    requires Complete(item)
  {
    var date := loc.dayKey(item.dt);
    var d1 := if date !in dailyData then dailyData[date := NewDay(item)] else dailyData;
    d1[date := AddRecord(d1[date], item)]
  }

  /** The loop body keeps the invariant. */
  lemma MatchesStep(dailyData: map<string, DayAccumulator>, order: seq<string>,
                    seen: seq<IntervalRecord>, item: IntervalRecord, seen': seq<IntervalRecord>, loc: Locale)
    requires Matches(dailyData, order, seen, loc) && Complete(item)
    requires seen' == seen + [item]
    ensures var date := loc.dayKey(item.dt);
            Matches(Updated(dailyData, item, loc), if date !in dailyData then order + [date] else order,
                    seen', loc)
  {
    var date := loc.dayKey(item.dt);
    StepFacts(seen, item, date, loc);
    assert AllComplete(seen') by {
      assert forall j :: 0 <= j < |seen| ==> seen'[j] == seen[j];
    }
    OrderStep(dailyData, order, seen, item, seen', loc);
    var d2 := Updated(dailyData, item, loc);
    forall k | k in d2
      ensures |Bucket(seen', k, loc)| > 0 && d2[k] == Accumulate(Bucket(seen', k, loc))
    {
      UpdatedAt(dailyData, seen, item, loc, k);
    }
  }

  /** The day keys after one more sample: its key is appended when the
      dictionary does not have it yet. */
  lemma OrderStep(dailyData: map<string, DayAccumulator>, order: seq<string>,
                  seen: seq<IntervalRecord>, item: IntervalRecord, seen': seq<IntervalRecord>, loc: Locale)
    requires Matches(dailyData, order, seen, loc)
    requires seen' == seen + [item]
    ensures var date := loc.dayKey(item.dt);
            DayKeys(seen', loc) == if date !in dailyData then order + [date] else order
  {
  }

  /** The updated dictionary at one key: the facts of the invariant at that
      key carry over to the longer list. */
  lemma UpdatedAt(dailyData: map<string, DayAccumulator>,
                  seen: seq<IntervalRecord>, item: IntervalRecord, loc: Locale, k: string)
    requires AllComplete(seen) && Complete(item)
    requires k in dailyData <==> |Bucket(seen, k, loc)| > 0
    requires k in dailyData ==> dailyData[k] == Accumulate(Bucket(seen, k, loc))
    requires k in Updated(dailyData, item, loc)
    ensures AllComplete(seen + [item])
    ensures |Bucket(seen + [item], k, loc)| > 0
    ensures Updated(dailyData, item, loc)[k] == Accumulate(Bucket(seen + [item], k, loc))
  {
    if k != loc.dayKey(item.dt) {
      UpdatedAtOtherDay(dailyData, seen, item, loc, k);
    } else {
      UpdatedAtItsDay(dailyData, seen, item, loc, k);
    }
  }

  /** A key other than the sample's day keeps its entry and its bucket. */
  lemma UpdatedAtOtherDay(dailyData: map<string, DayAccumulator>,
                          seen: seq<IntervalRecord>, item: IntervalRecord, loc: Locale, k: string)
    requires AllComplete(seen) && Complete(item) && k != loc.dayKey(item.dt)
    requires k in Updated(dailyData, item, loc)
    ensures AllComplete(seen + [item])
    ensures k in dailyData && Updated(dailyData, item, loc)[k] == dailyData[k]
    ensures Bucket(seen + [item], k, loc) == Bucket(seen, k, loc)
  {
    StepFacts(seen, item, k, loc);
    AccumulateStep([], item);
  }

  /** The sample's own day: its entry gains the sample, as its bucket does. */
  lemma UpdatedAtItsDay(dailyData: map<string, DayAccumulator>,
                        seen: seq<IntervalRecord>, item: IntervalRecord, loc: Locale, k: string)
    requires AllComplete(seen) && Complete(item) && k == loc.dayKey(item.dt)
    requires k in dailyData <==> |Bucket(seen, k, loc)| > 0
    requires k in dailyData ==> dailyData[k] == Accumulate(Bucket(seen, k, loc))
    ensures AllComplete(seen + [item])
    ensures |Bucket(seen + [item], k, loc)| > 0
    ensures Updated(dailyData, item, loc)[k] == Accumulate(Bucket(seen + [item], k, loc))
  {
    var b := Bucket(seen, k, loc);
    StepFacts(seen, item, k, loc);
    AccumulateStep(b, item);
    assert Bucket(seen + [item], k, loc) == b + [item];
    if k in dailyData {
      assert Updated(dailyData, item, loc)[k] == AddRecord(dailyData[k], item);
    } else {
      assert b == [];
      assert Updated(dailyData, item, loc)[k] == AddRecord(NewDay(item), item);
    }
  }

  /** After the whole list, the second phase yields `ForecastSpec`. */
  lemma MatchesFinish(dailyData: map<string, DayAccumulator>, order: seq<string>,
                      list: seq<IntervalRecord>, loc: Locale)
    requires Matches(dailyData, order, list, loc)
    ensures forall k :: k in order ==> k in dailyData && k in Keys(list, loc)
    ensures var n := if |order| < MaxDays then |order| else MaxDays;
            Ok(seq(n, j requires 0 <= j < n => Summarize(dailyData[order[j]], DayIcon(list, order[j], loc), loc)))
            == ForecastSpec(Some(ForecastPayload(Some(list))), loc)
  {
    assert AllComplete(list) && order == DayKeys(list, loc);
    var n := if |order| < MaxDays then |order| else MaxDays;
    var s1 := seq(n, j requires 0 <= j < n => Summarize(dailyData[order[j]], DayIcon(list, order[j], loc), loc));
    var s2 := seq(n, j requires 0 <= j < n => DaySummary(list, order[j], loc));
    forall j | 0 <= j < n ensures s1[j] == s2[j] {
      var k := order[j];
      assert k in Keys(list, loc);
      assert dailyData[k] == Accumulate(Bucket(list, k, loc));
    }
    assert s1 == s2;
    assert ForecastSpec(Some(ForecastPayload(Some(list))), loc) == Ok(s2);
  }

  /** The loop body, as the method writes it, keeps the invariant. */
  lemma LoopBody(list: seq<IntervalRecord>, i: nat, dailyData: map<string, DayAccumulator>,
                 order: seq<string>, loc: Locale)
    requires i < |list| && Complete(list[i]) && Matches(dailyData, order, list[..i], loc)
    ensures var item := list[i];
            var date := loc.dayKey(item.dt);
            var d1 := if date !in dailyData then dailyData[date := NewDay(item)] else dailyData;
            var o1 := if date !in dailyData then order + [date] else order;
            Matches(d1[date := AddRecord(d1[date], item)], o1, list[..i + 1], loc)
  {
    assert list[..i + 1] == list[..i] + [list[i]];
    MatchesStep(dailyData, order, list[..i], list[i], list[..i + 1], loc);
  }

  method TransformForecast(data: Option<ForecastPayload>, loc: Locale) returns (r: Outcome<seq<DailySummary>>)
    ensures r == ForecastSpec(data, loc)
  {
    if data.None? || data.value.list.None? {
      return Ok([]);
    }
    var list := data.value.list.value;
    var dailyData: map<string, DayAccumulator> := map[];
    var order: seq<string> := [];
    var i := 0;
    while i < |list|
      invariant 0 <= i <= |list|
      invariant Matches(dailyData, order, list[..i], loc)
    {
      var item := list[i];
      if !Complete(item) {
        assert !AllComplete(list);
        return Throws;
      }
      var date := loc.dayKey(item.dt);
      LoopBody(list, i, dailyData, order, loc);
      if date !in dailyData {
        dailyData := dailyData[date := NewDay(item)];
        order := order + [date];
      }
      dailyData := dailyData[date := AddRecord(dailyData[date], item)];
      i := i + 1;
    }
    assert list[..i] == list;
    MatchesFinish(dailyData, order, list, loc);
    var n := if |order| < MaxDays then |order| else MaxDays;
    r := Ok(seq(n, j requires 0 <= j < n => Summarize(dailyData[order[j]], DayIcon(list, order[j], loc), loc)));
  }

  // ---------------------------------------------------------------------------
  // What the summaries are

  /** The condition label of every sample of a day, in order. */
  function Labels(b: seq<IntervalRecord>): (ls: seq<string>)
    requires AllComplete(b)
    ensures |ls| == |b| && forall j :: 0 <= j < |b| ==> ls[j] == Label(b[j])
    decreases |b|
  {
    if b == [] then [] else Labels(b[..|b| - 1]) + [Label(b[|b| - 1])]
  }

  /** A day's precipitation percentages, humidities and wind speeds, one
      per sample, in order. */
  function PopPercents(b: seq<IntervalRecord>): (s: seq<Option<real>>)
    ensures |s| == |b| && forall j :: 0 <= j < |b| ==> s[j] == PopPercent(b[j])
    decreases |b|
  {
    if b == [] then [] else PopPercents(b[..|b| - 1]) + [PopPercent(b[|b| - 1])]
  }

  function Humidities(b: seq<IntervalRecord>): (s: seq<real>)
    requires AllComplete(b)
    ensures |s| == |b| && forall j :: 0 <= j < |b| ==> s[j] == b[j].main.value.humidity
    decreases |b|
  {
    if b == [] then [] else Humidities(b[..|b| - 1]) + [b[|b| - 1].main.value.humidity]
  }

  function WindSpeeds(b: seq<IntervalRecord>): (s: seq<real>)
    requires AllComplete(b)
    ensures |s| == |b| && forall j :: 0 <= j < |b| ==> s[j] == KmPerHour(b[j].wind.value.speed)
    decreases |b|
  {
    if b == [] then [] else WindSpeeds(b[..|b| - 1]) + [KmPerHour(b[|b| - 1].wind.value.speed)]
  }

  /** The accumulator of a day is dated by the day's first sample. */
  lemma {:induction false} AccumulateFirstDt(b: seq<IntervalRecord>)
    requires |b| > 0 && AllComplete(b)
    ensures Accumulate(b).firstDt == b[0].dt
    decreases |b|
  {
    if |b| > 1 {
      AccumulateFirstDt(b[..|b| - 1]);
    }
  }

  /** The accumulator's temperatures are the least `temp_min` and the
      greatest `temp_max` of the day's samples. */
  lemma AccumulateTemps(b: seq<IntervalRecord>)
    requires |b| > 0 && AllComplete(b)
    ensures forall j :: 0 <= j < |b| ==> Accumulate(b).minTemp <= b[j].main.value.tempMin
    ensures exists j :: 0 <= j < |b| && Accumulate(b).minTemp == b[j].main.value.tempMin
    ensures forall j :: 0 <= j < |b| ==> Accumulate(b).maxTemp >= b[j].main.value.tempMax
    ensures exists j :: 0 <= j < |b| && Accumulate(b).maxTemp == b[j].main.value.tempMax
  {
    AccumulateMin(b);
    AccumulateMax(b);
  }

  lemma {:induction false} AccumulateMin(b: seq<IntervalRecord>)
    requires |b| > 0 && AllComplete(b)
    ensures forall j :: 0 <= j < |b| ==> Accumulate(b).minTemp <= b[j].main.value.tempMin
    ensures exists j :: 0 <= j < |b| && Accumulate(b).minTemp == b[j].main.value.tempMin
    decreases |b|
  {
    if |b| > 1 {
      var p, x := b[..|b| - 1], b[|b| - 1];
      AccumulateMin(p);
      var a := Accumulate(p);
      assert Accumulate(b) == AddRecord(a, x);
      var jmin :| 0 <= jmin < |p| && a.minTemp == p[jmin].main.value.tempMin;
      assert forall j :: 0 <= j < |p| ==> b[j] == p[j];
      var w := if a.minTemp <= x.main.value.tempMin then jmin else |b| - 1;
      assert Accumulate(b).minTemp == b[w].main.value.tempMin;
    } else {
      assert Accumulate(b).minTemp == b[0].main.value.tempMin;
    }
  }

  lemma {:induction false} AccumulateMax(b: seq<IntervalRecord>)
    requires |b| > 0 && AllComplete(b)
    ensures forall j :: 0 <= j < |b| ==> Accumulate(b).maxTemp >= b[j].main.value.tempMax
    ensures exists j :: 0 <= j < |b| && Accumulate(b).maxTemp == b[j].main.value.tempMax
    decreases |b|
  {
    if |b| > 1 {
      var p, x := b[..|b| - 1], b[|b| - 1];
      AccumulateMax(p);
      var a := Accumulate(p);
      assert Accumulate(b) == AddRecord(a, x);
      var jmax :| 0 <= jmax < |p| && a.maxTemp == p[jmax].main.value.tempMax;
      assert forall j :: 0 <= j < |p| ==> b[j] == p[j];
      var w := if a.maxTemp >= x.main.value.tempMax then jmax else |b| - 1;
      assert Accumulate(b).maxTemp == b[w].main.value.tempMax;
    } else {
      assert Accumulate(b).maxTemp == b[0].main.value.tempMax;
    }
  }

  /** The accumulator's lists hold one entry per sample of the day. */
  lemma {:induction false} AccumulateSeries(b: seq<IntervalRecord>)
    requires |b| > 0 && AllComplete(b)
    ensures Accumulate(b).precipitations == PopPercents(b)
    ensures Accumulate(b).humidities == Humidities(b)
    ensures Accumulate(b).windSpeeds == WindSpeeds(b)
    decreases |b|
  {
    if |b| > 1 {
      AccumulateSeries(b[..|b| - 1]);
    } else {
      assert b[..0] == [];
    }
  }

  /** The condition dictionary of a day counts each label of its samples,
      and its keys are the distinct labels in order of first appearance. */
  lemma {:induction false} AccumulateConditions(b: seq<IntervalRecord>)
    requires |b| > 0 && AllComplete(b)
    ensures Accumulate(b).conditionOrder == Distinct(Labels(b))
    ensures forall c :: c in Accumulate(b).conditions <==> c in Labels(b)
    ensures forall c :: CountIn(Accumulate(b).conditions, c) == Count(Labels(b), c)
    decreases |b|
  {
    var p, x := b[..|b| - 1], b[|b| - 1];
    assert Labels(b) == Labels(p) + [Label(x)];
    assert (Labels(p) + [Label(x)])[..|p|] == Labels(p);
    if |b| > 1 {
      AccumulateConditions(p);
    } else {
      assert Labels(p) == [];
    }
  }

  /** Over any dictionary whose keys are exactly `order`, each counted at
      least once, the reduce picks a key of `order` with the greatest count,
      and every key after it has a strictly smaller count. */
  lemma DominantPosition(conditions: map<string, nat>, order: seq<string>) returns (i: nat)
    requires order != []
    requires forall c :: c in conditions <==> c in order
    requires forall c :: c in order ==> CountIn(conditions, c) >= 1
    ensures i < |order| && order[i] == DominantCondition(conditions, order)
    ensures forall j :: 0 <= j < |order| ==> CountIn(conditions, order[j]) <= CountIn(conditions, order[i])
    ensures forall j :: i < j < |order| ==> CountIn(conditions, order[j]) < CountIn(conditions, order[i])
  {
    var keys := [NoCondition] + order;
    var score := k => CountIn(conditions, k) as real;
    var m := LastMaxIndex(keys, score);
    // The seed never wins: it scores 0 unless it is a key, and then its
    // own later entry scores as much.
    if NoCondition in order {
      var q := FirstIndex(order, NoCondition);
      assert keys[q + 1] == NoCondition;
    } else {
      assert score(keys[1]) >= 1.0;
    }
    assert m >= 1;
    i := m - 1;
    assert order[i] == keys[m];
    forall j | 0 <= j < |order| ensures CountIn(conditions, order[j]) <= CountIn(conditions, order[i]) {
      assert score(keys[j + 1]) <= score(keys[m]);
    }
    forall j | i < j < |order| ensures CountIn(conditions, order[j]) < CountIn(conditions, order[i]) {
      assert score(keys[j + 1]) < score(keys[m]);
    }
  }

  /** The dominant condition is a label of the day with the greatest count;
      every label that first appears after it has a strictly smaller count,
      so a tie goes to the label that first appeared later. */
  lemma DominantConditionFacts(b: seq<IntervalRecord>)
    requires |b| > 0 && AllComplete(b)
    ensures var d := DominantCondition(Accumulate(b).conditions, Accumulate(b).conditionOrder);
            var order := Distinct(Labels(b));
            && d in Labels(b)
            && (forall j :: 0 <= j < |b| ==> Count(Labels(b), Label(b[j])) <= Count(Labels(b), d))
            && exists i :: 0 <= i < |order| && order[i] == d &&
                 forall j :: i < j < |order| ==> Count(Labels(b), order[j]) < Count(Labels(b), d)
  {
    var acc := Accumulate(b);
    AccumulateConditions(b);
    var ls := Labels(b);
    assert ls[0] in ls;
    var i := DominantPosition(acc.conditions, acc.conditionOrder);
    forall j | 0 <= j < |b| ensures Count(ls, Label(b[j])) <= Count(ls, acc.conditionOrder[i]) {
      assert ls[j] in acc.conditionOrder;
      var q := FirstIndex(acc.conditionOrder, ls[j]);
      assert CountIn(acc.conditions, acc.conditionOrder[q]) <= CountIn(acc.conditions, acc.conditionOrder[i]);
    }
  }

  /** The labels Rain, Rain, Clear, Clear: two distinct labels, twice each. */
  lemma RainRainClearClear()
    ensures Distinct(["Rain", "Rain", "Clear", "Clear"]) == ["Rain", "Clear"]
    ensures Count(["Rain", "Rain", "Clear", "Clear"], "Rain") == 2
    ensures Count(["Rain", "Rain", "Clear", "Clear"], "Clear") == 2
    ensures Count(["Rain", "Rain", "Clear", "Clear"], NoCondition) == 0
  {
    var ls := ["Rain", "Rain", "Clear", "Clear"];
    assert ls[..3] == ["Rain", "Rain", "Clear"];
    assert ls[..3][..2] == ["Rain", "Rain"];
    assert ls[..3][..2][..1] == ["Rain"];
    assert ls[..3][..2][..1][..0] == [];
    assert Distinct(["Rain"]) == ["Rain"];
    assert Distinct(["Rain", "Rain"]) == ["Rain"];
    assert Distinct(["Rain", "Rain", "Clear"]) == ["Rain", "Clear"];
  }

  /** A tie between two labels goes to the one first seen later: a day
      labelled Rain, Rain, Clear, Clear is summarised as Clear. */
  lemma TieGoesToLaterLabel(b: seq<IntervalRecord>)
    requires |b| == 4 && AllComplete(b)
    requires Labels(b) == ["Rain", "Rain", "Clear", "Clear"]
    ensures DominantCondition(Accumulate(b).conditions, Accumulate(b).conditionOrder) == "Clear"
  {
    AccumulateConditions(b);
    RainRainClearClear();
    var acc := Accumulate(b);
    var keys := [NoCondition] + acc.conditionOrder;
    assert keys == [NoCondition, "Rain", "Clear"];
    var score := k => CountIn(acc.conditions, k) as real;
    assert score(keys[0]) == 0.0 && score(keys[1]) == 2.0 && score(keys[2]) == 2.0;
    var m := LastMaxIndex(keys, score);
    assert m == 2;
  }

  /** The first sample of a day is the first sample of the whole list with
      that day key. */
  lemma {:induction false} BucketStartsAtFirstSample(list: seq<IntervalRecord>, k: string, loc: Locale)
    requires k in Keys(list, loc)
    ensures Bucket(list, k, loc)[0] == list[FirstIndex(Keys(list, loc), k)]
    decreases |list|
  {
    var p, x := list[..|list| - 1], list[|list| - 1];
    assert Keys(list, loc) == Keys(p, loc) + [loc.dayKey(x.dt)];
    if k in Keys(p, loc) {
      BucketStartsAtFirstSample(p, k, loc);
      FirstIndexAppend(Keys(p, loc), loc.dayKey(x.dt), k);
    } else {
      assert Bucket(p, k, loc) == [];
      assert FirstIndex(Keys(list, loc), k) == |p|;
    }
  }

  /** Each summary is dated, and carries the icon, of its day's first
      sample. */
  lemma DaySummaryFirstSample(list: seq<IntervalRecord>, k: string, loc: Locale)
    requires AllComplete(list) && k in Keys(list, loc)
    ensures var first := list[FirstIndex(Keys(list, loc), k)];
            && DaySummary(list, k, loc).date == loc.dateLabel(first.dt)
            && DaySummary(list, k, loc).day == loc.weekday(first.dt)
            && DaySummary(list, k, loc).icon == FirstIcon(first.weather.value)
  {
    BucketStartsAtFirstSample(list, k, loc);
    AccumulateFirstDt(Bucket(list, k, loc));
  }

  /** A day's minimum and maximum temperature are the least `temp_min` and
      the greatest `temp_max` of its samples. */
  lemma DayTemperatures(list: seq<IntervalRecord>, k: string, loc: Locale)
    requires AllComplete(list) && k in Keys(list, loc)
    ensures var s, b := DaySummary(list, k, loc), Bucket(list, k, loc);
            && (forall j :: 0 <= j < |b| ==> s.minTemp <= b[j].main.value.tempMin)
            && (exists j :: 0 <= j < |b| && s.minTemp == b[j].main.value.tempMin)
            && (forall j :: 0 <= j < |b| ==> s.maxTemp >= b[j].main.value.tempMax)
            && (exists j :: 0 <= j < |b| && s.maxTemp == b[j].main.value.tempMax)
  {
    DaySummaryTemps(list, k, loc);
    AccumulateTemps(Bucket(list, k, loc));
  }

  /** The summary keeps the accumulator's temperatures. */
  lemma DaySummaryTemps(list: seq<IntervalRecord>, k: string, loc: Locale)
    requires AllComplete(list) && k in Keys(list, loc)
    ensures DaySummary(list, k, loc).minTemp == Accumulate(Bucket(list, k, loc)).minTemp
    ensures DaySummary(list, k, loc).maxTemp == Accumulate(Bucket(list, k, loc)).maxTemp
  {
  }

  /** A day's condition is its dominant label, as `DominantConditionFacts`
      describes it. */
  lemma DayCondition(list: seq<IntervalRecord>, k: string, loc: Locale)
    requires AllComplete(list) && k in Keys(list, loc)
    ensures var s, b := DaySummary(list, k, loc), Bucket(list, k, loc);
            var order := Distinct(Labels(b));
            && s.condition in Labels(b)
            && (forall j :: 0 <= j < |b| ==> Count(Labels(b), Label(b[j])) <= Count(Labels(b), s.condition))
            && exists i :: 0 <= i < |order| && order[i] == s.condition &&
                 forall j :: i < j < |order| ==> Count(Labels(b), order[j]) < Count(Labels(b), s.condition)
  {
    DominantConditionFacts(Bucket(list, k, loc));
  }

  /** Humidity and wind are the rounded means over the day's samples. */
  lemma DayMeans(list: seq<IntervalRecord>, k: string, loc: Locale)
    requires AllComplete(list) && k in Keys(list, loc)
    ensures var s, b := DaySummary(list, k, loc), Bucket(list, k, loc);
            && s.humidity == Round(Mean(Humidities(b)))
            && s.windSpeed == Round(Mean(WindSpeeds(b)))
  {
    AccumulateSeries(Bucket(list, k, loc));
  }

  /** The summary keeps the rounded mean of the bucket's percentages. */
  lemma DaySummaryPrecipitation(list: seq<IntervalRecord>, k: string, loc: Locale)
    requires AllComplete(list) && k in Keys(list, loc)
    ensures DaySummary(list, k, loc).precipitation == RoundedMean(PopPercents(Bucket(list, k, loc)))
  {
    AccumulateSeries(Bucket(list, k, loc));
  }

  /** Precipitation is the rounded mean of the day's percentages, or NaN
      (None) when a sample of the day has no probability. */
  lemma DayPrecipitation(list: seq<IntervalRecord>, k: string, loc: Locale)
    requires AllComplete(list) && k in Keys(list, loc)
    ensures var s, b := DaySummary(list, k, loc), Bucket(list, k, loc);
            && (s.precipitation.None? <==> exists j :: 0 <= j < |b| && b[j].pop.None?)
            && (s.precipitation.Some? ==> s.precipitation.value == Round(Mean(Values(PopPercents(b)))))
  {
    var b := Bucket(list, k, loc);
    DaySummaryPrecipitation(list, k, loc);
    var ps := PopPercents(b);
    assert (exists j :: 0 <= j < |b| && b[j].pop.None?) <==> (exists j :: 0 <= j < |ps| && ps[j].None?);
  }

  /** With every probability in [0, 1], a day's precipitation is a
      percentage between 0 and 100. */
  lemma DayPrecipitationIsPercentage(list: seq<IntervalRecord>, k: string, loc: Locale)
    requires AllComplete(list) && k in Keys(list, loc)
    requires forall j :: 0 <= j < |list| ==> list[j].pop.Some? && 0.0 <= list[j].pop.value <= 1.0
    ensures DaySummary(list, k, loc).precipitation.Some?
    ensures 0 <= DaySummary(list, k, loc).precipitation.value <= 100
  {
    var b := Bucket(list, k, loc);
    BucketFromList(list, k, loc);
    DayPrecipitation(list, k, loc);
    MeanWithin(Values(PopPercents(b)), 0.0, 100.0);
  }

  /** Every sample of a day is a sample of the list. */
  lemma {:induction false} BucketFromList(list: seq<IntervalRecord>, k: string, loc: Locale)
    ensures forall j :: 0 <= j < |Bucket(list, k, loc)| ==> Bucket(list, k, loc)[j] in list
    decreases |list|
  {
    if list != [] {
      var p := list[..|list| - 1];
      BucketFromList(p, k, loc);
      assert forall y :: y in p ==> y in list;
    }
  }

  /** The day keys of a list: every sample's key is among them, each
      appears once, and they are listed in order of first appearance. */
  lemma DayKeysOrder(list: seq<IntervalRecord>, loc: Locale)
    ensures var keys := DayKeys(list, loc);
            && (forall j :: 0 <= j < |list| ==> loc.dayKey(list[j].dt) in keys)
            && (forall a, b :: 0 <= a < b < |keys| ==> keys[a] != keys[b])
            && (forall a, b :: 0 <= a < b < |keys| ==>
                  FirstIndex(Keys(list, loc), keys[a]) < FirstIndex(Keys(list, loc), keys[b]))
  {
    DistinctInFirstAppearanceOrder(Keys(list, loc));
    assert forall j :: 0 <= j < |list| ==> Keys(list, loc)[j] in Keys(list, loc);
  }

  /** The shape of `transformForecast`'s result on a well-formed list: one
      summary for each of the first five day keys, in their order. */
  lemma ForecastDays(data: Option<ForecastPayload>, loc: Locale)
    requires data.Some? && data.value.list.Some? && AllComplete(data.value.list.value)
    ensures var list := data.value.list.value;
            var keys := DayKeys(list, loc);
            var r := ForecastSpec(data, loc);
            && r.Ok?
            && |r.value| == (if |keys| < MaxDays then |keys| else MaxDays)
            && (forall i :: 0 <= i < |r.value| ==> r.value[i] == DaySummary(list, keys[i], loc))
  {
  }
}
