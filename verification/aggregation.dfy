/**
 `processForecast`: turns the weather provider's parallel hourly and daily
 arrays into one summary per day, with averaged metrics, the drying index,
 a rain alert for the work window and a recommendation.
 */
module Aggregation {
  import opened Wrappers
  import opened JsValues
  import opened Seqs
  import opened Text
  import opened App
  import DI = DryingIndex

  /** The hourly arrays; an array missing from the payload is the empty sequence. */
  datatype HourlySeries = HourlySeries(
    time: seq<string>,
    temperature: seq<Value>,
    humidity: seq<Value>,
    wind: seq<Value>,
    cloud: seq<Value>,
    precipitation: seq<Value>,
    vpd: seq<Value>,
    rainProbability: seq<Value>)

  /** The daily arrays; `time` is None when the payload has no daily date array at all. */
  datatype DailySeries = DailySeries(
    time: Option<seq<string>>,
    tempMax: seq<Value>,
    tempMin: seq<Value>,
    windMax: seq<Value>,
    windMin: seq<Value>,
    precipitationSum: seq<Value>)

  datatype Payload = Payload(hourly: HourlySeries, daily: DailySeries)

  /** One hour of the forecast, with the values found at the same index of each hourly array. */
  datatype Sample = Sample(
    time: string,
    temperature: Value,
    humidity: Value,
    wind: Value,
    cloud: Value,
    precipitation: Value,
    vpd: Value,
    rainProbability: Value)

  datatype Color = Red | Orange | Green

  /** The four recommendations, in the order the app tries them. */
  datatype Advice =
    | RainExpected   // not recommended: rain
    | DriesFast      // suitable: dries fast
    | DriesSlowly    // use caution: dries slowly
    | DryIndoors     // unsuitable: dry indoors

  datatype DayForecast = DayForecast(
    date: Option<string>,
    maxTemp: real,
    minTemp: real,
    avgTemp: real,
    avgHumidity: real,
    avgWind: real,
    avgCloud: real,
    avgVpd: real,
    rainProbability: real,
    totalPrecipitation: real,
    dryingIndex: real,
    advice: Advice,
    color: Color,
    rainAlert: bool,
    hourly: seq<Sample>,
    work: seq<Sample>)

  /** `daily.time` is read for the first day while absent, which throws. */
  datatype ForecastError = MissingDailyTime

  const DefaultMaxTemp: real := 20.0
  const DefaultMinTemp: real := 20.0
  const DefaultMaxWind: real := 10.0
  const DefaultMinWind: real := 5.0
  const DefaultPrecipitation: real := 0.0
  const FallbackHumidity: real := 50.0
  const FallbackCloud: real := 50.0
  const FallbackVpd: real := 1.0
  /** A work-window hour whose precipitation probability exceeds this raises the rain alert. */
  const RainAlertThreshold: real := 50.0
  const FastDryingIndex: real := 60.0
  const SlowDryingIndex: real := 30.0

  /** `(array || [])[i]`: reading past the end of an array yields undefined. */
  function At(xs: seq<Value>, i: int): (v: Value)
    ensures 0 <= i < |xs| ==> v == xs[i]
    ensures !(0 <= i < |xs|) ==> v == Absent
  {
    if 0 <= i < |xs| then xs[i] else Absent
  }

  /** Zips the hourly arrays into samples, one per entry of `hourly.time`. */
  function Samples(h: HourlySeries): (r: seq<Sample>)
    ensures |r| == |h.time|
    ensures forall i :: 0 <= i < |r| ==>
      r[i] == Sample(h.time[i], At(h.temperature, i), At(h.humidity, i), At(h.wind, i), At(h.cloud, i),
                     At(h.precipitation, i), At(h.vpd, i), At(h.rainProbability, i))
  {
    seq(|h.time|, i requires 0 <= i < |h.time| =>
      Sample(h.time[i], At(h.temperature, i), At(h.humidity, i), At(h.wind, i), At(h.cloud, i),
             At(h.precipitation, i), At(h.vpd, i), At(h.rainProbability, i)))
  }

  /** The hours of one day: those whose timestamp starts with the day's date string. */
  function DayHourly(samples: seq<Sample>, day: string): (r: seq<Sample>)
    ensures |r| <= |samples|
    ensures forall h :: h in r <==> h in samples && StartsWith(h.time, day)
  {
    Filter((h: Sample) => StartsWith(h.time, day), samples)
  }

  /** `time.substring(11, 16)`: the `HH:MM` part of an ISO `YYYY-MM-DDTHH:MM` timestamp. */
  function TimeOfDay(time: string): (r: string)
    ensures |time| >= 16 ==> r == time[11..16]
    ensures |r| <= 5
  {
    Substring(time, 11, 16)
  }

  /** `workStart <= hour && hour <= workEnd`, comparing strings. */
  predicate InWindow(h: Sample, workStart: string, workEnd: string) {
    AtMost(workStart, TimeOfDay(h.time)) && AtMost(TimeOfDay(h.time), workEnd)
  }

  /** The hours of the day that fall in the inclusive work window. */
  function WorkHours(day: seq<Sample>, workStart: string, workEnd: string): (r: seq<Sample>)
    ensures |r| <= |day|
    ensures forall h :: h in r <==> h in day && InWindow(h, workStart, workEnd)
  {
    Filter((h: Sample) => InWindow(h, workStart, workEnd), day)
  }

  /** The numbers among the values, in order: null, undefined and NaN are dropped. */
  function Numbers(vals: seq<Value>): (r: seq<real>)
    ensures |r| <= |vals|
    ensures forall x :: x in r <==> Num(x) in vals
    ensures |r| == 0 <==> forall i :: 0 <= i < |vals| ==> !IsNumber(vals[i])
  {
    if |vals| == 0 then []
    else if IsNumber(vals[0]) then [vals[0].x] + Numbers(vals[1..])
    else
      assert forall i :: 1 <= i < |vals| ==> vals[i] == vals[1..][i - 1];
      Numbers(vals[1..])
  }

  /** The numbers of two runs of values, one after the other: `filter` keeps order and repeats. */
  lemma {:induction false} NumbersAppend(a: seq<Value>, b: seq<Value>)
    ensures Numbers(a + b) == Numbers(a) + Numbers(b)
  {
    if |a| == 0 {
      assert a + b == b;
    } else {
      assert (a + b)[1..] == a[1..] + b;
      NumbersAppend(a[1..], b);
    }
  }

  /** Each number occurs among the numbers exactly as often as it occurs among the values. */
  lemma {:induction false} NumbersCount(vals: seq<Value>, x: real)
    ensures multiset(Numbers(vals))[x] == multiset(vals)[Num(x)]
  {
    if |vals| > 0 {
      NumbersCount(vals[1..], x);
      assert vals == [vals[0]] + vals[1..];
      assert multiset(vals) == multiset([vals[0]]) + multiset(vals[1..]);
      if IsNumber(vals[0]) {
        assert Numbers(vals) == [vals[0].x] + Numbers(vals[1..]);
        assert multiset(Numbers(vals)) == multiset([vals[0].x]) + multiset(Numbers(vals[1..]));
      }
    }
  }

  /** The mean of the numbers among the values, or the fallback when there is none. */
  function Average(vals: seq<Value>, fallback: real): (r: real)
    ensures (forall i :: 0 <= i < |vals| ==> !IsNumber(vals[i])) ==> r == fallback
    ensures Numbers(vals) != [] ==> r == Sum(Numbers(vals)) / (|Numbers(vals)| as real)
    ensures Numbers(vals) != [] ==> Min(Numbers(vals)) <= r <= Max(Numbers(vals))
  {
    var xs := Numbers(vals);
    if |xs| == 0 then fallback
    else
      MeanAtMostMax(xs);
      MeanAtLeastMin(xs);
      Mean(xs)
  }

  function Temperatures(day: seq<Sample>): (r: seq<Value>)
    ensures |r| == |day| && forall i :: 0 <= i < |day| ==> r[i] == day[i].temperature
  {
    seq(|day|, i requires 0 <= i < |day| => day[i].temperature)
  }

  function Humidities(day: seq<Sample>): (r: seq<Value>)
    ensures |r| == |day| && forall i :: 0 <= i < |day| ==> r[i] == day[i].humidity
  {
    seq(|day|, i requires 0 <= i < |day| => day[i].humidity)
  }

  function Winds(day: seq<Sample>): (r: seq<Value>)
    ensures |r| == |day| && forall i :: 0 <= i < |day| ==> r[i] == day[i].wind
  {
    seq(|day|, i requires 0 <= i < |day| => day[i].wind)
  }

  function Clouds(day: seq<Sample>): (r: seq<Value>)
    ensures |r| == |day| && forall i :: 0 <= i < |day| ==> r[i] == day[i].cloud
  {
    seq(|day|, i requires 0 <= i < |day| => day[i].cloud)
  }

  function Vpds(day: seq<Sample>): (r: seq<Value>)
    ensures |r| == |day| && forall i :: 0 <= i < |day| ==> r[i] == day[i].vpd
  {
    seq(|day|, i requires 0 <= i < |day| => day[i].vpd)
  }

  /** `h.precipitation_probability || 0`: a missing, NaN or zero probability counts as 0. */
  function RainChance(h: Sample): (r: real)
    ensures h.rainProbability.Num? ==> r == h.rainProbability.x
    ensures !h.rainProbability.Num? ==> r == 0.0
  {
    OrDefault(h.rainProbability, 0.0)
  }

  /** `work.some(h => (h.precipitation_probability || 0) > 50)`. */
  function RainAlert(work: seq<Sample>): (r: bool)
    ensures r <==> exists i :: 0 <= i < |work| && RainChance(work[i]) > RainAlertThreshold
  {
    if |work| == 0 then false
    else if RainChance(work[0]) > RainAlertThreshold then true
    else
      assert forall i :: 1 <= i < |work| ==> work[i] == work[1..][i - 1];
      RainAlert(work[1..])
  }

  /** `Math.max(...work.map(h => h.precipitation_probability || 0), 0)`. */
  function MaxRainChance(work: seq<Sample>): (r: real)
    ensures 0.0 <= r
    ensures forall i :: 0 <= i < |work| ==> RainChance(work[i]) <= r
    ensures r == 0.0 || exists i :: 0 <= i < |work| && r == RainChance(work[i])
  {
    if |work| == 0 then 0.0
    else
      var rest := MaxRainChance(work[1..]);
      assert forall i :: 1 <= i < |work| ==> work[i] == work[1..][i - 1];
      if RainChance(work[0]) >= rest then RainChance(work[0])
      else
        assert rest == 0.0 || exists i :: 1 <= i < |work| && rest == RainChance(work[i]);
        rest
  }

  /** The recommendation: rain first, whatever the index; then the index thresholds 60 and 30. */
  function Recommend(rainAlert: bool, totalPrecipitation: real, index: real): Advice {
    if rainAlert || totalPrecipitation > 0.0 then RainExpected
    else if index >= FastDryingIndex then DriesFast
    else if index >= SlowDryingIndex then DriesSlowly
    else DryIndoors
  }

  function ColorOf(a: Advice): Color {
    match a
    case RainExpected => Red
    case DriesFast => Green
    case DriesSlowly => Orange
    case DryIndoors => Red
  }

  /** The date of day i: `daily.time[i]`, undefined past the end of the array. */
  function DateOf(daily: DailySeries, i: int): Option<string> {
    if daily.time.Some? && 0 <= i < |daily.time.value| then Some(daily.time.value[i]) else None
  }

  /** The string an hour's timestamp must start with: `startsWith(undefined)` looks for "undefined". */
  function DayKey(daily: DailySeries, i: int): string {
    DateOf(daily, i).GetOr("undefined")
  }

  /** The summary of day i of the daily arrays. */
  function BuildDay(payload: Payload, i: int, prefs: Preferences): DayForecast {
    var daily := payload.daily;
    var maxTemp := OrDefault(At(daily.tempMax, i), DefaultMaxTemp);
    var minTemp := OrDefault(At(daily.tempMin, i), DefaultMinTemp);
    var maxWind := OrDefault(At(daily.windMax, i), DefaultMaxWind);
    var minWind := OrDefault(At(daily.windMin, i), DefaultMinWind);
    var totalPrecip := OrDefault(At(daily.precipitationSum, i), DefaultPrecipitation);
    var day := DayHourly(Samples(payload.hourly), DayKey(daily, i));
    var avgTemp := Average(Temperatures(day), (maxTemp + minTemp) / 2.0);
    var avgHumidity := Average(Humidities(day), FallbackHumidity);
    var avgWind := Average(Winds(day), (maxWind + minWind) / 2.0);
    var avgCloud := Average(Clouds(day), FallbackCloud);
    var avgVpd := Average(Vpds(day), FallbackVpd);
    var work := WorkHours(day, prefs.workStart, prefs.workEnd);
    var rainAlert := RainAlert(work);
    var index := DI.Index(avgTemp, avgWind, avgVpd, avgHumidity, avgCloud, prefs.preference);
    var advice := Recommend(rainAlert, totalPrecip, index);
    DayForecast(DateOf(daily, i), maxTemp, minTemp, avgTemp, avgHumidity, avgWind, avgCloud, avgVpd,
                MaxRainChance(work), totalPrecip, index, advice, ColorOf(advice), rainAlert, day, work)
  }

  /** `processForecast`: one summary per entry of `daily.temperature_2m_max`, in order. */
  function ProcessForecast(payload: Payload, prefs: Preferences): (r: Result<seq<DayForecast>, ForecastError>)
    ensures r.Err? <==> payload.daily.time.None? && |payload.daily.tempMax| > 0
    ensures r.Ok? ==> |r.value| == |payload.daily.tempMax|
    ensures r.Ok? ==> forall i :: 0 <= i < |r.value| ==> r.value[i] == BuildDay(payload, i, prefs)
  {
    var n := |payload.daily.tempMax|;
    if payload.daily.time.None? && n > 0 then Err(MissingDailyTime)
    else Ok(seq(n, i requires 0 <= i < n => BuildDay(payload, i, prefs)))
  }
}
