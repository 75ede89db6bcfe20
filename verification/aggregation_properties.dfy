/** What `processForecast` promises about each day it summarises. */
module AggregationProperties {
  import opened Wrappers
  import opened JsValues
  import opened Seqs
  import opened Text
  import opened App
  import opened Aggregation
  import DI = DryingIndex

  /** The output follows the daily arrays: one entry per maximum temperature, dated with the same index of `daily.time`. */
  lemma DaysFollowDailyArrays(payload: Payload, prefs: Preferences)
    requires payload.daily.time.Some?
    ensures ProcessForecast(payload, prefs).Ok?
    ensures |ProcessForecast(payload, prefs).value| == |payload.daily.tempMax|
    ensures forall i :: 0 <= i < |payload.daily.tempMax| && i < |payload.daily.time.value| ==>
      ProcessForecast(payload, prefs).value[i].date == Some(payload.daily.time.value[i])
    ensures forall i :: |payload.daily.time.value| <= i < |payload.daily.tempMax| ==>
      ProcessForecast(payload, prefs).value[i].date == None
  {
  }

  /** Daily values default when falsy, so a stored 0 is replaced as well as a missing or NaN value. */
  lemma DailyDefaults(payload: Payload, i: int, prefs: Preferences)
    ensures var d, daily := BuildDay(payload, i, prefs), payload.daily;
      && (Truthy(At(daily.tempMax, i)) ==> d.maxTemp == At(daily.tempMax, i).x)
      && (!Truthy(At(daily.tempMax, i)) ==> d.maxTemp == 20.0)
      && (Truthy(At(daily.tempMin, i)) ==> d.minTemp == At(daily.tempMin, i).x)
      && (!Truthy(At(daily.tempMin, i)) ==> d.minTemp == 20.0)
      && (Truthy(At(daily.precipitationSum, i)) ==> d.totalPrecipitation == At(daily.precipitationSum, i).x)
      && (!Truthy(At(daily.precipitationSum, i)) ==> d.totalPrecipitation == 0.0)
  {
  }

  /** Because 0 is falsy, a day with a minimum of 0 degrees gets a minimum of 20, above a maximum of 5. */
  lemma ZeroMinimumExceedsMaximum(prefs: Preferences)
    ensures var payload := Payload(
        HourlySeries([], [], [], [], [], [], [], []),
        DailySeries(Some(["2024-01-15"]), [Num(5.0)], [Num(0.0)], [], [], []));
      var d := BuildDay(payload, 0, prefs);
      d.minTemp == 20.0 && d.maxTemp == 5.0 && d.avgTemp == 12.5
  {
    var payload := Payload(
        HourlySeries([], [], [], [], [], [], [], []),
        DailySeries(Some(["2024-01-15"]), [Num(5.0)], [Num(0.0)], [], [], []));
    assert Samples(payload.hourly) == [];
    assert DayHourly([], "2024-01-15") == [];
    assert Temperatures([]) == [];
  }

  /** The day's hours are exactly the zipped samples whose timestamp starts with the day's date. */
  lemma DayHoursAreThoseOfTheDate(payload: Payload, i: int, prefs: Preferences)
    ensures var d := BuildDay(payload, i, prefs);
      forall h :: h in d.hourly <==> h in Samples(payload.hourly) && StartsWith(h.time, DayKey(payload.daily, i))
  {
  }

  /** The work hours are exactly the day's hours whose `HH:MM` lies between workStart and workEnd inclusive. */
  lemma WorkHoursAreThoseInTheWindow(payload: Payload, i: int, prefs: Preferences)
    ensures var d := BuildDay(payload, i, prefs);
      forall h :: h in d.work <==>
        h in d.hourly && AtMost(prefs.workStart, TimeOfDay(h.time)) && AtMost(TimeOfDay(h.time), prefs.workEnd)
  {
  }

  /** Each average is the mean of the numbers among the day's hours (their sum over their count), with a fixed fallback when there are none. */
  lemma DayAverages(payload: Payload, i: int, prefs: Preferences)
    ensures var d := BuildDay(payload, i, prefs);
      var temps, hums, winds, clouds, vpds :=
        Numbers(Temperatures(d.hourly)), Numbers(Humidities(d.hourly)), Numbers(Winds(d.hourly)),
        Numbers(Clouds(d.hourly)), Numbers(Vpds(d.hourly));
      && (temps == [] ==> d.avgTemp == (d.maxTemp + d.minTemp) / 2.0)
      && (temps != [] ==> Min(temps) <= d.avgTemp <= Max(temps))
      && (temps != [] ==> d.avgTemp == Sum(temps) / (|temps| as real))
      && (hums == [] ==> d.avgHumidity == 50.0)
      && (hums != [] ==> Min(hums) <= d.avgHumidity <= Max(hums))
      && (hums != [] ==> d.avgHumidity == Sum(hums) / (|hums| as real))
      && (winds == [] ==> d.avgWind == (OrDefault(At(payload.daily.windMax, i), 10.0) + OrDefault(At(payload.daily.windMin, i), 5.0)) / 2.0)
      && (winds != [] ==> Min(winds) <= d.avgWind <= Max(winds))
      && (winds != [] ==> d.avgWind == Sum(winds) / (|winds| as real))
      && (clouds == [] ==> d.avgCloud == 50.0)
      && (clouds != [] ==> Min(clouds) <= d.avgCloud <= Max(clouds))
      && (clouds != [] ==> d.avgCloud == Sum(clouds) / (|clouds| as real))
      && (vpds == [] ==> d.avgVpd == 1.0)
      && (vpds != [] ==> Min(vpds) <= d.avgVpd <= Max(vpds))
      && (vpds != [] ==> d.avgVpd == Sum(vpds) / (|vpds| as real))
  {
  }

  /** Without any hourly data every average takes its fallback and there is no rain alert. */
  lemma NoHourlyDataUsesFallbacks(payload: Payload, i: int, prefs: Preferences)
    requires payload.hourly.time == []
    ensures var d := BuildDay(payload, i, prefs);
      && d.hourly == [] && d.work == []
      && d.avgTemp == (d.maxTemp + d.minTemp) / 2.0
      && d.avgHumidity == 50.0
      && d.avgWind == (OrDefault(At(payload.daily.windMax, i), 10.0) + OrDefault(At(payload.daily.windMin, i), 5.0)) / 2.0
      && d.avgCloud == 50.0
      && d.avgVpd == 1.0
      && !d.rainAlert
      && d.rainProbability == 0.0
  {
    var d := BuildDay(payload, i, prefs);
    assert Samples(payload.hourly) == [];
    assert d.hourly == [];
    assert d.work == [];
  }

  /** The rain alert is raised exactly when the highest work-hour precipitation probability exceeds 50. */
  lemma {:induction false} RainAlertIffMaxAboveThreshold(work: seq<Sample>)
    ensures RainAlert(work) <==> MaxRainChance(work) > RainAlertThreshold
  {
    if RainAlert(work) {
      var i :| 0 <= i < |work| && RainChance(work[i]) > RainAlertThreshold;
      assert RainChance(work[i]) <= MaxRainChance(work);
    }
  }

  /** Each day's rain alert and rain probability describe its work hours, with a missing probability counted as 0. */
  lemma DayRainFields(payload: Payload, i: int, prefs: Preferences)
    ensures var d := BuildDay(payload, i, prefs);
      && (d.rainAlert <==> exists k :: 0 <= k < |d.work| && RainChance(d.work[k]) > 50.0)
      && 0.0 <= d.rainProbability
      && (forall k :: 0 <= k < |d.work| ==> RainChance(d.work[k]) <= d.rainProbability)
      && (d.rainAlert <==> d.rainProbability > 50.0)
  {
    var d := BuildDay(payload, i, prefs);
    RainAlertIffMaxAboveThreshold(d.work);
  }

  /** Rain in the work window or any precipitation for the day makes the advice red "rain", whatever the index. */
  lemma RecommendationPriority(rainAlert: bool, totalPrecipitation: real, index: real)
    ensures var a := Recommend(rainAlert, totalPrecipitation, index);
      && (rainAlert || totalPrecipitation > 0.0 ==> a == RainExpected && ColorOf(a) == Red)
      && (!rainAlert && totalPrecipitation <= 0.0 && index >= 60.0 ==> a == DriesFast && ColorOf(a) == Green)
      && (!rainAlert && totalPrecipitation <= 0.0 && 30.0 <= index < 60.0 ==> a == DriesSlowly && ColorOf(a) == Orange)
      && (!rainAlert && totalPrecipitation <= 0.0 && index < 30.0 ==> a == DryIndoors && ColorOf(a) == Red)
  {
  }

  /** Green is shown only for a dry day (no alert, no precipitation) with an index of at least 60, and always then. */
  lemma GreenMeansDryAndFast(rainAlert: bool, totalPrecipitation: real, index: real)
    ensures ColorOf(Recommend(rainAlert, totalPrecipitation, index)) == Green
        <==> !rainAlert && totalPrecipitation <= 0.0 && index >= 60.0
  {
  }

  /** A green day has no work hour above 50% rain probability and an index of at least 60. */
  lemma GreenDay(payload: Payload, i: int, prefs: Preferences)
    ensures var d := BuildDay(payload, i, prefs);
      d.color == Green ==>
      && d.advice == DriesFast
      && d.totalPrecipitation <= 0.0
      && 60.0 <= d.dryingIndex <= 100.0
      && d.rainProbability <= 50.0
      && forall k :: 0 <= k < |d.work| ==> RainChance(d.work[k]) <= 50.0
  {
    var d := BuildDay(payload, i, prefs);
    GreenMeansDryAndFast(d.rainAlert, d.totalPrecipitation, d.dryingIndex);
    RainAlertIffMaxAboveThreshold(d.work);
  }

  /** For zero-padded clock times the string comparison of the window is the comparison of times of day. */
  lemma WindowIsClockInterval(h: Sample, workStart: string, workEnd: string)
    requires IsClockTime(workStart) && IsClockTime(workEnd) && IsClockTime(TimeOfDay(h.time))
    ensures InWindow(h, workStart, workEnd) <==>
      Minutes(workStart) <= Minutes(TimeOfDay(h.time)) <= Minutes(workEnd)
  {
    ClockTimeOrder(workStart, TimeOfDay(h.time));
    ClockTimeOrder(TimeOfDay(h.time), workEnd);
  }

  /** A window that would wrap past midnight selects no hour at all. */
  lemma ReversedWindowIsEmpty(day: seq<Sample>, workStart: string, workEnd: string)
    requires IsClockTime(workStart) && IsClockTime(workEnd) && Minutes(workEnd) < Minutes(workStart)
    requires forall k :: 0 <= k < |day| ==> IsClockTime(TimeOfDay(day[k].time))
    ensures WorkHours(day, workStart, workEnd) == []
  {
    var w := WorkHours(day, workStart, workEnd);
    if w != [] {
      var h := w[0];
      assert h in w;
      var k :| 0 <= k < |day| && day[k] == h;
      WindowIsClockInterval(h, workStart, workEnd);
    }
  }

  /** With the default preferences an hour is in the window exactly when it is between 08:00 and 19:00. */
  lemma DefaultWindow(h: Sample)
    requires IsClockTime(TimeOfDay(h.time))
    ensures InWindow(h, DefaultPreferences.workStart, DefaultPreferences.workEnd) <==>
      8 * 60 <= Minutes(TimeOfDay(h.time)) <= 19 * 60
  {
    assert Minutes("08:00") == 480;
    assert Minutes("19:00") == 1140;
    WindowIsClockInterval(h, "08:00", "19:00");
  }
}
