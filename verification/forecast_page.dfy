/**
 The forecast page: the list of day summaries with a display date added,
 the selected day, the work-hour helpers the page shows, and the text
 report. Date labels depend on today's date, so they come in as a function.
 */
module ForecastPage {
  import opened Wrappers
  import opened JsValues
  import opened Seqs
  import opened Aggregation

  /** A day summary with the `dateDisplay` field the page adds. */
  datatype Shown = Shown(forecast: DayForecast, dateDisplay: string)

  datatype Page = Page(forecasts: seq<Shown>, current: Option<Shown>)

  const InitialPage: Page := Page([], None)

  /**
   `processForecasts`: every summary is kept, in order, with only its display
   date added; the first one becomes the selected day (undefined for an empty list).
   */
  function ProcessForecasts(page: Page, input: seq<DayForecast>, dateLabel: Option<string> -> string): (r: Page)
    ensures |r.forecasts| == |input|
    ensures forall i :: 0 <= i < |input| ==>
      r.forecasts[i].forecast == input[i] && r.forecasts[i].dateDisplay == dateLabel(input[i].date)
    ensures |input| > 0 ==> r.current == Some(r.forecasts[0])
    ensures |input| == 0 ==> r.current == None
  {
    var shown := seq(|input|, i requires 0 <= i < |input| => Shown(input[i], dateLabel(input[i].date)));
    Page(shown, if |shown| > 0 then Some(shown[0]) else None)
  }

  /** `showForecastDetail`: selects `forecasts[index]` (undefined out of range) and changes nothing else. */
  function ShowForecastDetail(page: Page, index: int): (r: Page)
    ensures r.forecasts == page.forecasts
    ensures 0 <= index < |page.forecasts| ==> r.current == Some(page.forecasts[index])
    ensures !(0 <= index < |page.forecasts|) ==> r.current == None
  {
    page.(current := if 0 <= index < |page.forecasts| then Some(page.forecasts[index]) else None)
  }

  /** `.filter(v => v !== null && v !== undefined)`: unlike the aggregation, NaN is kept. */
  function Present(vals: seq<Value>): (r: seq<Value>)
    ensures |r| <= |vals|
    ensures forall v :: v in r <==> v in vals && !v.Absent?
  {
    Filter((v: Value) => !v.Absent?, vals)
  }

  /** `Math.max(...vals)` over values none of which is null: NaN wins, otherwise the largest number. */
  function SpreadMax(vals: seq<Value>): (r: Value)
    requires |vals| > 0 && forall i :: 0 <= i < |vals| ==> !vals[i].Absent?
    ensures r.NaN? <==> NaN in vals
    ensures r.Num? ==> r in vals && forall i :: 0 <= i < |vals| ==> vals[i].x <= r.x
    ensures !r.Absent?
  {
    if |vals| == 1 then vals[0]
    else
      assert forall i :: 1 <= i < |vals| ==> vals[i] == vals[1..][i - 1];
      Max2(vals[0], SpreadMax(vals[1..]))
  }

  /** `Math.min(...vals)` over values none of which is null: NaN wins, otherwise the smallest number. */
  function SpreadMin(vals: seq<Value>): (r: Value)
    requires |vals| > 0 && forall i :: 0 <= i < |vals| ==> !vals[i].Absent?
    ensures r.NaN? <==> NaN in vals
    ensures r.Num? ==> r in vals && forall i :: 0 <= i < |vals| ==> r.x <= vals[i].x
    ensures !r.Absent?
  {
    if |vals| == 1 then vals[0]
    else
      assert forall i :: 1 <= i < |vals| ==> vals[i] == vals[1..][i - 1];
      Min2(vals[0], SpreadMin(vals[1..]))
  }

  /** The `min-max` text of the helpers, or `N/A`. */
  datatype Range = NotAvailable | Span(lo: Value, hi: Value)

  /** The range of the values that are not null: `N/A` when there is none, NaN at both ends when one is NaN. */
  function ValueRange(vals: seq<Value>): (r: Range)
    ensures r.NotAvailable? <==> forall i :: 0 <= i < |vals| ==> vals[i].Absent?
    ensures r.Span? && NaN in vals ==> r.lo.NaN? && r.hi.NaN?
    ensures r.Span? && NaN !in vals ==>
      && r.lo.Num? && r.hi.Num? && r.lo.x <= r.hi.x
      && r.lo in vals && r.hi in vals
      && forall i :: 0 <= i < |vals| && vals[i].Num? ==> r.lo.x <= vals[i].x <= r.hi.x
  {
    var p := Present(vals);
    if |p| == 0 then
      assert forall i :: 0 <= i < |vals| ==> vals[i] !in p;
      NotAvailable
    else
      assert p[0] in vals;
      var lo, hi := SpreadMin(p), SpreadMax(p);
      assert forall i :: 0 <= i < |vals| && vals[i].Num? ==> vals[i] in p;
      Span(lo, hi)
  }

  /** `getWorkHourTempRange`: `N/A` without temperatures, otherwise the least and greatest work-hour temperature. */
  function WorkHourTempRange(work: seq<Sample>): (r: Range)
    ensures r.NotAvailable? <==> forall i :: 0 <= i < |work| ==> work[i].temperature.Absent?
    ensures r.Span? && (exists i :: 0 <= i < |work| && work[i].temperature.NaN?) ==> r.lo.NaN? && r.hi.NaN?
    ensures r.Span? && (forall i :: 0 <= i < |work| ==> !work[i].temperature.NaN?) ==>
      && r.lo.Num? && r.hi.Num? && r.lo.x <= r.hi.x
      && (exists i :: 0 <= i < |work| && work[i].temperature == r.lo)
      && (exists i :: 0 <= i < |work| && work[i].temperature == r.hi)
      && forall i :: 0 <= i < |work| && work[i].temperature.Num? ==> r.lo.x <= work[i].temperature.x <= r.hi.x
  {
    var vals := Temperatures(work);
    assert NaN in vals <==> exists i :: 0 <= i < |work| && work[i].temperature.NaN?;
    ValueRange(vals)
  }

  /** `getWorkHourHumidityRange`: `N/A` without humidities, otherwise the least and greatest work-hour humidity. */
  function WorkHourHumidityRange(work: seq<Sample>): (r: Range)
    ensures r.NotAvailable? <==> forall i :: 0 <= i < |work| ==> work[i].humidity.Absent?
    ensures r.Span? && (exists i :: 0 <= i < |work| && work[i].humidity.NaN?) ==> r.lo.NaN? && r.hi.NaN?
    ensures r.Span? && (forall i :: 0 <= i < |work| ==> !work[i].humidity.NaN?) ==>
      && r.lo.Num? && r.hi.Num? && r.lo.x <= r.hi.x
      && (exists i :: 0 <= i < |work| && work[i].humidity == r.lo)
      && (exists i :: 0 <= i < |work| && work[i].humidity == r.hi)
      && forall i :: 0 <= i < |work| && work[i].humidity.Num? ==> r.lo.x <= work[i].humidity.x <= r.hi.x
  {
    var vals := Humidities(work);
    assert NaN in vals <==> exists i :: 0 <= i < |work| && work[i].humidity.NaN?;
    ValueRange(vals)
  }

  function RainProbabilities(work: seq<Sample>): (r: seq<Value>)
    ensures |r| == |work| && forall i :: 0 <= i < |work| ==> r[i] == work[i].rainProbability
  {
    seq(|work|, i requires 0 <= i < |work| => work[i].rainProbability)
  }

  /** `getMaxRainProb`: 0 when no probability is present, otherwise the largest (NaN if one is NaN). */
  function MaxRainProb(work: seq<Sample>): (r: Value)
    ensures (forall i :: 0 <= i < |work| ==> work[i].rainProbability.Absent?) ==> r == Num(0.0)
    ensures (exists i :: 0 <= i < |work| && work[i].rainProbability.NaN?) ==> r.NaN?
    ensures ((forall i :: 0 <= i < |work| ==> !work[i].rainProbability.NaN?)
             && (exists i :: 0 <= i < |work| && !work[i].rainProbability.Absent?)) ==>
      && r.Num?
      && (exists i :: 0 <= i < |work| && work[i].rainProbability == r)
      && forall i :: 0 <= i < |work| && work[i].rainProbability.Num? ==> work[i].rainProbability.x <= r.x
  {
    var probs := RainProbabilities(work);
    var p := Present(probs);
    if |p| == 0 then
      assert forall i :: 0 <= i < |work| ==> probs[i] !in p;
      Num(0.0)
    else
      assert forall i :: 0 <= i < |work| && !probs[i].Absent? ==> probs[i] in p;
      var m := SpreadMax(p);
      assert m.Num? ==> m in probs;
      m
  }

  /** The report's lines; formatted numbers are kept as the numbers they format. */
  datatype Line =
    | Title
    | GeneratedAt
    | DateLine(display: string)
    | IndexLine(index: real)
    | AdviceLine(advice: Advice)
    | TemperatureLine(min: real, max: real)
    | HumidityLine(humidity: real)
    | RainProbabilityLine(probability: real)
    | RainRiskLine
    | BlankLine

  /** The lines of one day; the rain-risk line is there exactly when the day has a rain alert. */
  function DayBlock(f: Shown): (r: seq<Line>)
    ensures RainRiskLine in r <==> f.forecast.rainAlert
    ensures |r| > 0 && r[0] == DateLine(f.dateDisplay)
  {
    var d := f.forecast;
    [DateLine(f.dateDisplay), IndexLine(d.dryingIndex), AdviceLine(d.advice),
     TemperatureLine(d.minTemp, d.maxTemp), HumidityLine(d.avgHumidity), RainProbabilityLine(d.rainProbability)]
    + (if d.rainAlert then [RainRiskLine] else [])
    + [BlankLine]
  }

  /** A day's block holds one rain-risk line with a rain alert and none without. */
  lemma DayBlockRiskCount(f: Shown)
    ensures multiset(DayBlock(f))[RainRiskLine] == if f.forecast.rainAlert then 1 else 0
  {
    var d := f.forecast;
    var head := [DateLine(f.dateDisplay), IndexLine(d.dryingIndex), AdviceLine(d.advice),
     TemperatureLine(d.minTemp, d.maxTemp), HumidityLine(d.avgHumidity), RainProbabilityLine(d.rainProbability)];
    assert RainRiskLine !in head;
    assert multiset(head)[RainRiskLine] == 0;
  }

  function Blocks(fs: seq<Shown>): seq<Line> {
    if |fs| == 0 then [] else DayBlock(fs[0]) + Blocks(fs[1..])
  }

  /** The number of days with a rain alert. */
  function AlertDays(fs: seq<Shown>): nat {
    if |fs| == 0 then 0 else (if fs[0].forecast.rainAlert then 1 else 0) + AlertDays(fs[1..])
  }

  /** `exportReport`: no report for an empty list, otherwise a title, the time and one block per day. */
  function ExportReport(page: Page): (r: Option<seq<Line>>)
    ensures r.None? <==> |page.forecasts| == 0
    ensures r.Some? ==> |r.value| >= 2 && r.value[..2] == [Title, GeneratedAt]
  {
    if |page.forecasts| == 0 then None
    else Some([Title, GeneratedAt] + Blocks(page.forecasts))
  }

  /** The blocks hold one rain-risk line per day with a rain alert. */
  lemma {:induction false} BlocksRiskLines(fs: seq<Shown>)
    ensures multiset(Blocks(fs))[RainRiskLine] == AlertDays(fs)
  {
    if |fs| > 0 {
      DayBlockRiskCount(fs[0]);
      BlocksRiskLines(fs[1..]);
    }
  }

  /** The report has a rain-risk line for exactly the days with a rain alert. */
  lemma ReportRiskLines(page: Page)
    requires |page.forecasts| > 0
    ensures multiset(ExportReport(page).value)[RainRiskLine] == AlertDays(page.forecasts)
  {
    BlocksRiskLines(page.forecasts);
  }

  /** The blocks of two lists of days, one after the other. */
  lemma {:induction false} BlocksAppend(fs: seq<Shown>, gs: seq<Shown>)
    ensures Blocks(fs + gs) == Blocks(fs) + Blocks(gs)
  {
    if |fs| == 0 {
      assert fs + gs == gs;
    } else {
      var b := DayBlock(fs[0]);
      assert (fs + gs)[0] == fs[0];
      assert (fs + gs)[1..] == fs[1..] + gs;
      assert Blocks(fs + gs) == b + Blocks(fs[1..] + gs);
      BlocksAppend(fs[1..], gs);
      assert Blocks(fs) == b + Blocks(fs[1..]);
    }
  }

  lemma SplitAt<T>(s: seq<T>, i: nat)
    requires i < |s|
    ensures s == s[..i] + s[i..]
    ensures s[i..] == [s[i]] + s[i + 1..]
  {
  }

  /** A single day's blocks are its own block. */
  lemma BlocksSingle(f: Shown)
    ensures Blocks([f]) == DayBlock(f)
  {
    assert [f][1..] == [];
  }

  /** The i-th day's block sits in the report right after the earlier days' blocks. */
  lemma BlocksSplit(fs: seq<Shown>, i: nat)
    requires i < |fs|
    ensures Blocks(fs) == Blocks(fs[..i]) + DayBlock(fs[i]) + Blocks(fs[i + 1..])
  {
    var pre, rest, post := fs[..i], fs[i..], fs[i + 1..];
    SplitAt(fs, i);
    BlocksAppend(pre, rest);
    assert Blocks(fs) == Blocks(pre) + Blocks(rest);
    BlocksAppend([fs[i]], post);
    BlocksSingle(fs[i]);
    assert Blocks(rest) == DayBlock(fs[i]) + Blocks(post);
  }

  /** Selecting the first day after loading a list selects the same day the load selected. */
  lemma ShowFirstAfterProcess(page: Page, input: seq<DayForecast>, dateLabel: Option<string> -> string)
    ensures ShowForecastDetail(ProcessForecasts(page, input, dateLabel), 0) == ProcessForecasts(page, input, dateLabel)
  {
  }

  /** Before anything is loaded there is nothing to export; after a load, there is a report unless the list was empty. */
  lemma ExportAfterLoad(input: seq<DayForecast>, dateLabel: Option<string> -> string)
    ensures ExportReport(InitialPage).None?
    ensures ExportReport(ProcessForecasts(InitialPage, input, dateLabel)).None? <==> input == []
  {
  }
}
