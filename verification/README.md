# SkyDryCoach drying advice, modelled in Dafny

SkyDryCoach is a mini-program that tells its user whether to hang laundry
outside on each of the next five days. It fetches an hourly and daily
forecast and scores each day with a "drying index". The index is a linear
score over temperature, wind, vapour pressure deficit (VPD), humidity and
cloud cover, clamped to [0, 100]. The app then checks the user's work window
for rain and picks one of four recommendations with a colour.

This project models the part of the app that computes: `calculateDryingIndex`
and `processForecast` in `app.js`, the preference slider and the save/reset
actions of the settings page, and the list handling, work-hour helpers and
report of the forecast page. Everything is written as pure functions over
immutable datatypes:

- `wrappers.dfy`, module `Wrappers`: `Option` and `Result`.
- `js_values.dfy`, module `JsValues`: the JavaScript numbers in the weather arrays.
  `Value` is `Absent` (null or undefined), `NaN` or `Num(x)`. The module also
  holds `||` with a numeric default, `Math.round`, and two-argument
  `Math.min`/`Math.max`.
- `seqs.dfy`, module `Seqs`: `filter`, the sum, the mean, and the maximum and minimum
  of a sequence of reals.
- `text.dfy`, module `Text`: `startsWith`, `substring`, and JavaScript's string `<`
  and `<=`. These compare strings lexicographically; Dafny's `<` on sequences
  means "proper prefix", which is a different relation. The module also holds
  zero-padded `HH:MM` clock times and their minutes since midnight.
- `drying_index.dfy`, module `DryingIndex`: the weights, the raw score, the clamp and
  the index.
- `app.dfy`, module `App`: the preferences and location kept in `globalData`, and their
  defaults.
- `aggregation.dfy`, module `Aggregation`: `processForecast`. It zips the hourly
  arrays and selects each day's hours and work hours. It averages with
  fallbacks, computes the rain alert and maximum rain probability, and picks
  the recommendation and colour.
- `aggregation_properties.dfy`, module `AggregationProperties`: lemmas about each day
  that `processForecast` produces.
- `settings.dfy` and `settings_properties.dfy`, modules `Settings` and
  `SettingsProperties`: the settings page. Storage and `globalData` are
  plain fields of the page state. Every page action maps one state to the
  next.
- `forecast_page.dfy`, module `ForecastPage`: the forecast page's list, selected day,
  work-hour helpers and report.

Behaviours that a reader might not expect, all modelled as the code has them:

- The number of days is the length of `daily.temperature_2m_max`, not of
  `daily.time`. A day past the end of `daily.time` gets an undefined date.
  Its hours are then the hours whose timestamp starts with the text
  `"undefined"`, because `startsWith(undefined)` searches for that string.
  If `daily.time` is missing altogether and there is at least one day,
  reading it throws. `ProcessForecast` returns `Err(MissingDailyTime)` in
  that case; `index.js` catches the exception and shows an error.
- The daily values are defaulted with `||`, so a stored 0 counts as missing,
  just as null and NaN do. The lemma
  `AggregationProperties.ZeroMinimumExceedsMaximum` shows a day with a
  maximum of 5 °C and a minimum of 0 °C. The model gives it a minimum of
  20 °C, above its maximum, and an average temperature of 12.5 °C.
- The averages in `processForecast` drop null, undefined and NaN. The
  forecast page's helpers drop only null and undefined, so one NaN makes the
  page's whole range NaN.
- The work window compares `HH:MM` strings. `Text.ClockTimeOrder` proves that
  this is the order of the times of day, but only for zero-padded times.
  `AggregationProperties.ReversedWindowIsEmpty` proves that a window which
  would wrap past midnight selects no hour at all.

## Model

| member | source | states |
|---|---|---|
| `JsValues.OrDefault` | SkyDryCoach/app.js:179-183 | A logical-or default gives the number when it is truthy. It gives the default for null, undefined, NaN and 0. |
| `JsValues.Round` | SkyDryCoach/pages/settings/settings.js:33 | `Math.round` returns the integer within half a unit of x, with halves rounded up. |
| `JsValues.RoundOfInteger` | SkyDryCoach/pages/settings/settings.js:33 | Rounding an integer gives the same integer. |
| `Seqs.Filter` | SkyDryCoach/app.js:187 | `filter` keeps exactly the elements that satisfy the predicate, and never adds any. |
| `Seqs.FilterAppend` | SkyDryCoach/app.js:212-215 | Filtering distributes over concatenation, so the kept hours stay in their original order. |
| `Seqs.MeanAtMostMax` | SkyDryCoach/app.js:205-209 | An average is never above the largest value averaged. |
| `Seqs.MeanAtLeastMin` | SkyDryCoach/app.js:205-209 | An average is never below the smallest value averaged. |
| `Text.Substring` | SkyDryCoach/app.js:213 | `substring` on in-range indices is the slice between them, swapped when reversed. An index below 0 acts as 0 and one past the end as the end, so a short timestamp gives its tail and two indices on the same side outside the string give the empty string. |
| `Text.AtMostIsTotalOrder` | SkyDryCoach/app.js:214 | The string `<=` of the window test is reflexive, total, antisymmetric and transitive. |
| `Text.ClockTimeOrder` | SkyDryCoach/app.js:212-215 | On zero-padded `HH:MM` strings, `<` and `<=` agree with the order of minutes since midnight. |
| `DryingIndex.Index` | SkyDryCoach/app.js:137-150 | The index always lies in [0, 100]. It equals the raw linear score when that score is in range, 0 below it and 100 above it. |
| `DryingIndex.WeightsPositive` | SkyDryCoach/app.js:138-147 | For a preference in [0, 1], every weight is strictly positive and within its stated range. |
| `DryingIndex.WeightsShiftWithPreference` | SkyDryCoach/app.js:138-146 | A higher preference strictly raises the wind and VPD weights and strictly lowers the humidity and cloud weights. |
| `DryingIndex.ScoreIncreasesWithDryingConditions` | SkyDryCoach/app.js:140-146 | With non-negative temperature, wind and VPD weights, the linear score never falls when those inputs rise. |
| `DryingIndex.ScoreDecreasesWithHumidityAndCloud` | SkyDryCoach/app.js:140-146 | With non-negative humidity and cloud weights, the linear score never rises when humidity or cloud rise. |
| `DryingIndex.ScoreIncreasesWithWeights` | SkyDryCoach/app.js:140-146 | For non-negative inputs, raising the wind and VPD weights and lowering the humidity and cloud weights never lowers the score. |
| `DryingIndex.IndexIncreasesWithDryingConditions` | SkyDryCoach/app.js:141-149 | For a preference in [0, 1], the index never falls when temperature, wind or VPD rise. |
| `DryingIndex.IndexDecreasesWithHumidityAndCloud` | SkyDryCoach/app.js:141-149 | For a preference in [0, 1], the index never rises when humidity or cloud rise. |
| `DryingIndex.IndexIncreasesWithPreference` | SkyDryCoach/app.js:137-149 | With non-negative wind, VPD, humidity and cloud, a higher preference never lowers the index. |
| `DryingIndex.BalancedExample` | SkyDryCoach/app.js:137-150 | 25 °C, wind 10, VPD 1.5, 40 % humidity and 20 % cloud at preference 0.5 score 6.375. |
| `DryingIndex.SafetyFirstExample` | SkyDryCoach/app.js:137-150 | The same day at preference 0 scores -8.5 raw, which clamps to 0. |
| `Aggregation.At` | SkyDryCoach/app.js:165-171 | Reading an hourly array past its end, or a missing array, yields undefined. |
| `Aggregation.Samples` | SkyDryCoach/app.js:159-173 | There is one sample per hourly timestamp. Its fields are the entries at the same index of every hourly array. |
| `Aggregation.DayHourly` | SkyDryCoach/app.js:186-187 | A day's hours are exactly the samples whose timestamp starts with the day string. |
| `Aggregation.TimeOfDay` | SkyDryCoach/app.js:213 | For an ISO timestamp, the time of day is characters 11 to 15, i.e. `HH:MM`. |
| `Aggregation.WorkHours` | SkyDryCoach/app.js:212-215 | The work hours are exactly the day's hours with `workStart <= HH:MM <= workEnd`. |
| `Aggregation.Numbers` | SkyDryCoach/app.js:190-194 | The valid values are exactly the numbers among the inputs. The result is empty only when no input is a number. |
| `Aggregation.NumbersAppend` | SkyDryCoach/app.js:190-194 | The numbers of two runs of values are the numbers of the first followed by those of the second, so `filter` keeps the hours' order. |
| `Aggregation.NumbersCount` | SkyDryCoach/app.js:190-194 | Each number occurs among the kept values exactly as often as among the inputs, so repeated readings all count in the mean. |
| `Aggregation.Average` | SkyDryCoach/app.js:205-209 | Without a number, the average is the fallback. Otherwise it is the `reduce` sum of the numbers divided by their count, and lies between the least and greatest number. |
| `Aggregation.RainChance` | SkyDryCoach/app.js:217 | A missing, NaN or zero precipitation probability counts as 0. Any other number counts as itself. |
| `Aggregation.RainAlert` | SkyDryCoach/app.js:217 | The alert holds iff some work hour has a probability above 50. |
| `Aggregation.MaxRainChance` | SkyDryCoach/app.js:218 | The maximum is at least 0 and at least every work hour's probability. It is 0 or one of those probabilities. |
| `Aggregation.ProcessForecast` | SkyDryCoach/app.js:153-271 | The result is an error iff `daily.time` is missing and there is a day. Otherwise it has one entry per `temperature_2m_max` entry, entry i summarising day i. |
| `AggregationProperties.DaysFollowDailyArrays` | SkyDryCoach/app.js:175-186 | Entry i is dated `daily.time[i]`, or undefined past the end of `daily.time`. |
| `AggregationProperties.DailyDefaults` | SkyDryCoach/app.js:179-183 | Max and min temperature default to 20 and precipitation to 0 when falsy, a stored 0 included. |
| `AggregationProperties.ZeroMinimumExceedsMaximum` | SkyDryCoach/app.js:180 | A 0 °C minimum with a 5 °C maximum gives a minimum of 20 °C and an average of 12.5 °C. |
| `AggregationProperties.DayHoursAreThoseOfTheDate` | SkyDryCoach/app.js:186-187 | A day's hourly data are exactly the zipped samples whose timestamp starts with the day's date. |
| `AggregationProperties.WorkHoursAreThoseInTheWindow` | SkyDryCoach/app.js:212-215 | A day's work hours are exactly its hours whose `HH:MM` is within the inclusive window. |
| `AggregationProperties.DayAverages` | SkyDryCoach/app.js:187-209 | Each average is the sum of the day's valid values divided by their count, and lies within them. Without any, it falls back to (max+min)/2, 50, (maxWind+minWind)/2, 50 or 1.0. |
| `AggregationProperties.NoHourlyDataUsesFallbacks` | SkyDryCoach/app.js:205-218 | Without hourly data, every average takes its fallback, there is no alert and the rain probability is 0. |
| `AggregationProperties.RainAlertIffMaxAboveThreshold` | SkyDryCoach/app.js:217-218 | The rain alert holds iff the maximum work-hour probability exceeds 50. |
| `AggregationProperties.DayRainFields` | SkyDryCoach/app.js:217-218 | A day's alert and rain probability describe its work hours, with a missing probability counted as 0. |
| `AggregationProperties.RecommendationPriority` | SkyDryCoach/app.js:224-237 | An alert or precipitation above 0 gives red "rain" whatever the index. Otherwise index ≥ 60 gives green, ≥ 30 orange, and anything lower red "indoors". |
| `AggregationProperties.GreenMeansDryAndFast` | SkyDryCoach/app.js:224-237 | The colour is green iff there is no alert, precipitation is at most 0 and the index is at least 60. |
| `AggregationProperties.GreenDay` | SkyDryCoach/app.js:217-237 | A green day has no work hour above 50 %, a rain probability of at most 50 and an index in [60, 100]. |
| `AggregationProperties.WindowIsClockInterval` | SkyDryCoach/app.js:212-215 | With zero-padded times, an hour is in the window iff its minutes lie between the bounds' minutes. |
| `AggregationProperties.ReversedWindowIsEmpty` | SkyDryCoach/app.js:212-215 | A window whose end is before its start contains no hour. |
| `AggregationProperties.DefaultWindow` | SkyDryCoach/app.js:27-31 | Under the default preferences, an hour is in the window iff it is between 08:00 and 19:00 inclusive. |
| `Settings.Classify` | SkyDryCoach/pages/settings/settings.js:52-74 | Exactly one category: safe iff p < 0.3, fast iff p > 0.7, balanced iff 0.3 ≤ p ≤ 0.7. |
| `Settings.UpdateInfo` | SkyDryCoach/pages/settings/settings.js:52-77 | The shown category follows the slider value divided by 10, and nothing else on the page changes. |
| `Settings.LoadSettings` | SkyDryCoach/pages/settings/settings.js:28-40 | Stored preferences win over global ones. The slider is the rounded preference times 10. The location is the stored one, else the global one. |
| `Settings.OnPreferenceChange` | SkyDryCoach/pages/settings/settings.js:43-49 | The slider takes the new value, the category follows it, and nothing else changes. |
| `Settings.OnWorkStartChange` | SkyDryCoach/pages/settings/settings.js:80-84 | Only the window start changes. |
| `Settings.OnWorkEndChange` | SkyDryCoach/pages/settings/settings.js:87-91 | Only the window end changes. |
| `Settings.SaveSettings` | SkyDryCoach/pages/settings/settings.js:148-165 | The preferences always go to storage and global state, with the preference set to slider/10. The location is written only when the page has one. |
| `Settings.ResetSettings` | SkyDryCoach/pages/settings/settings.js:180-198 | On confirm, the page returns to 5, 08:00, 19:00 and balanced. Nothing is written. On cancel, nothing changes. |
| `SettingsProperties.SliderCategories` | SkyDryCoach/pages/settings/settings.js:53-74 | Slider values 0..2 are safe, 8..10 fast, and 3..7 balanced (0.3 and 0.7 included). |
| `SettingsProperties.SliderRoundTrip` | SkyDryCoach/pages/settings/settings.js:33 | An integer slider value, saved as value/10 and loaded as round(p*10), comes back unchanged. |
| `SettingsProperties.LoadAfterSave` | SkyDryCoach/pages/settings/settings.js:148-165 | With a location, loading right after saving restores the page exactly. |
| `SettingsProperties.LoadAfterSaveWithoutLocation` | SkyDryCoach/pages/settings/settings.js:161-165 | Without a location, the page is restored except its location, which is the one stored or global before. |
| `SettingsProperties.ResetThenSaveStoresDefaults` | SkyDryCoach/pages/settings/settings.js:185-196 | Confirming a reset and then saving stores exactly the app's default preferences. |
| `SettingsProperties.ResetIdempotent` | SkyDryCoach/pages/settings/settings.js:180-198 | Resetting twice is the same as resetting once. |
| `SettingsProperties.WorkWindowChangesCommute` | SkyDryCoach/pages/settings/settings.js:80-91 | Setting the start and setting the end give the same state in either order. |
| `SettingsProperties.SaveIdempotent` | SkyDryCoach/pages/settings/settings.js:148-165 | Saving twice is the same as saving once. |
| `SettingsProperties.FirstLoadKeepsPageDefaults` | SkyDryCoach/pages/settings/settings.js:5-40 | With nothing stored and the app's initial global data, loading shows exactly the page's built-in defaults: slider 5, 08:00 to 19:00, balanced, no location. |
| `ForecastPage.ProcessForecasts` | SkyDryCoach/pages/forecast/forecast.js:18-41 | Length, order and every summary are kept, with only a display date added. The first entry becomes the selected day. |
| `ForecastPage.ShowForecastDetail` | SkyDryCoach/pages/forecast/forecast.js:44-49 | The selected day becomes `forecasts[index]`, or undefined out of range. The list does not change. |
| `ForecastPage.ShowFirstAfterProcess` | SkyDryCoach/pages/forecast/forecast.js:37-49 | Selecting day 0 after loading a list leaves the page as loading left it. |
| `ForecastPage.ExportAfterLoad` | SkyDryCoach/pages/forecast/forecast.js:90-97 | Before a list is loaded there is nothing to export. After a load there is a report iff the list was not empty. |
| `ForecastPage.Present` | SkyDryCoach/pages/forecast/forecast.js:70 | The page's filter keeps exactly the values that are not null or undefined, NaN included. |
| `ForecastPage.SpreadMax` | SkyDryCoach/pages/forecast/forecast.js:72 | `Math.max(...)` is NaN iff some value is NaN. Otherwise it is one of the values and at least all of them. |
| `ForecastPage.SpreadMin` | SkyDryCoach/pages/forecast/forecast.js:72 | `Math.min(...)` is NaN iff some value is NaN. Otherwise it is one of the values and at most all of them. |
| `ForecastPage.ValueRange` | SkyDryCoach/pages/forecast/forecast.js:69-80 | `N/A` iff no value is present. With a NaN, both ends are NaN. Otherwise min ≤ max, both taken from the values and bounding all of them. |
| `ForecastPage.WorkHourTempRange` | SkyDryCoach/pages/forecast/forecast.js:69-73 | `N/A` iff no work hour has a temperature. With a NaN temperature both ends are NaN. Otherwise the ends are work-hour temperatures bounding all of them. |
| `ForecastPage.WorkHourHumidityRange` | SkyDryCoach/pages/forecast/forecast.js:76-80 | The same for humidity: `N/A` iff none is present, NaN at both ends with a NaN, otherwise the least and greatest humidity. |
| `ForecastPage.MaxRainProb` | SkyDryCoach/pages/forecast/forecast.js:83-87 | 0 when no probability is present, NaN when one is NaN. When some are present and none is NaN, it is a number, one of the probabilities, and at least every one. |
| `ForecastPage.DayBlock` | SkyDryCoach/pages/forecast/forecast.js:102-113 | A day's report lines start with its date. They contain the rain-risk line iff the day has a rain alert. |
| `ForecastPage.DayBlockRiskCount` | SkyDryCoach/pages/forecast/forecast.js:109-111 | A day's lines hold the rain-risk line once with an alert and never without one. |
| `ForecastPage.ExportReport` | SkyDryCoach/pages/forecast/forecast.js:90-113 | An empty list produces no report. Otherwise the report starts with the title and the generation time. |
| `ForecastPage.BlocksRiskLines` | SkyDryCoach/pages/forecast/forecast.js:102-113 | The day blocks hold as many rain-risk lines as there are days with a rain alert. |
| `ForecastPage.ReportRiskLines` | SkyDryCoach/pages/forecast/forecast.js:90-113 | The report holds one rain-risk line per day with a rain alert. |
| `ForecastPage.BlocksAppend` | SkyDryCoach/pages/forecast/forecast.js:102-113 | The report of two lists of days is the first list's lines followed by the second's. |
| `ForecastPage.BlocksSplit` | SkyDryCoach/pages/forecast/forecast.js:102-113 | Day i's lines come right after the lines of the days before it. |

## Left out

- Network I/O is not modelled: `fetchWeather`, `fetchOpenMeteoWeather`, `testWeatherAPI` and reverse geocoding. They are single `wx.request` calls with a fallback.
- `getMockWeatherData` is not modelled: it depends on `Math.random`, `Math.sin` and the current date.
- The date helpers are not modelled: `formatDate`, `getEndDate`, `getChineseWeekday`, `isToday` and `isTomorrow`. They use the platform's `Date`. The forecast page's display date is produced by a function parameter.
- `pages/index/index.js` is not modelled: it is permission, location, toast and navigation glue.
- The settings page's `updateLocation` is not modelled: it asks the platform for the position.
- `checkLoginStatus` and `getSystemInfo` are not modelled; they copy platform data into `globalData`.
- The display strings are not modelled: `toFixed`, `Math.round(...).toString()`, the `--` placeholders, the recommendation texts and the report text. The model keeps the numbers, a datatype for the four recommendations, and one datatype value per report line.
- Toasts, modals, `setData`, `console.log`, `navigateBack` and the timers are not modelled. Storage and `globalData` are plain fields of the state.
- The JSON transfer of the forecast list in the page URL is not modelled; it turns NaN into null.
- Floating point is modelled by `real`, with no rounding error and no infinities. The slider round trip and the 0.3/0.7 bounds are proved for exact arithmetic.
- String order is modelled on Unicode code points. JavaScript compares UTF-16 code units; the two differ only for characters outside the Basic Multilingual Plane, which cannot occur in `HH:MM` times.
- The default arguments of `processForecast` (work window 08:00 to 19:00, preference 0.5) and of `calculateDryingIndex` (preference 0.5) are not modelled: every caller passes all three preferences, so `Aggregation.ProcessForecast` and `DryingIndex.Index` take them as required parameters.
