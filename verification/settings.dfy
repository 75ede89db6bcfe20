/**
 The settings page: a slider for the preference (0..10, stored as 0..1),
 two time pickers for the work window, and the save and reset actions.
 Local storage and `globalData` are plain fields of the state; every page
 action is a function from state to state.
 */
module Settings {
  import opened Wrappers
  import opened JsValues
  import opened App

  /** The three descriptions the page shows for the preference. */
  datatype Category = Safe | Fast | Balanced

  datatype Page = Page(
    preferenceValue: int,
    workStart: string,
    workEnd: string,
    location: Option<Location>,
    info: Category)

  /** The two storage keys; None when nothing was stored under the key. */
  datatype Storage = Storage(preferences: Option<Preferences>, location: Option<Location>)

  datatype State = State(page: Page, storage: Storage, global: GlobalData)

  /** The page before it loads anything. */
  const InitialPage: Page := Page(5, "08:00", "19:00", None, Balanced)

  const SafeBelow: real := 0.3
  const FastAbove: real := 0.7

  /** The stored preference a slider value stands for: `preferenceValue / 10`. */
  function PreferenceOf(value: int): real {
    value as real / 10.0
  }

  /** `updatePreferenceInfo`: safe below 0.3, fast above 0.7, balanced in between, both bounds included. */
  function Classify(p: real): (c: Category)
    ensures c == Safe <==> p < SafeBelow
    ensures c == Fast <==> p > FastAbove
    ensures c == Balanced <==> SafeBelow <= p <= FastAbove
  {
    if p < SafeBelow then Safe else if p > FastAbove then Fast else Balanced
  }

  function UpdateInfo(page: Page): (r: Page)
    ensures r.info == Classify(PreferenceOf(page.preferenceValue))
    ensures r.(info := page.info) == page
  {
    page.(info := Classify(PreferenceOf(page.preferenceValue)))
  }

  /** `getStorageSync('preferences') || globalData.preferences`. */
  function LoadedPreferences(s: State): Preferences {
    s.storage.preferences.GetOr(s.global.preferences)
  }

  /** `getStorageSync('location') || globalData.location`. */
  function LoadedLocation(s: State): Option<Location> {
    if s.storage.location.Some? then s.storage.location else s.global.location
  }

  /** `loadSettings`: the stored (or global) preferences and location, with the preference scaled to the slider. */
  function LoadSettings(s: State): (r: State)
    ensures r.storage == s.storage && r.global == s.global
    ensures r.page.workStart == LoadedPreferences(s).workStart
    ensures r.page.workEnd == LoadedPreferences(s).workEnd
    ensures var v := LoadedPreferences(s).preference * 10.0;
      v - 0.5 < r.page.preferenceValue as real <= v + 0.5
    ensures s.storage.location.Some? ==> r.page.location == s.storage.location
    ensures s.storage.location.None? ==> r.page.location == s.global.location
    ensures r.page.info == Classify(PreferenceOf(r.page.preferenceValue))
  {
    var prefs := LoadedPreferences(s);
    var page := s.page.(
      preferenceValue := Round(prefs.preference * 10.0),
      workStart := prefs.workStart,
      workEnd := prefs.workEnd,
      location := LoadedLocation(s));
    s.(page := UpdateInfo(page))
  }

  /** `onPreferenceChange`: the slider moves and the description follows it. */
  function OnPreferenceChange(s: State, value: int): (r: State)
    ensures r.page.preferenceValue == value
    ensures r.page.info == Classify(PreferenceOf(value))
    ensures r.page.workStart == s.page.workStart && r.page.workEnd == s.page.workEnd
    ensures r.page.location == s.page.location
    ensures r.storage == s.storage && r.global == s.global
  {
    s.(page := UpdateInfo(s.page.(preferenceValue := value)))
  }

  /** `onWorkStartChange`: only the start of the window changes. */
  function OnWorkStartChange(s: State, value: string): (r: State)
    ensures r.page.workStart == value
    ensures r.page.(workStart := s.page.workStart) == s.page
    ensures r.storage == s.storage && r.global == s.global
  {
    s.(page := s.page.(workStart := value))
  }

  /** `onWorkEndChange`: only the end of the window changes. */
  function OnWorkEndChange(s: State, value: string): (r: State)
    ensures r.page.workEnd == value
    ensures r.page.(workEnd := s.page.workEnd) == s.page
    ensures r.storage == s.storage && r.global == s.global
  {
    s.(page := s.page.(workEnd := value))
  }

  /** The preferences `saveSettings` writes. */
  function PagePreferences(page: Page): Preferences {
    Preferences(page.workStart, page.workEnd, PreferenceOf(page.preferenceValue))
  }

  /**
   `saveSettings`: the preferences always go to storage and to globalData;
   the location only when the page has one, otherwise both keep the old one.
   */
  function SaveSettings(s: State): (r: State)
    ensures r.page == s.page
    ensures r.storage.preferences == Some(Preferences(s.page.workStart, s.page.workEnd, s.page.preferenceValue as real / 10.0))
    ensures r.global.preferences == Preferences(s.page.workStart, s.page.workEnd, s.page.preferenceValue as real / 10.0)
    ensures s.page.location.Some? ==> r.storage.location == s.page.location && r.global.location == s.page.location
    ensures s.page.location.None? ==> r.storage.location == s.storage.location && r.global.location == s.global.location
  {
    var prefs := PagePreferences(s.page);
    var storage := s.storage.(preferences := Some(prefs));
    var global := s.global.(preferences := prefs);
    if s.page.location.Some? then
      s.(storage := storage.(location := s.page.location), global := global.(location := s.page.location))
    else
      s.(storage := storage, global := global)
  }

  /**
   `resetSettings`: once the user confirms, the page goes back to 08:00-19:00
   and a balanced preference; nothing is written to storage or globalData
   until the user saves.
   */
  function ResetSettings(s: State, confirmed: bool): (r: State)
    ensures !confirmed ==> r == s
    ensures confirmed ==> r.page.preferenceValue == 5 && r.page.workStart == "08:00" && r.page.workEnd == "19:00"
    ensures confirmed ==> r.page.info == Balanced && r.page.location == s.page.location
    ensures r.storage == s.storage && r.global == s.global
  {
    if confirmed then
      s.(page := UpdateInfo(s.page.(preferenceValue := 5, workStart := "08:00", workEnd := "19:00")))
    else s
  }
}
