/** How the settings page's actions relate to each other. */
module SettingsProperties {
  import opened Wrappers
  import opened JsValues
  import opened App
  import opened Settings

  /** On the slider's integer positions: 0..2 is safe, 8..10 is fast, 3..7 (0.3 and 0.7 included) is balanced. */
  lemma SliderCategories(value: int)
    ensures Classify(PreferenceOf(value)) == Safe <==> value <= 2
    ensures Classify(PreferenceOf(value)) == Fast <==> value >= 8
    ensures Classify(PreferenceOf(value)) == Balanced <==> 3 <= value <= 7
  {
  }

  /** Saving divides the slider value by 10 and loading multiplies by 10 and rounds: integers survive the trip. */
  lemma SliderRoundTrip(value: int)
    ensures Round(PreferenceOf(value) * 10.0) == value
  {
    assert PreferenceOf(value) * 10.0 == value as real;
    RoundOfInteger(value);
  }

  /** Loading right after saving gives back the page as it was, when it has a location and a current description. */
  lemma LoadAfterSave(s: State)
    requires s.page.location.Some?
    requires s.page.info == Classify(PreferenceOf(s.page.preferenceValue))
    ensures LoadSettings(SaveSettings(s)).page == s.page
  {
    SliderRoundTrip(s.page.preferenceValue);
  }

  /** Without a page location, loading after saving restores everything but the location, which comes from before. */
  lemma LoadAfterSaveWithoutLocation(s: State)
    requires s.page.location.None?
    requires s.page.info == Classify(PreferenceOf(s.page.preferenceValue))
    ensures LoadSettings(SaveSettings(s)).page == s.page.(location := LoadedLocation(s))
  {
    SliderRoundTrip(s.page.preferenceValue);
  }

  /** Confirming a reset and then saving stores exactly the app's default preferences. */
  lemma ResetThenSaveStoresDefaults(s: State)
    ensures SaveSettings(ResetSettings(s, true)).storage.preferences == Some(DefaultPreferences)
    ensures SaveSettings(ResetSettings(s, true)).global.preferences == DefaultPreferences
  {
  }

  /** Resetting twice is the same as resetting once. */
  lemma ResetIdempotent(s: State, confirmed: bool)
    ensures ResetSettings(ResetSettings(s, confirmed), confirmed) == ResetSettings(s, confirmed)
  {
  }

  /** Changing the start and the end of the window are independent of each other. */
  lemma WorkWindowChangesCommute(s: State, start: string, end: string)
    ensures OnWorkEndChange(OnWorkStartChange(s, start), end) == OnWorkStartChange(OnWorkEndChange(s, end), start)
  {
  }

  /** Saving twice writes the same as saving once. */
  lemma SaveIdempotent(s: State)
    ensures SaveSettings(SaveSettings(s)) == SaveSettings(s)
  {
  }

  /** On a first launch (nothing stored, the app's initial global data) loading shows exactly the page's built-in defaults. */
  lemma FirstLoadKeepsPageDefaults()
    ensures LoadSettings(State(InitialPage, Storage(None, None), InitialGlobalData)).page == InitialPage
  {
  }
}
