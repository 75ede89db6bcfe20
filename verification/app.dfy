/** The process-wide state the app keeps in `globalData`, and its defaults. */
module App {
  import opened Wrappers

  /** The user's preferences: the inclusive work window and the safety/speed preference in [0, 1]. */
  datatype Preferences = Preferences(workStart: string, workEnd: string, preference: real)

  datatype Location = Location(lat: real, lon: real, address: string)

  /** What `globalData` holds that the modelled pages read and write. */
  datatype GlobalData = GlobalData(location: Option<Location>, preferences: Preferences)

  /** Work from 08:00 to 19:00 with a balanced preference: the app's initial preferences, also what the settings reset restores. */
  const DefaultPreferences: Preferences := Preferences("08:00", "19:00", 0.5)

  /** The state at launch: no location yet, default preferences. */
  const InitialGlobalData: GlobalData := GlobalData(None, DefaultPreferences)
}
