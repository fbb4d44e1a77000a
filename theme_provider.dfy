/** The light/dark switch of src/theme/ThemeProvider.tsx: the mode starts from the value
    stored under "learnflow-theme-mode" and every change is written back there. The stored
    value is a field (None when the key is absent); building the styling theme from the mode
    is not modelled. */
module ThemeProvider {
  import opened Wrappers

  const StorageKey := "learnflow-theme-mode"

  /** The mode a provider starts in: the stored text when it is non-empty, taken as it is
      (it is not checked to be "light" or "dark"), otherwise the default mode. */
  function InitialMode(stored: Option<string>, defaultMode: string): (r: string)
    ensures stored.Some? && stored.value != "" ==> r == stored.value
    ensures stored.None? || stored.value == "" ==> r == defaultMode
  {
    if stored.Some? && stored.value != "" then stored.value else defaultMode
  }

  /** The mode after `toggleTheme`: dark after light, light after anything else. */
  function Toggled(mode: string): (r: string)
    ensures r == "dark" <==> mode == "light"
    ensures r == "light" <==> mode != "light"
  {
    if mode == "light" then "dark" else "light"
  }

  /** Toggling twice restores light and dark; any other mode becomes dark. */
  lemma ToggleTwice(mode: string)
    ensures mode in ["light", "dark"] ==> Toggled(Toggled(mode)) == mode
    ensures mode !in ["light", "dark"] ==> Toggled(Toggled(mode)) == "dark"
  {
  }

  /** A mode written by a toggle is what the next provider starts in. */
  lemma ToggleSurvivesReload(mode: string, defaultMode: string)
    ensures InitialMode(Some(Toggled(mode)), defaultMode) == Toggled(mode)
  {
  }

  /** The provider's state, as one value. */
  datatype ThemeState = ThemeState(mode: string, stored: Option<string>)

  class Provider {
    var mode: string
    var stored: Option<string>

    function State(): ThemeState
      reads this
    {
      ThemeState(mode, stored)
    }

    /** The stored value is the current mode. */
    predicate Persisted()
      reads this
    {
      stored == Some(mode)
    }

    /** Mounting reads the stored value and writes nothing. */
    constructor(stored: Option<string>, defaultMode: string)
      ensures State() == ThemeState(InitialMode(stored, defaultMode), stored)
    {
      this.stored := stored;
      mode := if stored.Some? && stored.value != "" then stored.value else defaultMode;
    }

    /** `toggleTheme`: flip between light and dark, and store the new mode. */
    method ToggleTheme()
      modifies this
      ensures State() == ThemeState(Toggled(old(mode)), Some(Toggled(old(mode))))
      ensures Persisted() && mode in ["light", "dark"]
    {
      var newMode := if mode == "light" then "dark" else "light";
      stored := Some(newMode);
      mode := newMode;
    }

    /** `setThemeMode`: take the given mode and store it. */
    method SetThemeMode(newMode: string)
      modifies this
      ensures State() == ThemeState(newMode, Some(newMode))
      ensures Persisted()
    {
      mode := newMode;
      stored := Some(newMode);
    }
  }

  /** Two toggles from light come back to light, and the store says light. */
  method ToggleTwiceFromLight(p: Provider)
    requires p.mode == "light"
    modifies p
    ensures p.State() == ThemeState("light", Some("light"))
  {
    p.ToggleTheme();
    p.ToggleTheme();
  }
}
