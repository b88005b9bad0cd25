/**
 * The theme provider: `isDarkMode`, mirrored into the `dark` class of the
 * document element and into the `neurostream-theme` key of local storage.
 */
module Theme {
  import opened Wrappers
  import opened Js

  const ThemeKey := "neurostream-theme"

  /** The value `toggleTheme` writes for a mode. */
  function StoredValue(isDark: bool): string {
    if isDark then "dark" else "light"
  }

  /**
   * The mode the load effect adopts from the saved value (`None` is the
   * `null` of a missing key): `'dark'` is dark, any other non-empty value is
   * light, and an empty or missing value adopts nothing.
   */
  function SavedMode(saved: Option<string>): (mode: Option<bool>)
    ensures mode.Some? <==> TruthyString(saved)
    ensures mode == Some(true) <==> saved == Some("dark")
    ensures mode == Some(false) <==> saved.Some? && saved.value != "" && saved.value != "dark"
  {
    if TruthyString(saved) then Some(saved.value == "dark") else None
  }

  /** What a toggle writes, a later load reads back as the same mode. */
  lemma StoredValueRoundTrip(isDark: bool)
    ensures SavedMode(Some(StoredValue(isDark))) == Some(isDark)
  {
  }

  class ThemeProvider {
    var isDarkMode: bool
    /** Whether `document.documentElement.classList` contains `'dark'`. */
    var documentDark: bool
    /** `localStorage`. */
    var storage: map<string, string>

    /** `useState(true)`: the provider starts dark, before the load effect runs. */
    constructor (storage: map<string, string>, documentDark: bool)
      ensures isDarkMode
      ensures this.storage == storage && this.documentDark == documentDark
    {
      isDarkMode := true;
      this.storage := storage;
      this.documentDark := documentDark;
    }

    /** `updateDocumentClass`: adds or removes the `dark` class. */
    method UpdateDocumentClass(isDark: bool)
      modifies this`documentDark
      ensures documentDark == isDark
    {
      documentDark := isDark;
    }

    /**
     * The mount effect: adopts the saved mode and sets the class to match it;
     * with nothing saved it sets the class to dark and leaves the mode alone.
     * Storage is only read.
     */
    method LoadTheme()
      modifies this`isDarkMode, this`documentDark
      ensures var mode := SavedMode(if ThemeKey in storage then Some(storage[ThemeKey]) else None);
        && isDarkMode == (if mode.Some? then mode.value else old(isDarkMode))
        && documentDark == (if mode.Some? then mode.value else true)
    {
      var savedTheme := if ThemeKey in storage then Some(storage[ThemeKey]) else None;
      if TruthyString(savedTheme) {
        var isDark := savedTheme.value == "dark";
        isDarkMode := isDark;
        UpdateDocumentClass(isDark);
      } else {
        UpdateDocumentClass(true);
      }
    }

    /** `toggleTheme`: flips the mode, and the class and the stored value follow it. */
    method ToggleTheme()
      modifies this`isDarkMode, this`documentDark, this`storage
      ensures isDarkMode == !old(isDarkMode)
      ensures documentDark == isDarkMode
      ensures storage == old(storage)[ThemeKey := StoredValue(isDarkMode)]
    {
      var newTheme := !isDarkMode;
      isDarkMode := newTheme;
      UpdateDocumentClass(newTheme);
      storage := storage[ThemeKey := StoredValue(newTheme)];
    }
  }

  /** The provider as it mounts: initial state, then the load effect. */
  method Mount(storage: map<string, string>, documentDark: bool) returns (p: ThemeProvider)
    ensures fresh(p) && p.storage == storage
    ensures p.documentDark == p.isDarkMode
    ensures ThemeKey in storage && storage[ThemeKey] == "dark" ==> p.isDarkMode
    ensures ThemeKey in storage && storage[ThemeKey] !in {"", "dark"} ==> !p.isDarkMode
    ensures (ThemeKey !in storage || storage[ThemeKey] == "") ==> p.isDarkMode
  {
    p := new ThemeProvider(storage, documentDark);
    p.LoadTheme();
  }

  /** Two toggles restore the mode and the class, and leave the stored value naming that mode. */
  method ToggleTwice(p: ThemeProvider)
    modifies p
    ensures p.isDarkMode == old(p.isDarkMode)
    ensures p.documentDark == p.isDarkMode
    ensures p.storage == old(p.storage)[ThemeKey := StoredValue(p.isDarkMode)]
  {
    p.ToggleTheme();
    p.ToggleTheme();
  }

  /** After a toggle, mounting a fresh provider over the same storage (a reload) shows the toggled mode. */
  method ReloadAfterToggle(p: ThemeProvider, documentDark: bool) returns (q: ThemeProvider)
    modifies p
    ensures fresh(q)
    ensures q.isDarkMode == p.isDarkMode == !old(p.isDarkMode)
    ensures q.documentDark == q.isDarkMode
  {
    p.ToggleTheme();
    q := Mount(p.storage, documentDark);
  }
}
