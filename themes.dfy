/**
 * ThemeManager: the selected theme name and the dark-mode flag, the per-name
 * rule that sets the flag, and how both are saved to and loaded from the store.
 * The hour of day, read from the system clock by the app, is a parameter.
 */
module Themes {
  import opened Preferences

  const SYSTEM := "system"
  const LIGHT := "light"
  const DARK := "dark"
  const CUSTOM := "custom"

  /** From this hour of the day on, the "system" theme is dark. */
  const EVENING_HOUR := 18

  predicate IsHour(hour: int) {
    0 <= hour < 24
  }

  /** The two fields of a theme manager, as a value. */
  datatype ThemeState = ThemeState(theme: string, dark: bool)

  /**
   * The `when (theme)` rule shared by `setTheme` and `loadThemeSettings`:
   * "system" follows the hour, "light" and "dark" fix the flag, and every other
   * name leaves the flag at `otherwise`.
   */
  function DarkAfter(name: string, hour: int, otherwise: bool): (dark: bool)
    requires IsHour(hour)
    ensures name == SYSTEM ==> (dark <==> hour >= EVENING_HOUR)
    ensures name == LIGHT ==> !dark
    ensures name == DARK ==> dark
    ensures name != SYSTEM && name != LIGHT && name != DARK ==> dark == otherwise
  {
    if name == SYSTEM then hour >= EVENING_HOUR
    else if name == LIGHT then false
    else if name == DARK then true
    else otherwise
  }

  /**
   * `setTheme(name)` on the fields: the name is always taken, including names
   * it does not know; "custom" and unknown names keep the current flag.
   */
  function Applied(s: ThemeState, name: string, hour: int): (r: ThemeState)
    requires IsHour(hour)
    ensures r.theme == name
    ensures name == SYSTEM ==> (r.dark <==> hour >= EVENING_HOUR)
    ensures name == LIGHT ==> !r.dark
    ensures name == DARK ==> r.dark
    ensures name != SYSTEM && name != LIGHT && name != DARK ==> r.dark == s.dark
  {
    ThemeState(name, DarkAfter(name, hour, s.dark))
  }

  /**
   * What `loadThemeSettings` can read without an exception: the theme key holds
   * text or nothing, and when the stored theme is "custom" the flag key holds a
   * boolean or nothing.
   */
  predicate ThemeReadable(entries: map<string, Stored>) {
    && (THEME_KEY in entries ==> entries[THEME_KEY].Text?)
    && (StoredTheme(entries) == CUSTOM && CUSTOM_IS_DARK_KEY in entries ==> entries[CUSTOM_IS_DARK_KEY].Flag?)
  }

  /** `getString("theme", "system")`. */
  function StoredTheme(entries: map<string, Stored>): (t: string)
    ensures THEME_KEY !in entries ==> t == SYSTEM
    ensures THEME_KEY in entries && entries[THEME_KEY].Text? ==> t == entries[THEME_KEY].s
  {
    if THEME_KEY in entries && entries[THEME_KEY].Text? then entries[THEME_KEY].s else SYSTEM
  }

  /** `getBoolean("customIsDark", false)`. */
  function StoredCustomDark(entries: map<string, Stored>): (b: bool)
    ensures CUSTOM_IS_DARK_KEY !in entries ==> !b
    ensures CUSTOM_IS_DARK_KEY in entries && entries[CUSTOM_IS_DARK_KEY].Flag? ==> b == entries[CUSTOM_IS_DARK_KEY].b
  {
    CUSTOM_IS_DARK_KEY in entries && entries[CUSTOM_IS_DARK_KEY].Flag? && entries[CUSTOM_IS_DARK_KEY].b
  }

  /**
   * `loadThemeSettings` on the fields: the stored theme, or "system" when none
   * is stored; "custom" reads the stored flag; an unknown stored name keeps the
   * flag the manager had.
   */
  function Loaded(entries: map<string, Stored>, hour: int, prior: ThemeState): (r: ThemeState)
    requires IsHour(hour) && ThemeReadable(entries)
    ensures THEME_KEY !in entries ==> r.theme == SYSTEM && (r.dark <==> hour >= EVENING_HOUR)
    ensures THEME_KEY in entries ==> r.theme == entries[THEME_KEY].s
    ensures r.theme == CUSTOM ==> r.dark == StoredCustomDark(entries)
    ensures r.theme != CUSTOM ==> r == Applied(prior, r.theme, hour)
  {
    var t := StoredTheme(entries);
    ThemeState(t, DarkAfter(t, hour, if t == CUSTOM then StoredCustomDark(entries) else prior.dark))
  }

  /** `saveThemeSettings`: writes the name and the flag, and leaves every other key alone. */
  function Saved(entries: map<string, Stored>, s: ThemeState): (r: map<string, Stored>)
    ensures THEME_KEY in r && r[THEME_KEY] == Text(s.theme)
    ensures CUSTOM_IS_DARK_KEY in r && r[CUSTOM_IS_DARK_KEY] == Flag(s.dark)
    ensures forall k :: k != THEME_KEY && k != CUSTOM_IS_DARK_KEY ==> (k in r <==> k in entries)
    ensures forall k :: k in entries && k != THEME_KEY && k != CUSTOM_IS_DARK_KEY ==> r[k] == entries[k]
  {
    entries[THEME_KEY := Text(s.theme)][CUSTOM_IS_DARK_KEY := Flag(s.dark)]
  }

  /** The flag agrees with a "light" or "dark" theme name. */
  predicate Consistent(s: ThemeState) {
    && (s.theme == LIGHT ==> !s.dark)
    && (s.theme == DARK ==> s.dark)
  }

  /** A fresh manager, `setTheme` and `loadThemeSettings` all leave the fields consistent. */
  lemma ConsistentStates(s: ThemeState, name: string, hour: int, entries: map<string, Stored>)
    requires IsHour(hour) && ThemeReadable(entries)
    ensures Consistent(ThemeState(SYSTEM, false))
    ensures Consistent(Applied(s, name, hour))
    ensures Consistent(Loaded(entries, hour, s))
  {
  }

  /** Whatever was saved can be loaded back. */
  lemma SavedIsReadable(entries: map<string, Stored>, s: ThemeState)
    ensures ThemeReadable(Saved(entries, s))
    ensures StoredTheme(Saved(entries, s)) == s.theme
    ensures StoredCustomDark(Saved(entries, s)) == s.dark
  {
  }

  /**
   * Saving consistent fields and loading them again restores the theme name
   * and, for "light", "dark" and "custom", the flag as well; "system"
   * recomputes the flag from the hour of loading, and an unknown name keeps
   * the flag the loading manager had.
   */
  lemma SaveLoadTheme(entries: map<string, Stored>, s: ThemeState, hour: int, prior: ThemeState)
    requires IsHour(hour) && Consistent(s)
    ensures ThemeReadable(Saved(entries, s))
    ensures Loaded(Saved(entries, s), hour, prior).theme == s.theme
    ensures s.theme == LIGHT || s.theme == DARK || s.theme == CUSTOM ==> Loaded(Saved(entries, s), hour, prior) == s
    ensures s.theme == SYSTEM ==> Loaded(Saved(entries, s), hour, prior) == Applied(s, SYSTEM, hour)
    ensures s.theme != SYSTEM && s.theme != LIGHT && s.theme != DARK && s.theme != CUSTOM ==>
              Loaded(Saved(entries, s), hour, prior) == ThemeState(s.theme, prior.dark)
  {
    SavedIsReadable(entries, s);
  }

  /**
   * `setTheme(t)` with t one of "light", "dark", "custom" saves what a later
   * `loadThemeSettings`, at any hour and from any state, reproduces.
   */
  lemma SetThenLoad(s: ThemeState, t: string, hour: int, entries: map<string, Stored>, laterHour: int, prior: ThemeState)
    requires IsHour(hour) && IsHour(laterHour)
    requires t == LIGHT || t == DARK || t == CUSTOM
    ensures ThemeReadable(Saved(entries, Applied(s, t, hour)))
    ensures Loaded(Saved(entries, Applied(s, t, hour)), laterHour, prior) == Applied(s, t, hour)
  {
    SaveLoadTheme(entries, Applied(s, t, hour), laterHour, prior);
  }

  class ThemeManager {
    var isDarkMode: bool
    var currentTheme: string

    constructor ()
      ensures currentTheme == SYSTEM && !isDarkMode
    {
      isDarkMode := false;
      currentTheme := SYSTEM;
    }

    ghost function State(): ThemeState
      reads this
    {
      ThemeState(currentTheme, isDarkMode)
    }

    /** `checkDayNightTheme`: dark exactly from the evening hour on. */
    method CheckDayNightTheme(hour: int)
      requires IsHour(hour)
      modifies this`isDarkMode
      ensures isDarkMode <==> hour >= EVENING_HOUR
    {
      isDarkMode := hour >= EVENING_HOUR;
    }

    /** `loadThemeSettings`. */
    method LoadThemeSettings(store: Store, hour: int)
      requires IsHour(hour) && ThemeReadable(store.entries)
      modifies this
      ensures State() == Loaded(store.entries, hour, old(State()))
    {
      if THEME_KEY in store.entries {
        currentTheme := store.entries[THEME_KEY].s;
      } else {
        currentTheme := SYSTEM;
      }
      if currentTheme == SYSTEM {
        CheckDayNightTheme(hour);
      } else if currentTheme == LIGHT {
        isDarkMode := false;
      } else if currentTheme == DARK {
        isDarkMode := true;
      } else if currentTheme == CUSTOM {
        if CUSTOM_IS_DARK_KEY in store.entries {
          isDarkMode := store.entries[CUSTOM_IS_DARK_KEY].b;
        } else {
          isDarkMode := false;
        }
      }
    }

    /** `saveThemeSettings`. */
    method SaveThemeSettings(store: Store)
      modifies store
      ensures store.entries == Saved(old(store.entries), State())
    {
      store.entries := store.entries[THEME_KEY := Text(currentTheme)];
      store.entries := store.entries[CUSTOM_IS_DARK_KEY := Flag(isDarkMode)];
    }

    /** `setTheme`: applies the per-name rule, then saves. */
    method SetTheme(themeName: string, store: Store, hour: int)
      requires IsHour(hour)
      modifies this, store
      ensures State() == Applied(old(State()), themeName, hour)
      ensures store.entries == Saved(old(store.entries), State())
    {
      currentTheme := themeName;
      if themeName == SYSTEM {
        CheckDayNightTheme(hour);
      } else if themeName == LIGHT {
        isDarkMode := false;
      } else if themeName == DARK {
        isDarkMode := true;
      }
      SaveThemeSettings(store);
    }
  }
}
