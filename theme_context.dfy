/**
 * The ThemeProvider context: a dark-mode flag resolved from the saved
 * choice in local storage or, when nothing is saved, from the system's
 * colour-scheme preference. The storage, the media query and the root
 * element's class list are part of the state; the system preference is a
 * parameter.
 */
module ThemeContext {
  import opened Wrappers

  const UseThemeError: string := "useTheme must be used within a ThemeProvider"

  /** A saved theme counts only when it is a non-empty string (`if (savedTheme)`). */
  predicate HasSavedTheme(saved: Option<string>)
  {
    saved.Some? && saved.value != ""
  }

  /** The flag the mount effect settles on. */
  function InitialIsDark(saved: Option<string>, systemPrefersDark: bool): (dark: bool)
    ensures HasSavedTheme(saved) ==> (dark <==> saved.value == "dark")
    ensures !HasSavedTheme(saved) ==> dark == systemPrefersDark
  {
    if HasSavedTheme(saved) then saved.value == "dark" else systemPrefersDark
  }

  /** The provider's state: the flag and the storage entry under "theme". */
  datatype ThemeState = ThemeState(isDark: bool, saved: Option<string>)

  /** The media query's change handler: applied only when no theme is saved. */
  function SystemChanged(s: ThemeState, matches: bool): (t: ThemeState)
    ensures t.saved == s.saved
    ensures HasSavedTheme(s.saved) ==> t.isDark == s.isDark
    ensures !HasSavedTheme(s.saved) ==> t.isDark == matches
  {
    if HasSavedTheme(s.saved) then s else s.(isDark := matches)
  }

  /** toggleTheme: the flag flips and the matching name is saved. */
  function Toggled(s: ThemeState): (t: ThemeState)
    ensures t.isDark == !s.isDark
    ensures t.saved == Some(if t.isDark then "dark" else "light")
  {
    var dark := !s.isDark;
    ThemeState(dark, Some(if dark then "dark" else "light"))
  }

  /** setTheme: the flag is set for "dark" only, and the name is saved as given. */
  function WithTheme(s: ThemeState, theme: string): (t: ThemeState)
    ensures t.isDark <==> theme == "dark"
    ensures t.saved == Some(theme)
  {
    ThemeState(theme == "dark", Some(theme))
  }

  /** The exposed `theme`. */
  function ThemeName(isDark: bool): (name: string)
    ensures name == "dark" <==> isDark
    ensures name == "light" <==> !isDark
  {
    if isDark then "dark" else "light"
  }

  /** Toggling twice restores the flag, and the saved name then matches it. */
  lemma ToggleTwiceRestores(s: ThemeState)
    ensures Toggled(Toggled(s)).isDark == s.isDark
    ensures Toggled(Toggled(s)).saved == Some(ThemeName(s.isDark))
  {
  }

  /**
   * What toggleTheme saves is what the next load reads back: after a toggle
   * the system preference no longer matters.
   */
  lemma ToggleSurvivesReload(s: ThemeState, systemPrefersDark: bool)
    ensures InitialIsDark(Toggled(s).saved, systemPrefersDark) == Toggled(s).isDark
  {
  }

  /** The same holds for setTheme with any non-empty name; an empty name is not a saved theme. */
  lemma SetThemeSurvivesReload(s: ThemeState, theme: string, systemPrefersDark: bool)
    ensures theme != "" ==> InitialIsDark(WithTheme(s, theme).saved, systemPrefersDark) == WithTheme(s, theme).isDark
    ensures theme == "" ==> InitialIsDark(WithTheme(s, theme).saved, systemPrefersDark) == systemPrefersDark
  {
  }

  /** After a toggle, system changes are ignored. */
  lemma ToggleFreezesSystemChanges(s: ThemeState, matches: bool)
    ensures SystemChanged(Toggled(s), matches) == Toggled(s)
  {
  }

  /** The context's value as the consumers see it. */
  datatype ThemeValue = ThemeValue(isDark: bool, theme: string)

  /** useTheme: the nearest provider's value, or the error thrown outside any provider. */
  function UseTheme(context: Option<ThemeValue>): (r: Result<ThemeValue, string>)
    ensures context.None? <==> r == Failure(UseThemeError)
    ensures context.Some? ==> r == Success(context.value)
  {
    match context
    case None => Failure(UseThemeError)
    case Some(v) => Success(v)
  }

  class ThemeProviderState {
    var isDark: bool
    /** localStorage's "theme" entry. */
    var saved: Option<string>
    /** Whether the document's root element carries the class "dark". */
    var rootHasDark: bool

    /** Mounting: the mount effect resolves the flag and the class effect mirrors it on the root. */
    constructor (stored: Option<string>, systemPrefersDark: bool)
      ensures isDark == InitialIsDark(stored, systemPrefersDark)
      ensures saved == stored && rootHasDark == isDark
    {
      saved := stored;
      if stored.Some? && stored.value != "" {
        isDark := stored.value == "dark";
      } else {
        isDark := systemPrefersDark;
      }
      rootHasDark := isDark;
    }

    function State(): ThemeState
      reads this
    {
      ThemeState(isDark, saved)
    }

    /** The value the provider hands to its consumers. */
    function Value(): (v: ThemeValue)
      reads this
      ensures v.isDark == isDark && v.theme == ThemeName(isDark)
    {
      ThemeValue(isDark, if isDark then "dark" else "light")
    }

    /** The media query's change event. */
    method OnSystemChange(matches: bool)
      modifies this
      ensures State() == SystemChanged(old(State()), matches)
      ensures rootHasDark == isDark
    {
      if !(saved.Some? && saved.value != "") {
        isDark := matches;
      }
      rootHasDark := isDark;
    }

    method ToggleTheme()
      modifies this
      ensures State() == Toggled(old(State()))
      ensures rootHasDark == isDark
    {
      var newTheme := !isDark;
      isDark := newTheme;
      saved := Some(if newTheme then "dark" else "light");
      rootHasDark := isDark;
    }

    method SetTheme(theme: string)
      modifies this
      ensures State() == WithTheme(old(State()), theme)
      ensures rootHasDark == isDark
    {
      isDark := theme == "dark";
      saved := Some(theme);
      rootHasDark := isDark;
    }
  }
}
