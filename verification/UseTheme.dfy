/**
 * The colour-theme hook (hooks/useTheme.ts): the first theme chosen on
 * mount, the toggle, and the effect that mirrors the theme onto the page
 * root's `dark` class and into local storage.
 */
module UseTheme {
  import opened Types

  const LIGHT: string := "light"
  const DARK: string := "dark"

  /**
   * `storedTheme || (prefersDark ? 'dark' : 'light')`: a stored value that is
   * a non-empty string wins, whatever it says; otherwise the operating
   * system's preference decides.
   */
  function InitialTheme(stored: Option<string>, prefersDark: bool): (t: string)
    ensures t != ""
  {
    if stored.Some? && stored.value != "" then stored.value
    else if prefersDark then DARK else LIGHT
  }

  /** A stored choice overrides the OS preference; without one, the preference is followed. */
  lemma InitialThemePriority(stored: Option<string>, prefersDark: bool)
    ensures stored.Some? && stored.value != "" ==>
      InitialTheme(stored, prefersDark) == stored.value == InitialTheme(stored, !prefersDark)
    ensures stored.None? || stored.value == "" ==>
      (InitialTheme(stored, prefersDark) == DARK <==> prefersDark)
    ensures stored == Some(LIGHT) || stored == Some(DARK) || stored.None? || stored == Some("") ==>
      InitialTheme(stored, prefersDark) in {LIGHT, DARK}
  {
  }

  /** `prevTheme === 'light' ? 'dark' : 'light'`. */
  function Toggled(theme: string): (r: string)
    ensures r == LIGHT || r == DARK
    ensures r == DARK <==> theme == LIGHT
  {
    if theme == LIGHT then DARK else LIGHT
  }

  /** Toggling changes a light or dark theme, and toggling twice restores it. */
  lemma ToggleTwice(theme: string)
    requires theme == LIGHT || theme == DARK
    ensures Toggled(theme) != theme
    ensures Toggled(Toggled(theme)) == theme
  {
  }

  /**
   * The hook's state together with the two pieces of the page it writes:
   * whether the document root has the `dark` class, and the `theme` entry of
   * local storage (`None` when absent).
   */
  class ThemeHook {
    var theme: string
    var rootDark: bool
    var stored: Option<string>

    /** The page agrees with the theme, as the second effect leaves it. */
    predicate Synced()
      reads this
    {
      rootDark == (theme == DARK) && stored == Some(theme)
    }

    /** The first render: the theme starts as light, the page is as it was found. */
    constructor(stored: Option<string>, rootDark: bool)
      ensures theme == LIGHT
      ensures this.stored == stored && this.rootDark == rootDark
    {
      theme := LIGHT;
      this.stored := stored;
      this.rootDark := rootDark;
    }

    /** The effect run after each theme change. */
    method SyncEffect()
      modifies this
      ensures theme == old(theme)
      ensures Synced()
    {
      if theme == DARK {
        rootDark := true;
      } else {
        rootDark := false;
      }
      stored := Some(theme);
    }

    /**
     * Mounting: the first effect reads storage and the OS preference, the
     * second effect then runs for the default light theme, and the chosen
     * theme is applied on the next render.
     */
    method Mount(prefersDark: bool)
      modifies this
      ensures theme == InitialTheme(old(stored), prefersDark)
      ensures Synced()
    {
      var initial := InitialTheme(stored, prefersDark);
      SyncEffect();
      theme := initial;
      SyncEffect();
    }

    /** `toggleTheme`, followed by the effect it triggers. */
    method Toggle()
      modifies this
      ensures theme == Toggled(old(theme))
      ensures Synced()
    {
      theme := Toggled(theme);
      SyncEffect();
    }
  }
}
