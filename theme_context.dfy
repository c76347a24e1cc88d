/**
 * context/ThemeContext.tsx: a provider holding one piece of state, the
 * current theme, and exposing the palette of that theme.
 */
module ThemeContext {
  import opened Wrappers
  import opened Palette
  import opened ThemeState

  /** The state of a mounted ThemeProvider. */
  class ThemeProvider {
    var theme: Theme
    /** The system scheme the last render saw. */
    var systemScheme: Option<Theme>

    /** Mounting: `useState(systemScheme || "light")`. */
    constructor(systemScheme: Option<Theme>)
      ensures theme == Resolve(systemScheme)
      ensures this.systemScheme == systemScheme
    {
      theme := Resolve(systemScheme);
      this.systemScheme := systemScheme;
    }

    /**
     * A render that reads `useColorScheme()`: the resync effect runs only
     * when the scheme differs from the one the last render saw.
     */
    method Render(current: Option<Theme>)
      modifies this
      ensures systemScheme == current
      ensures theme == AfterRender(old(theme), old(systemScheme), current)
      ensures current != old(systemScheme) ==> theme == Resolve(current)
      ensures current == old(systemScheme) ==> theme == old(theme)
    {
      if current != systemScheme {
        theme := Resolve(current);
      }
      systemScheme := current;
    }

    /** `toggleTheme`: swap light and dark. */
    method ToggleTheme()
      modifies this`theme
      ensures theme == Step(old(theme), Toggled)
      ensures theme != old(theme)
    {
      theme := Toggle(theme);
    }

    /** The exposed `colors`: always the palette of the current theme. */
    function Colors(): (c: Colors)
      reads this
      ensures c.tint == Verde
      ensures c.background == Branco <==> theme == Light
    {
      PaletteOf(theme)
    }
  }

  const UseThemeError := "useTheme must be used within a ThemeProvider"

  /**
   * `useTheme`: the nearest provider, or the error it throws when the
   * component is not inside a ThemeProvider.
   */
  function UseTheme(provider: Option<ThemeProvider>): (r: Result<ThemeProvider, string>)
    ensures r.Failure? <==> provider.None?
    ensures r.Success? ==> r.value == provider.value
    ensures r.Failure? ==> r.error == UseThemeError
  {
    match provider
    case None => Failure(UseThemeError)
    case Some(p) => Success(p)
  }
}
