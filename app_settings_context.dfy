/**
 * context/AppSettingsContext.tsx: the theme state machine of ThemeContext
 * plus the interface language. The language lives in two places that
 * `setLocale` keeps in step: the provider's own state and the `locale`
 * field of the app-wide i18n object (services/i18n.ts).
 */
module AppSettingsContext {
  import opened Wrappers
  import opened Palette
  import opened ThemeState

  /** The two interface languages ("pt" | "es"). */
  datatype Locale = Pt | Es

  /** The locale code a Locale is written as. */
  function Code(l: Locale): string
  {
    match l
    case Pt => "pt"
    case Es => "es"
  }

  /** JavaScript `s.startsWith(prefix)`: a case-sensitive prefix test. */
  predicate StartsWith(s: string, prefix: string): (b: bool)
    ensures b <==> |prefix| <= |s| && forall k | 0 <= k < |prefix| :: s[k] == prefix[k]
    ensures b ==> s == prefix + s[|prefix|..]
  {
    |prefix| <= |s| && s[..|prefix|] == prefix
  }

  /**
   * `i18n.locale.startsWith("es") ? "es" : "pt"`: Spanish for any locale
   * code that begins with "es", Portuguese for everything else.
   */
  function InitialLocale(i18nLocale: string): (l: Locale)
    ensures l == Es <==> |i18nLocale| >= 2 && i18nLocale[0] == 'e' && i18nLocale[1] == 's'
  {
    if StartsWith(i18nLocale, "es") then Es else Pt
  }

  /**
   * The start-up rule of services/i18n.ts: the device's first language code,
   * or "pt" when there is none or it is empty (`languageCode || "pt"`).
   */
  function DeviceLocale(languageCode: Option<string>): (code: string)
    ensures code != ""
    ensures languageCode.Some? && languageCode.value != "" ==> code == languageCode.value
    ensures languageCode.None? || languageCode.value == "" ==> code == "pt"
  {
    match languageCode
    case Some(c) => if c != "" then c else "pt"
    case None => "pt"
  }

  /**
   * Writing a locale's code into i18n and reading it back through the
   * initial-locale rule gives the same locale, whatever follows the code
   * (a region such as "es-AR" included).
   */
  lemma InitialLocaleOfCode(l: Locale, rest: string)
    ensures InitialLocale(Code(l) + rest) == l
  {
  }

  /** A device without a language code starts in Portuguese. */
  lemma NoDeviceLanguageIsPortuguese()
    ensures InitialLocale(DeviceLocale(None)) == Pt
    ensures InitialLocale(DeviceLocale(Some(""))) == Pt
  {
  }

  /** The prefix test is case-sensitive: "ES" and "Es" give Portuguese. */
  lemma PrefixIsCaseSensitive()
    ensures InitialLocale("ES") == Pt && InitialLocale("Es") == Pt
    ensures InitialLocale("es-MX") == Es
  {
  }

  /** The app-wide i18n object; only its `locale` field matters here. */
  class I18n {
    var locale: string

    /** services/i18n.ts at start-up. */
    constructor(languageCode: Option<string>)
      ensures locale == DeviceLocale(languageCode)
    {
      locale := DeviceLocale(languageCode);
    }
  }

  /** The state of a mounted AppSettingsProvider. */
  class AppSettingsProvider {
    var theme: Theme
    var locale: Locale
    /** The system scheme the last render saw. */
    var systemScheme: Option<Theme>
    const i18n: I18n

    /** The provider's locale is the one the i18n object's code selects. */
    ghost predicate Valid()
      reads this, i18n
    {
      InitialLocale(i18n.locale) == locale
    }

    /**
     * Mounting: the theme from the system scheme, the locale from the
     * current i18n locale.
     */
    constructor(systemScheme: Option<Theme>, i18n: I18n)
      ensures this.i18n == i18n && Valid()
      ensures theme == Resolve(systemScheme)
      ensures this.systemScheme == systemScheme
      ensures locale == InitialLocale(i18n.locale)
    {
      this.i18n := i18n;
      this.systemScheme := systemScheme;
      theme := Resolve(systemScheme);
      locale := InitialLocale(i18n.locale);
    }

    /**
     * A render that reads `useColorScheme()`: the resync effect runs only
     * when the scheme differs from the one the last render saw; the locale
     * is untouched either way.
     */
    method Render(current: Option<Theme>)
      requires Valid()
      modifies this`theme, this`systemScheme
      ensures Valid()
      ensures systemScheme == current
      ensures theme == AfterRender(old(theme), old(systemScheme), current)
      ensures current != old(systemScheme) ==> theme == Resolve(current)
      ensures current == old(systemScheme) ==> theme == old(theme)
    {
      if current != systemScheme {
        theme := Resolve(current);
      }
      systemScheme := current;
    }

    /** `toggleTheme`: swap light and dark; the locale is untouched. */
    method ToggleTheme()
      requires Valid()
      modifies this`theme
      ensures Valid()
      ensures theme == Step(old(theme), Toggled)
      ensures theme != old(theme)
    {
      theme := Toggle(theme);
    }

    /**
     * `setLocale`: write the code into the shared i18n object and into
     * the provider's state; the theme is untouched.
     */
    method SetLocale(newLocale: Locale)
      requires Valid()
      modifies this`locale, i18n`locale
      ensures Valid()
      ensures i18n.locale == Code(newLocale)
      ensures locale == newLocale
    {
      i18n.locale := Code(newLocale);
      locale := newLocale;
    }

    /** The exposed `colors`: always the palette of the current theme. */
    function Colors(): (c: Colors)
      reads this
      ensures c.tint == Verde
      ensures c.background == Branco <==> theme == Light
    {
      PaletteOf(theme)
    }
  }

  const UseAppSettingsError := "useAppSettings must be used within a AppSettingsProvider"

  /**
   * `useAppSettings`: the nearest provider, or the error it throws when
   * the component is not inside an AppSettingsProvider.
   */
  function UseAppSettings(provider: Option<AppSettingsProvider>): (r: Result<AppSettingsProvider, string>)
    ensures r.Failure? <==> provider.None?
    ensures r.Success? ==> r.value == provider.value
    ensures r.Failure? ==> r.error == UseAppSettingsError
  {
    match provider
    case None => Failure(UseAppSettingsError)
    case Some(p) => Success(p)
  }
}
