# Mottu app: input rules and settings state, in Dafny

Mottu is a React Native fleet-management app. This project models the parts of its client that can be stated exactly:

- the **register screen** (`app/register.tsx`). Its submit handler checks three things in a fixed order: every field filled in, the e-mail accepted by `^[^\s@]+@[^\s@]+\.[^\s@]+$`, and a password of at least six UTF-16 code units. It then raises a loading flag, posts the form, and lowers the flag in a `finally`.
- the **login screen** (`app/index.tsx`). It guards against empty fields, raises the loading flag around an opaque sign-in attempt, and picks an error message with a fallback.
- the **theme and settings providers** (`context/ThemeContext.tsx`, `context/AppSettingsContext.tsx`). The theme starts from the system colour scheme, is swapped by a toggle, and is reset when the system scheme changes. The interface language starts from the i18n locale's prefix, and `setLocale` keeps the shared i18n object and the provider's state in step.
- the **auth session** (`context/UserContext.tsx`): one nullable user that `login` overwrites and `logout` clears.
- the **palette table** (`constants/theme.ts`): the fixed colours and the light and dark palettes.

Modules: one per modelled source file (two for `app/register.tsx`'s e-mail rule, `EmailRegex` and its examples `EmailRegexExamples`, beside `Register`), plus four shared ones, `Wrappers`, `JsText`, `Feedback` and `ThemeState`:

| module | file | models |
|---|---|---|
| `Wrappers` | wrappers.dfy | `Option` (JavaScript null) and `Result` (a thrown error) |
| `JsText` | js_text.dfy | JavaScript's `\s` class and UTF-16 `length` |
| `Feedback` | feedback.dfy | alerts, request outcomes, the `message \|\| fallback` choice |
| `EmailRegex`, `EmailRegexExamples` | email_regex.dfy | the e-mail regular expression |
| `Register` | register.dfy | `app/register.tsx` |
| `Login` | login.dfy | `app/index.tsx` |
| `Palette` | palette.dfy | `constants/theme.ts` |
| `ThemeState` | theme_state.dfy | the theme state machine both providers share |
| `ThemeContext` | theme_context.dfy | `context/ThemeContext.tsx` |
| `AppSettingsContext` | app_settings_context.dfy | `context/AppSettingsContext.tsx`, the locale rule of `services/i18n.ts` |
| `UserContext` | user_context.dfy | `context/UserContext.tsx` |

State that the source updates in place is modelled as classes: the screens' `isLoading` flags, the providers' `theme`, `locale` and `usuario`, and the shared i18n object. A button press is split at the handler's `await`. `Press` runs the handler up to the request. `Settle` runs the rest, given the request's outcome as a parameter. A ghost counter `pending` of requests in flight lets `Valid()` state that the flag is up exactly while one request is outstanding.

A provider remembers the system scheme its last render saw, so the resync effect resets the theme only when the scheme really changed. `ThemeState.Replay` and its lemmas are about the events that reach the theme: toggles and runs of that effect.

The regular expression is given its meaning directly: `MatchesEmailRegex` holds when the string splits into three non-empty runs of `[^\s@]` around an `@` and a `.`. `EmailTest`, the model of `emailRegex.test`, decides the same thing by counting and searching. `EmailCharacterisation` proves the two agree.

## Model

| member | source | states |
|---|---|---|
| `JsText.IsWs` | mottu/app/register.tsx:32 | `\s` never matches `@` or `.`, the literal characters of the e-mail regex; it matches space, tab, line feed and carriage return, and no ASCII letter or digit |
| `JsText.Utf16Length` | mottu/app/register.tsx:41 | `password.length` counts UTF-16 code units, between one and two per character |
| `JsText.EmptyIffNoCodeUnits` | mottu/app/register.tsx:27 | a string is falsy exactly when it has length zero |
| `EmailRegex.MatchesEmailRegex` | mottu/app/register.tsx:32 | the language of the regex: three non-empty runs of `[^\s@]` around an `@` and a `.`; every match has at least five characters and contains `@` and `.` |
| `EmailRegex.EmailTest` | mottu/app/register.tsx:32-33 | `emailRegex.test(s)` is true exactly when `s` is in the language of the regular expression |
| `EmailRegex.EmailCharacterisation` | mottu/app/register.tsx:32 | the regex accepts exactly the strings with no whitespace, exactly one `@` with text before it, and a `.` after the `@` with text on both sides of it (both directions) |
| `EmailRegex.SplitHasOneAt` | mottu/app/register.tsx:32 | in an accepted e-mail the `@` of the match is the only `@` and the first one |
| `EmailRegex.SplitHasNoWhitespace` | mottu/app/register.tsx:32 | an accepted e-mail contains no `\s` character |
| `EmailRegexExamples.Accepted` | mottu/app/register.tsx:32 | "a@b.c", "a@b.c." and "a@b..c" are accepted |
| `EmailRegexExamples.Rejected` | mottu/app/register.tsx:32 | "a@b", "a@@b.c", "a b@c.d", "@b.c" and "a@.c" are rejected |
| `Register.Validate` | mottu/app/register.tsx:27-51 | the form is sent exactly when all fields are non-empty, the e-mail matches the regex and the password has at least 6 code units; the body is the fields as typed |
| `Register.FirstFailureReported` | mottu/app/register.tsx:27-47 | checks run empty, then e-mail, then length, and only the first failure is reported |
| `Register.PasswordLengthInCharacters` | mottu/app/register.tsx:41 | an accepted password has at least 3 characters; 6 characters always pass the length check |
| `Register.WhitespaceIsNotEmpty` | mottu/app/register.tsx:27-30 | any non-empty values, whitespace-only ones included, pass the first check; a whitespace-only password of six units is sent untrimmed |
| `Register.RejectionAlert` | mottu/app/register.tsx:28-46 | every rejection alert is titled "alerts.attention" |
| `Register.SettlementOf` | mottu/app/register.tsx:51-59 | navigation to "/" happens exactly on success, with the success alert; a failure shows, under "alerts.error", the server's message when present and non-empty and "register.alert.error" otherwise |
| `Register.RegisterScreen.constructor` | mottu/app/register.tsx:20-24 | the screen starts with empty fields and not loading |
| `Register.RegisterScreen.SetNome` | mottu/app/register.tsx:72-73 | typing sets the name |
| `Register.RegisterScreen.SetEmail` | mottu/app/register.tsx:81-82 | typing sets the e-mail |
| `Register.RegisterScreen.SetPassword` | mottu/app/register.tsx:91-92 | typing sets the password |
| `Register.RegisterScreen.Press` | mottu/app/register.tsx:26-51 | while loading nothing happens; a failed check shows its alert and leaves the flag alone; otherwise the flag goes up and exactly the typed fields are posted |
| `Register.RegisterScreen.Settle` | mottu/app/register.tsx:52-62 | whatever the outcome, the flag is down afterwards and the settlement matches the outcome |
| `Feedback.ErrorText` | mottu/app/register.tsx:57-58 | the server's message is shown when present and non-empty, the fallback otherwise |
| `Feedback.ErrorTextNeverBlank` | mottu/app/index.tsx:37-38 | with a non-blank fallback the error message is never blank |
| `Login.Guard` | mottu/app/index.tsx:29-32 | an empty e-mail or password gives the "Atenção" warning, and sign-in is attempted otherwise |
| `Login.LoginAlert` | mottu/app/index.tsx:36-39 | an alert is shown exactly when the attempt threw, titled "Erro de Login", with the server's message when present and non-empty and "Email ou senha inválidos." otherwise |
| `Login.LoginScreen.constructor` | mottu/app/index.tsx:22-24 | the screen starts with empty fields and not loading |
| `Login.LoginScreen.SetEmail` | mottu/app/index.tsx:71-72 | typing sets the e-mail |
| `Login.LoginScreen.SetPassword` | mottu/app/index.tsx:82-83 | typing sets the password |
| `Login.LoginScreen.Press` | mottu/app/index.tsx:28-35 | while loading nothing happens (the button is disabled), so no second attempt starts; with an empty field only the warning is shown; otherwise the flag goes up before sign-in is attempted |
| `Login.LoginScreen.Settle` | mottu/app/index.tsx:36-42 | the flag is down after the attempt whether it succeeded or threw |
| `Palette.PaletteOf` | mottu/constants/theme.ts:13-30 | `tint` and `border` are green and `subtext` is light grey in both palettes |
| `Palette.ForegroundOnBackground` | mottu/constants/theme.ts:15-24 | light is black text on white; dark is white text on "#2C2C2C" |
| `Palette.CardsInvert` | mottu/constants/theme.ts:19-27 | cards are dark grey in light mode and light grey in dark mode |
| `Palette.PaletteDeterminesTheme` | mottu/constants/theme.ts:14-29 | the two palettes differ, already in their background |
| `ThemeState.Toggle` | mottu/context/ThemeContext.tsx:25-27 | toggling always changes the theme |
| `ThemeState.Resolve` | mottu/context/ThemeContext.tsx:19-22 | the system scheme when there is one, light otherwise |
| `ThemeState.Step` | mottu/context/ThemeContext.tsx:21-27 | a toggle always changes the theme; a resync sets it from the new system scheme alone |
| `ThemeState.AfterRender` | mottu/context/ThemeContext.tsx:18-23 | a render with the same system scheme as the last one keeps the theme (a manual toggle survives); a render with a new scheme resyncs |
| `ThemeState.ToggleInvolution` | mottu/context/AppSettingsContext.tsx:33-35 | toggling twice restores the theme |
| `ThemeState.ReplayAppend` | mottu/context/ThemeContext.tsx:21-27 | replaying two histories one after the other is replaying their concatenation |
| `ThemeState.ReplayToggles` | mottu/context/ThemeContext.tsx:25-27 | an even number of toggles restores the theme and an odd number swaps it |
| `ThemeState.ResyncDiscardsHistory` | mottu/context/ThemeContext.tsx:21-23 | after a system-scheme change, neither the starting theme nor any earlier toggle has an effect |
| `ThemeContext.ThemeProvider.constructor` | mottu/context/ThemeContext.tsx:18-19 | the theme starts as the system scheme or light, and that scheme is remembered |
| `ThemeContext.ThemeProvider.Render` | mottu/context/ThemeContext.tsx:18-23 | a render resets the theme to the scheme or light only when the scheme differs from the last one seen; otherwise the theme is kept |
| `ThemeContext.ThemeProvider.ToggleTheme` | mottu/context/ThemeContext.tsx:25-27 | the toggle swaps light and dark |
| `ThemeContext.ThemeProvider.Colors` | mottu/context/ThemeContext.tsx:29 | the exposed colours have the white background exactly in the light theme |
| `ThemeContext.UseTheme` | mottu/context/ThemeContext.tsx:38-44 | the hook fails exactly outside a provider, with the source's message |
| `AppSettingsContext.StartsWith` | mottu/context/AppSettingsContext.tsx:26 | `startsWith` holds exactly when the prefix's characters are the string's first characters, and then the string is the prefix followed by the rest |
| `AppSettingsContext.InitialLocale` | mottu/context/AppSettingsContext.tsx:26 | Spanish exactly when the i18n locale starts with "es", case-sensitively; Portuguese otherwise |
| `AppSettingsContext.DeviceLocale` | mottu/services/i18n.ts:12 | the device's language code, or "pt" when there is none or it is empty; never empty |
| `AppSettingsContext.InitialLocaleOfCode` | mottu/context/AppSettingsContext.tsx:26-40 | a locale written by `setLocale`, with any suffix, is read back as the same locale |
| `AppSettingsContext.NoDeviceLanguageIsPortuguese` | mottu/services/i18n.ts:12 | a device without a language code starts in Portuguese |
| `AppSettingsContext.PrefixIsCaseSensitive` | mottu/context/AppSettingsContext.tsx:26 | "ES" and "Es" give Portuguese and "es-MX" gives Spanish |
| `AppSettingsContext.I18n.constructor` | mottu/services/i18n.ts:12 | the i18n locale starts as the device's language code or "pt" |
| `AppSettingsContext.AppSettingsProvider.constructor` | mottu/context/AppSettingsContext.tsx:24-27 | the theme starts from the system scheme, which is remembered, and the locale from the i18n locale |
| `AppSettingsContext.AppSettingsProvider.Render` | mottu/context/AppSettingsContext.tsx:24-31 | a render resets the theme only when the system scheme differs from the last one seen, and always keeps the locale |
| `AppSettingsContext.AppSettingsProvider.ToggleTheme` | mottu/context/AppSettingsContext.tsx:33-35 | the toggle swaps light and dark and keeps the locale |
| `AppSettingsContext.AppSettingsProvider.SetLocale` | mottu/context/AppSettingsContext.tsx:37-40 | both the i18n locale and the provider's locale become the new one, and the two stay in step |
| `AppSettingsContext.AppSettingsProvider.Colors` | mottu/context/AppSettingsContext.tsx:42 | the exposed colours have the white background exactly in the light theme |
| `AppSettingsContext.UseAppSettings` | mottu/context/AppSettingsContext.tsx:53-59 | the hook fails exactly outside a provider, with the source's message |
| `UserContext.Apply` | mottu/context/UserContext.tsx:20-21 | `login(u)` makes the user exactly `u`, and `logout()` makes it null |
| `UserContext.LogoutIdempotent` | mottu/context/UserContext.tsx:20-21 | logging out twice is logging out once, and `login(null)` is `logout()` |
| `UserContext.LastActionWins` | mottu/context/UserContext.tsx:18-21 | after any sequence of logins and logouts the user is what the last one set |
| `UserContext.AuthProvider.constructor` | mottu/context/UserContext.tsx:18 | the session starts with no user |
| `UserContext.AuthProvider.Login` | mottu/context/UserContext.tsx:20 | the user becomes exactly the argument |
| `UserContext.AuthProvider.Logout` | mottu/context/UserContext.tsx:21 | no user is signed in afterwards |
| `UserContext.UseAuth` | mottu/context/UserContext.tsx:30-36 | the hook fails exactly outside a provider, with the source's message |

A user's role is "Gerente" or "Operador" by the type `Role` (`context/UserContext.tsx:6`). Both palettes have the same six keys by the type `Colors`.

## Left out

- The network: `api.post("/Auth/register", …)` and the sign-in call are reduced to their outcome, success or a thrown error with an optional server message. `services/api.ts` (the axios client and its base URL) is not part of this model.
- The login screen's sign-in is opaque. `app/index.tsx` imports `useUser` and calls `signIn`, but `context/UserContext.tsx` exports only `useAuth`, with `login` and `logout`. The model does not guess what `signIn` does, so a successful attempt changes no session state here.
- React's scheduling: a state update is modelled as taking effect at once. In React, `disabled={isLoading}` only takes effect on the next render, so two very fast presses might both start a request. The model does not capture that window.
- The effect that runs once on mount is not a separate event: it sets the theme the provider already has. Later renders are modelled by `Render`, which compares the scheme with the last one seen, as React compares the effect's dependency list.
- The i18n translation tables: alert texts are kept as their keys (`register.alert.fillAll`, …), or as literal strings where the login screen hard-codes them. `Alert.alert`, `console.error`, rendering, styles, the show-password toggle and the welcome modal (never opened) are not modelled.
- `JsText.IsWs` lists the Unicode space separators of current Unicode versions. A JavaScript engine built on another Unicode version may differ.
- `JsText.Utf16Length`: Dafny characters are Unicode scalar values. A JavaScript string holding a lone surrogate code unit cannot be represented, and neither can its one-unit length.
- `Feedback.Outcome`: `response.data.message` is taken to be a string when present. A non-string message (a number, an object) is not modelled.
- `AppSettingsContext.AppSettingsProvider.Valid`: the i18n object is shared, and code outside the provider that writes `i18n.locale` can break the step between it and the provider's locale. The model only proves that the provider's own operations keep it.
- `components/Header.tsx` (drawer animation, logout after a 2000 ms timer), `components/BotaoLimparAsyncStorage.tsx` (device storage), the navigation layouts, the icon and the tab screens are not part of this model. They are animation, I/O and rendering.
