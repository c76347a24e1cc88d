/**
 * The theme state machine shared by ThemeProvider and AppSettingsProvider:
 * the theme starts as the system colour scheme (or light when the system
 * reports none), is swapped by `toggleTheme`, and is reset to the system
 * scheme (or light) whenever the system scheme changes. The reset is an
 * effect with the dependency list `[systemScheme]`: it runs only when a
 * render sees a scheme different from the one the previous render saw.
 */
module ThemeState {
  import opened Wrappers
  import opened Palette

  /** `prevTheme === "light" ? "dark" : "light"` */
  function Toggle(t: Theme): (u: Theme)
    ensures u != t
  {
    if t == Light then Dark else Light
  }

  /** `systemScheme || "light"`: the system scheme, or light when it is null. */
  function Resolve(systemScheme: Option<Theme>): (t: Theme)
    ensures systemScheme.Some? ==> t == systemScheme.value
    ensures systemScheme.None? ==> t == Light
  {
    match systemScheme
    case Some(s) => s
    case None => Light
  }

  /**
   * What can happen to a mounted provider's theme: a press of the toggle,
   * or a run of the resync effect after the system scheme changed.
   */
  datatype Event = Toggled | SystemSchemeChanged(scheme: Option<Theme>)

  /**
   * The theme after one event: a toggle swaps it, a resync replaces it by
   * a theme that depends on the new scheme alone.
   */
  function Step(t: Theme, e: Event): (u: Theme)
    ensures e.Toggled? ==> u != t
    ensures e.SystemSchemeChanged? ==> u == Resolve(e.scheme)
  {
    match e
    case Toggled => Toggle(t)
    case SystemSchemeChanged(s) => Resolve(s)
  }

  /**
   * A render: the provider sees the current system scheme. The effect runs,
   * and the theme is reset, only when the scheme differs from the one seen
   * last; otherwise a manual toggle survives the render.
   */
  function AfterRender(theme: Theme, lastScheme: Option<Theme>, current: Option<Theme>): (next: Theme)
    ensures current == lastScheme ==> next == theme
    ensures current != lastScheme ==> next == Step(theme, SystemSchemeChanged(current))
  {
    if current != lastScheme then Resolve(current) else theme
  }

  /** The theme after a sequence of events, oldest first. */
  function Replay(t: Theme, events: seq<Event>): Theme
    decreases |events|
  {
    if events == [] then t else Replay(Step(t, events[0]), events[1..])
  }

  /** `n` presses of the toggle button in a row. */
  function Toggles(n: nat): (events: seq<Event>)
    ensures |events| == n
    ensures forall k | 0 <= k < n :: events[k] == Toggled
  {
    if n == 0 then [] else [Toggled] + Toggles(n - 1)
  }

  /** Toggling twice restores the theme. */
  lemma ToggleInvolution(t: Theme)
    ensures Toggle(Toggle(t)) == t
  {
  }

  /** Replaying two histories one after the other. */
  lemma {:induction false} ReplayAppend(t: Theme, a: seq<Event>, b: seq<Event>)
    ensures Replay(t, a + b) == Replay(Replay(t, a), b)
    decreases |a|
  {
    if a != [] {
      assert (a + b)[0] == a[0] && (a + b)[1..] == a[1..] + b;
      ReplayAppend(Step(t, a[0]), a[1..], b);
    } else {
      assert a + b == b;
    }
  }

  /** `n` toggles give back the theme when `n` is even and swap it when odd. */
  lemma {:induction false} ReplayToggles(t: Theme, n: nat)
    ensures Replay(t, Toggles(n)) == if n % 2 == 0 then t else Toggle(t)
    decreases n
  {
    if n > 0 {
      ReplayToggles(Toggle(t), n - 1);
    }
  }

  /**
   * A system-scheme change discards every manual toggle before it: what
   * happened earlier, and the theme the provider started with, no longer
   * matter.
   */
  lemma {:induction false} ResyncDiscardsHistory(t: Theme, before: seq<Event>, s: Option<Theme>, after: seq<Event>)
    ensures Replay(t, before + [SystemSchemeChanged(s)] + after) == Replay(Resolve(s), after)
  {
    ReplayAppend(t, before + [SystemSchemeChanged(s)], after);
    ReplayAppend(t, before, [SystemSchemeChanged(s)]);
  }
}
