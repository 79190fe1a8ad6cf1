/**
 * The theme preference as plain values: the saved-value rule of the
 * application shell, the token a toggle persists, the root element's
 * class set, and the whole theme state before and after page loads and
 * toggles. The imperative shell (AppShell) and the pages are proved
 * against these functions.
 */
module Theme {
  import opened Wrappers

  /** The storage key the preference lives under. */
  const ThemeKey := "theme"
  /** The two tokens a toggle writes. */
  const DarkToken := "dark"
  const LightToken := "light"
  /** The class that switches the stylesheet to dark mode. */
  const DarkClass := "dark"
  /** `useState(true)`: before storage is consulted the mode is dark. */
  const DefaultDark := true

  /** `localStorage.getItem`: the stored string, or None (null) for a missing key. */
  function Lookup(storage: map<string, string>, key: string): (v: Option<string>)
    ensures v.Some? <==> key in storage
    ensures v.Some? ==> v.value == storage[key]
  {
    if key in storage then Some(storage[key]) else None
  }

  /**
   * The seeding rule of the shell: a saved value that is truthy (present
   * and non-empty) decides the mode, which is dark exactly when that
   * value is "dark"; null and "" leave the current mode.
   */
  function ModeFromSaved(saved: Option<string>, current: bool): (dark: bool)
    ensures saved == None ==> dark == current
    ensures saved == Some("") ==> dark == current
    ensures saved.Some? && saved.value != "" ==> (dark <==> saved.value == DarkToken)
  {
    if saved.Some? && saved.value != "" then saved.value == DarkToken else current
  }

  /** The token a toggle persists for a mode. */
  function Token(dark: bool): (t: string)
    ensures t == DarkToken <==> dark
    ensures t == LightToken <==> !dark
    ensures forall current :: ModeFromSaved(Some(t), current) == dark
  {
    if dark then DarkToken else LightToken
  }

  /** The class effect: "dark" is present exactly in dark mode, all other classes are kept. */
  function WithDarkClass(classes: set<string>, dark: bool): (r: set<string>)
    ensures DarkClass in r <==> dark
    ensures r - {DarkClass} == classes - {DarkClass}
  {
    if dark then classes + {DarkClass} else classes - {DarkClass}
  }

  /** Re-applying the class effect only the last mode matters; in particular it is idempotent. */
  lemma WithDarkClassLastWins(classes: set<string>, first: bool, second: bool)
    ensures WithDarkClass(WithDarkClass(classes, first), second) == WithDarkClass(classes, second)
  {
  }

  /** Everything the theme preference touches: the mode, the storage and the root classes. */
  datatype ThemeState = ThemeState(darkMode: bool, storage: map<string, string>, rootClasses: set<string>)

  /** The mode, the stored token and the root class all agree. */
  predicate Synced(s: ThemeState) {
    && ThemeKey in s.storage
    && s.storage[ThemeKey] == Token(s.darkMode)
    && (DarkClass in s.rootClasses <==> s.darkMode)
  }

  /**
   * The state a page load reaches: the mode starts dark, is seeded once
   * from the saved value, storage is only read, and the class effect
   * mirrors the resulting mode.
   */
  function Loaded(storage: map<string, string>, rootClasses: set<string>): (s: ThemeState)
    ensures ThemeKey !in storage ==> s.darkMode
    ensures ThemeKey in storage && storage[ThemeKey] == "" ==> s.darkMode
    ensures ThemeKey in storage && storage[ThemeKey] != "" ==> (s.darkMode <==> storage[ThemeKey] == DarkToken)
    ensures s.storage == storage
    ensures DarkClass in s.rootClasses <==> s.darkMode
    ensures s.rootClasses - {DarkClass} == rootClasses - {DarkClass}
  {
    var dark := ModeFromSaved(Lookup(storage, ThemeKey), DefaultDark);
    ThemeState(dark, storage, WithDarkClass(rootClasses, dark))
  }

  /**
   * One toggle: the mode is negated, its token is written under the theme
   * key, no other storage entry changes, and the class effect follows.
   */
  function Toggled(s: ThemeState): (t: ThemeState)
    ensures t.darkMode == !s.darkMode
    ensures t.storage.Keys == s.storage.Keys + {ThemeKey}
    ensures forall k :: k in s.storage && k != ThemeKey ==> t.storage[k] == s.storage[k]
    ensures t.rootClasses - {DarkClass} == s.rootClasses - {DarkClass}
    ensures Synced(t)
  {
    var dark := !s.darkMode;
    ThemeState(dark, s.storage[ThemeKey := Token(dark)], WithDarkClass(s.rootClasses, dark))
  }

  /** Round trip: a reload seeded from a synced state's storage restores its mode. */
  lemma ReloadRestoresMode(s: ThemeState, rootClasses: set<string>)
    requires Synced(s)
    ensures Loaded(s.storage, rootClasses).darkMode == s.darkMode
    ensures Loaded(s.storage, rootClasses).storage == s.storage
  {
    assert Lookup(s.storage, ThemeKey) == Some(Token(s.darkMode));
  }

  /** Round trip: what a toggle writes brings the toggled mode back on the next load. */
  lemma ReloadAfterToggle(s: ThemeState, rootClasses: set<string>)
    ensures Loaded(Toggled(s).storage, rootClasses).darkMode == !s.darkMode
  {
    ReloadRestoresMode(Toggled(s), rootClasses);
  }

  /** Two toggles from a synced state give back exactly that state. */
  lemma ToggleTwice(s: ThemeState)
    requires Synced(s)
    ensures Toggled(Toggled(s)) == s
  {
    var t := Toggled(Toggled(s));
    assert t.storage == s.storage;
    assert t.rootClasses == s.rootClasses;
  }

  /** Two toggles from any state restore the mode and persist its token. */
  lemma ToggleTwiceMode(s: ThemeState)
    ensures Toggled(Toggled(s)).darkMode == s.darkMode
    ensures Toggled(Toggled(s)).storage == s.storage[ThemeKey := Token(s.darkMode)]
  {
  }

  /** n toggles in a row. */
  function Toggles(s: ThemeState, n: nat): (t: ThemeState)
  {
    if n == 0 then s else Toggled(Toggles(s, n - 1))
  }

  /**
   * After n toggles the mode is the start mode exactly when n is even;
   * after at least one toggle everything is synced; storage entries other
   * than the theme key never change.
   */
  lemma {:induction false} TogglesParity(s: ThemeState, n: nat)
    ensures Toggles(s, n).darkMode == (s.darkMode == (n % 2 == 0))
    ensures n > 0 ==> Synced(Toggles(s, n))
    ensures forall k :: k in s.storage && k != ThemeKey ==> k in Toggles(s, n).storage && Toggles(s, n).storage[k] == s.storage[k]
  {
    if n > 0 {
      TogglesParity(s, n - 1);
    }
  }

  /** From dark, n toggles give dark exactly when n is even, and a reload agrees. */
  lemma TogglesFromDark(s: ThemeState, n: nat, rootClasses: set<string>)
    requires s.darkMode
    requires n > 0
    ensures Toggles(s, n).darkMode <==> n % 2 == 0
    ensures Loaded(Toggles(s, n).storage, rootClasses).darkMode <==> n % 2 == 0
  {
    TogglesParity(s, n);
    ReloadRestoresMode(Toggles(s, n), rootClasses);
  }
}
