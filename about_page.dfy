/** The about page's theme control. */
module AboutPage {
  import opened Theme
  import opened Icons
  import AppShell

  /**
   * `toggleTheme`: sets the negation of the mode the page was rendered
   * with and persists that new mode's token under the theme key.
   */
  method ToggleTheme(app: AppShell.App)
    modifies app, app.browser
    ensures app.State() == Toggled(old(app.State()))
  {
    var darkMode := app.darkMode;
    app.SetDarkMode(!darkMode);
    app.browser.SetItem(ThemeKey, if !darkMode then DarkToken else LightToken);
  }

  /** The toggle button shows Sun in dark mode and Moon in light mode. */
  function ToggleIcon(darkMode: bool): (icon: Icon)
    ensures icon == Sun <==> darkMode
    ensures icon == Moon <==> !darkMode
  {
    if darkMode then Sun else Moon
  }

  /** The icon tells which token the next toggle writes: Moon before writing "dark". */
  lemma ToggleIconNamesNextToken(s: ThemeState)
    ensures ToggleIcon(s.darkMode) == Moon <==> Toggled(s).storage[ThemeKey] == DarkToken
    ensures ToggleIcon(Toggled(s).darkMode) != ToggleIcon(s.darkMode)
  {
  }
}
