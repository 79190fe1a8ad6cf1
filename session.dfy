/** A browsing session across routes: the mode is shared by every page and survives a reload. */
module Session {
  import opened Theme
  import AppShell
  import HomePage
  import AboutPage
  import ProjectsPage

  /**
   * Load the site, toggle on the home page, then on the about page, then
   * on the projects page, each through the props its route receives, and
   * reload: the reload shows the mode the last
   * toggle set, which is the opposite of the first load's mode.
   */
  method ToggleOnEveryPageThenReload(browser: AppShell.Browser, freshClasses: set<string>)
    returns (first: AppShell.App, reloaded: AppShell.App)
    modifies browser
    ensures forall r :: first.Props(r).darkMode == first.darkMode && first.Props(r).shell == first
    ensures reloaded.darkMode == first.darkMode
    ensures reloaded.darkMode == !Loaded(old(browser.storage), old(browser.rootClasses)).darkMode
  {
    first := AppShell.Start(browser);
    ghost var loaded := first.State();
    HomePage.ToggleTheme(first.Props(AppShell.Home).shell);
    assert first.State() == Toggles(loaded, 1);
    AboutPage.ToggleTheme(first.Props(AppShell.About).shell);
    assert first.State() == Toggles(loaded, 2);
    ProjectsPage.ToggleTheme(first.Props(AppShell.Projects).shell);
    assert first.State() == Toggles(loaded, 3);
    TogglesParity(loaded, 3);
    browser.rootClasses := freshClasses;
    reloaded := AppShell.Start(browser);
    ReloadRestoresMode(Toggles(loaded, 3), freshClasses);
  }
}
