/**
 * The application shell: it owns the one `darkMode` state cell, seeds it
 * from storage on mount, mirrors it onto the root element's class list,
 * and hands the same mode and setter to every route.
 */
module AppShell {
  import opened Wrappers
  import opened Theme

  /** The browser globals the shell touches: `localStorage` and the root element's `classList`. */
  class Browser {
    var storage: map<string, string>
    var rootClasses: set<string>

    constructor (storage: map<string, string>, rootClasses: set<string>)
      ensures this.storage == storage && this.rootClasses == rootClasses
    {
      this.storage := storage;
      this.rootClasses := rootClasses;
    }

    /** `localStorage.getItem`. */
    function GetItem(key: string): (v: Option<string>)
      reads this
    {
      Lookup(storage, key)
    }

    /** `localStorage.setItem`: overwrites one key. */
    method SetItem(key: string, value: string)
      modifies this`storage
      ensures storage == old(storage)[key := value]
    {
      storage := storage[key := value];
    }

    /** `classList.add`. */
    method AddClass(c: string)
      modifies this`rootClasses
      ensures rootClasses == old(rootClasses) + {c}
    {
      rootClasses := rootClasses + {c};
    }

    /** `classList.remove`. */
    method RemoveClass(c: string)
      modifies this`rootClasses
      ensures rootClasses == old(rootClasses) - {c}
    {
      rootClasses := rootClasses - {c};
    }
  }

  /** The three routes of the router. */
  datatype Route = Home | About | Projects

  /** What a page receives: the current mode and the shell whose setter it may call. */
  datatype PageProps = PageProps(darkMode: bool, shell: App)

  class App {
    var darkMode: bool
    const browser: Browser

    /** First render: `useState(true)`. */
    constructor (browser: Browser)
      ensures darkMode == DefaultDark && this.browser == browser
    {
      darkMode := DefaultDark;
      this.browser := browser;
    }

    /** The theme state seen through the shell. */
    ghost function State(): (s: ThemeState)
      reads this, browser
    {
      ThemeState(darkMode, browser.storage, browser.rootClasses)
    }

    /** The class effect: add "dark" in dark mode, remove it otherwise. */
    method ApplyTheme()
      modifies browser`rootClasses
      ensures browser.rootClasses == WithDarkClass(old(browser.rootClasses), darkMode)
    {
      if darkMode {
        browser.AddClass(DarkClass);
      } else {
        browser.RemoveClass(DarkClass);
      }
    }

    /**
     * The mount effects in the order React runs them: the seeding effect
     * reads the saved value and schedules the new mode; the class effect
     * runs with the first render's mode; the state update re-renders and
     * the class effect runs again if the mode changed. Storage is only read.
     */
    method Mount()
      modifies this`darkMode, browser`rootClasses
      ensures darkMode == ModeFromSaved(Lookup(old(browser.storage), ThemeKey), old(darkMode))
      ensures browser.storage == old(browser.storage)
      ensures browser.rootClasses == WithDarkClass(old(browser.rootClasses), darkMode)
    {
      var saved := browser.GetItem(ThemeKey);
      var next := darkMode;
      if saved.Some? && saved.value != "" {
        next := saved.value == DarkToken;
      }
      ApplyTheme();
      if next != darkMode {
        darkMode := next;
        ApplyTheme();
        WithDarkClassLastWins(old(browser.rootClasses), !next, next);
      }
    }

    /**
     * `setDarkMode`: a new value re-renders the shell, which runs the class
     * effect for it; setting the current value again is a bail-out and
     * changes nothing.
     */
    method SetDarkMode(value: bool)
      modifies this`darkMode, browser`rootClasses
      ensures darkMode == value
      ensures browser.rootClasses == if value != old(darkMode) then WithDarkClass(old(browser.rootClasses), value) else old(browser.rootClasses)
    {
      if value != darkMode {
        darkMode := value;
        ApplyTheme();
      }
    }

    /** The props of every route: the one shared mode and this shell's setter, whatever the route. */
    function Props(route: Route): (p: PageProps)
      reads this
      ensures p.darkMode == darkMode && p.shell == this
    {
      PageProps(darkMode, this)
    }
  }

  /** A page load: the shell's first render followed by its mount effects. */
  method Start(browser: Browser) returns (app: App)
    modifies browser
    ensures fresh(app) && app.browser == browser
    ensures app.State() == Loaded(old(browser.storage), old(browser.rootClasses))
  {
    app := new App(browser);
    app.Mount();
  }
}
