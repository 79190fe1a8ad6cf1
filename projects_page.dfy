/** The projects page of the router application: its theme control, technology icons and image sources. */
module ProjectsPage {
  import opened Theme
  import opened Icons
  import opened Text
  import AppShell

  /**
   * `toggleTheme`: sets the negation of the mode the page was rendered
   * with and persists that new mode's token under the theme key.
   */
  method ToggleTheme(app: AppShell.App)
    modifies app, app.browser
    ensures app.State() == Toggled(old(app.State()))
  {
    var darkMode := app.darkMode;
    app.SetDarkMode(!darkMode);
    app.browser.SetItem(ThemeKey, if !darkMode then DarkToken else LightToken);
  }

  /** The toggle button shows Sun in dark mode and Moon in light mode. */
  function ToggleIcon(darkMode: bool): (icon: Icon)
    ensures icon == Sun <==> darkMode
    ensures icon == Moon <==> !darkMode
  {
    if darkMode then Sun else Moon
  }

  /** The icon tells which token the next toggle writes: Moon before writing "dark". */
  lemma ToggleIconNamesNextToken(s: ThemeState)
    ensures ToggleIcon(s.darkMode) == Moon <==> Toggled(s).storage[ThemeKey] == DarkToken
    ensures ToggleIcon(Toggled(s).darkMode) != ToggleIcon(s.darkMode)
  {
  }

  /**
   * `getTechIcon`: the badge icon of a technology name, chosen on its
   * lower-case form; four names are recognised, all others get Smartphone.
   */
  function TechIcon(tech: string): (icon: Icon)
    ensures icon in {Code, Server, Database, Smartphone}
    ensures icon == Code <==> ToLower(tech) == "react"
    ensures icon == Server <==> ToLower(tech) == "node.js" || ToLower(tech) == "express"
    ensures icon == Database <==> ToLower(tech) == "mongodb"
  {
    var key := ToLower(tech);
    if key == "react" then Code
    else if key == "node.js" then Server
    else if key == "mongodb" then Database
    else if key == "express" then Server
    else Smartphone
  }

  /** Case does not matter: a name and its lower-case form get the same icon. */
  lemma TechIconCaseInsensitive(tech: string)
    ensures TechIcon(tech) == TechIcon(ToLower(tech))
  {
    ToLowerIdempotent(tech);
  }

  /** The four recognised names as this page writes them. */
  lemma TechIconKnownNames()
    ensures TechIcon("React") == Code
    ensures TechIcon("Node.js") == Server
    ensures TechIcon("MongoDB") == Database
    ensures TechIcon("Express") == Server
  {
    ToLowerIs("React", "react");
    ToLowerIs("Node.js", "node.js");
    ToLowerIs("MongoDB", "mongodb");
    ToLowerIs("Express", "express");
  }

  /** Names this page lists that are not recognised, and a near miss, fall back to Smartphone. */
  lemma TechIconFallback()
    ensures TechIcon("Socket.io") == Smartphone
    ensures TechIcon("Express.js") == Smartphone
    ensures TechIcon("JWT") == Smartphone
  {
    OtherLengthIsSmartphone("Socket.io");
    OtherLengthIsSmartphone("Express.js");
    OtherLengthIsSmartphone("JWT");
  }

  /** Lower-casing keeps the length, so a name of neither 5 nor 7 characters is never recognised. */
  lemma OtherLengthIsSmartphone(tech: string)
    requires |tech| != 5 && |tech| != 7
    ensures TechIcon(tech) == Smartphone
  {
  }

  /** `project.image || "/placeholder.svg"`: the empty string is the only falsy image. */
  function ImageSrc(image: string): (src: string)
    ensures image != "" ==> src == image
    ensures image == "" ==> src == "/placeholder.svg"
    ensures src != ""
  {
    if image != "" then image else "/placeholder.svg"
  }
}
