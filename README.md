# Theme preference and contact form of a portfolio site

The site is a set of presentational React pages. Its only behavioural logic
is modelled here:

- **Theme preference.** The application shell (`src/App.tsx`) owns one
  `darkMode` state cell that starts dark. On mount it is seeded once from the
  `"theme"` entry of `localStorage`, and an effect mirrors it onto the root
  element's `"dark"` class. The home, about and projects pages each have an
  identical `toggleTheme` that negates the mode and writes `"dark"` or
  `"light"` back under the same key. Each page also shows a Sun/Moon icon.
- **Technology icons and image sources** on the two projects pages: a
  case-insensitive lookup from a technology name to one of four icons, and
  the `image || "/placeholder.svg"` fallback.
- **Contact form** (`app/about/Contact.tsx`): a controlled record
  `{name, email, message}`, an `isSubmitting` flag and a simulated two-phase
  submission that ends with a "Message sent!" toast and cleared fields.

Browser pieces are replaced by plain state. `localStorage` is a
`map<string, string>` (a missing key reads as `None`, JavaScript's null). The
root element's class list is a `set<string>`. The toasts shown are an
appended `seq<Toast>`.

Layout of the project:

- `theme.dfy` (module `Theme`): the pure specification. It defines the
  seeding rule, the persisted token, the class effect, the state after a page
  load (`Loaded`) and after a toggle (`Toggled`), and the lemmas about them:
  round trips, double toggles and parity of n toggles.
- `app_shell.dfy` (module `AppShell`): the shell as imperative code. It has
  a `Browser` class (storage and class list), an `App` class holding
  `darkMode`, its mount effects, its setter and the props it hands to every
  route.
- `home_page.dfy`, `about_page.dfy`, `projects_page.dfy`: each page's
  `toggleTheme`, proved to produce exactly `Theme.Toggled` of the previous
  state. Also the icon choice, and on the projects page `getTechIcon` and the
  image fallback.
- `projects_route.dfy` (module `ProjectsRoute`): the Next.js projects page's
  own copy of `getTechIcon` and the image fallback, proved equal to the other
  copy for every input.
- `contact.dfy` (module `Contact`): the form record and the `ContactForm`
  class with `HandleChange`, `BeginSubmit` and `CompleteSubmit`.
- `session.dfy`: a client that toggles on every page and reloads.
- `text.dfy` (ASCII `toLowerCase`), `icons.dfy`, `wrappers.dfy`: helpers.

Facts about the code that shape the model:

- Seeding rule: a non-empty saved value other than `"dark"` (for example
  `"blue"`) gives **light**, because the shell sets
  `darkMode = (saved === "dark")` whenever the saved value is truthy
  (src/App.tsx:16-17). Only a missing key or `""` keeps dark.
- Submission state is one boolean. There is no separate "succeeded" state:
  after completion the form is back to not submitting.
- `handleSubmit` itself does not check `isSubmitting`. The only single-flight
  guard is the disabled submit button. So `BeginSubmit` requires
  `!isSubmitting`, and `ContactForm.PressSubmit` models the button gate.

React timing is modelled as follows:

- `App.SetDarkMode` stands for the setter plus the re-render it causes, which
  runs the class effect for a new value. Setting the current value again
  bails out and changes nothing.
- `App.Mount` runs the two mount effects in React's order: the seeding effect
  reads storage, the class effect runs with the first render's mode, then the
  state update re-runs the class effect.
- `toggleTheme` reads the mode once, as the rendered prop, and uses that value
  both for the setter and for the token.

## Model

| member | source | states |
|---|---|---|
| Theme.Lookup | src/App.tsx:15 | a read of a missing key gives None (null); a present key gives its stored string |
| Theme.ModeFromSaved | src/App.tsx:15-18 | null and "" keep the current mode; any other saved value gives dark exactly when it is "dark" ("blue" gives light) |
| Theme.Token | src/pages/HomePage.tsx:107 | the persisted token is "dark" iff the mode is dark and "light" iff it is light; seeding from the token gives that mode back whatever the current mode |
| Theme.WithDarkClass | src/App.tsx:22-27 | after the class effect "dark" is in the root class set iff darkMode, and every other class is unchanged |
| Theme.WithDarkClassLastWins | src/App.tsx:21-28 | re-running the class effect leaves only the last mode's effect; with equal modes it is idempotent |
| Theme.Loaded | src/App.tsx:11-28 | a page load gives dark with no saved value or an empty one, otherwise dark iff the saved value is "dark"; storage is only read; the class set mirrors the mode |
| Theme.Toggled | src/pages/HomePage.tsx:105-108 | a toggle negates the mode, writes its token under "theme" only, keeps every other storage entry and class, and leaves mode, token and class in agreement |
| Theme.ReloadRestoresMode | src/App.tsx:13-19 | seeding from storage whose token agrees with the mode gives that mode back, and the seeding leaves storage unchanged |
| Theme.ReloadAfterToggle | src/pages/HomePage.tsx:106-107 | round trip: re-running the initializer on what a toggle wrote gives the mode that toggle set |
| Theme.ToggleTwice | src/pages/AboutPage.tsx:22-25 | from an agreeing state two toggles are the identity on mode, storage and classes |
| Theme.ToggleTwiceMode | src/pages/ProjectsPage.tsx:22-25 | from any state two toggles restore the mode and persist that mode's token |
| Theme.TogglesParity | src/pages/HomePage.tsx:106 | after n toggles the mode equals the start mode iff n is even; after one or more toggles everything agrees; other storage keys never change |
| Theme.TogglesFromDark | src/App.tsx:11 | from dark, n > 0 toggles give dark iff n is even, and a reload shows the same |
| AppShell.App.constructor | src/App.tsx:11 | the shell's first render has darkMode true |
| AppShell.App.ApplyTheme | src/App.tsx:21-28 | the class effect sets the root class set to WithDarkClass of the old set and the current mode |
| AppShell.App.Mount | src/App.tsx:13-28 | the mount effects set the mode by the seeding rule, leave storage unchanged, and leave the class set mirroring the final mode |
| AppShell.App.SetDarkMode | src/App.tsx:11 | the setter stores the new mode; a change re-runs the class effect; repeating the current value changes nothing |
| AppShell.App.Props | src/App.tsx:38-40 | every route receives the shell's one current mode and the same shell's setter |
| AppShell.Start | src/App.tsx:10-28 | a page load reaches exactly Theme.Loaded of the storage and class set it found |
| HomePage.ToggleTheme | src/pages/HomePage.tsx:105-108 | the home page toggle takes the shell's state to Theme.Toggled of the old state |
| HomePage.ToggleIcon | src/pages/HomePage.tsx:289 | the toggle button shows Sun iff the mode is dark, else Moon |
| HomePage.ToggleIconNamesNextToken | src/pages/HomePage.tsx:289 | the icon shows Moon exactly when the next toggle writes "dark"; a toggle always changes the icon |
| AboutPage.ToggleTheme | src/pages/AboutPage.tsx:22-25 | the about page toggle takes the shell's state to Theme.Toggled of the old state |
| AboutPage.ToggleIcon | src/pages/AboutPage.tsx:145 | the icon is Sun iff dark, Moon otherwise |
| AboutPage.ToggleIconNamesNextToken | src/pages/AboutPage.tsx:145 | the icon shows Moon exactly when the next toggle writes "dark"; a toggle always changes the icon |
| ProjectsPage.ToggleTheme | src/pages/ProjectsPage.tsx:22-25 | the projects page toggle takes the shell's state to Theme.Toggled of the old state |
| ProjectsPage.ToggleIcon | src/pages/ProjectsPage.tsx:179 | the toggle button shows Sun iff the mode is dark, else Moon |
| ProjectsPage.ToggleIconNamesNextToken | src/pages/ProjectsPage.tsx:179 | the icon shows Moon exactly when the next toggle writes "dark"; a toggle always changes the icon |
| ProjectsPage.TechIcon | src/pages/ProjectsPage.tsx:91-104 | the icon is one of four; Code iff the lower-case name is "react", Server iff "node.js" or "express", Database iff "mongodb", otherwise Smartphone |
| ProjectsPage.TechIconCaseInsensitive | src/pages/ProjectsPage.tsx:92 | a name and its lower-case form get the same icon |
| ProjectsPage.TechIconKnownNames | src/pages/ProjectsPage.tsx:93-100 | React, Node.js, MongoDB and Express give Code, Server, Database and Server |
| ProjectsPage.TechIconFallback | src/pages/ProjectsPage.tsx:101-102 | Socket.io, Express.js and JWT give Smartphone |
| ProjectsPage.OtherLengthIsSmartphone | src/pages/ProjectsPage.tsx:92-102 | a name whose length is neither 5 nor 7 is never one of the four keys and gets Smartphone |
| ProjectsPage.ImageSrc | src/pages/ProjectsPage.tsx:240 | the image is used when non-empty, otherwise "/placeholder.svg"; the result is never empty |
| ProjectsRoute.TechIcon | app/projects/page.tsx:123-136 | the icon is one of four, and Smartphone exactly for names whose lower-case form is none of the four keys |
| ProjectsRoute.AgreesWithProjectsPage | app/projects/page.tsx:123-136 | this copy of getTechIcon gives the same icon as the router page's copy for every name |
| ProjectsRoute.TechIconCaseInsensitive | app/projects/page.tsx:124 | a name and its lower-case form get the same icon |
| ProjectsRoute.NodeJsAnyCase | app/projects/page.tsx:124-128 | "Node.js" and "node.js" both give Server |
| ProjectsRoute.UnknownNamesGetSmartphone | app/projects/page.tsx:133-134 | HTML, Html, GSAP and Socket.io give Smartphone |
| ProjectsRoute.TechIconNotInjective | app/projects/page.tsx:127-132 | "node.js" and "express" are different names with the same icon |
| ProjectsRoute.ImageSrc | app/projects/page.tsx:204 | the placeholder appears exactly when the image is empty or is the placeholder path itself; otherwise the image is used |
| ProjectsRoute.ImageSrcAgrees | app/projects/page.tsx:204 | both image fallbacks give the same source for every image |
| Text.ToLower | src/pages/ProjectsPage.tsx:92 | lower-casing keeps the length and lower-cases each character (ASCII capitals only) |
| Text.ToLowerIdempotent | app/projects/page.tsx:124 | lower-casing a lower-cased name changes nothing |
| Contact.InputName | app/about/Contact.tsx:79-102 | every input's name attribute is one of "name", "email", "message" |
| Contact.FieldNamed | app/about/Contact.tsx:25-26 | an event's input name addresses a field exactly when it is one of the three names, and that field's input carries the name |
| Contact.InputNameRoundTrip | app/about/Contact.tsx:79-102 | the three inputs carry three distinct names, each addressing its own field, so the record only has those keys |
| Contact.FormData.With | app/about/Contact.tsx:26 | replacing one field sets it to the new value and keeps the other two |
| Contact.WithLastWins | app/about/Contact.tsx:24-27 | the last write to a field wins, and writes to different fields commute |
| Contact.ButtonFor | app/about/Contact.tsx:110-111 | the button is disabled and reads "Sending..." iff submitting, else it reads "Send Message" |
| Contact.ContactForm.constructor | app/about/Contact.tsx:17-22 | the form starts with three empty fields, not submitting and no toast |
| Contact.ContactForm.HandleChange | app/about/Contact.tsx:24-27 | handleChange replaces exactly the changed field |
| Contact.ContactForm.BeginSubmit | app/about/Contact.tsx:29-34 | the first phase sets isSubmitting before the delay and touches nothing else; callers must not be submitting |
| Contact.ContactForm.CompleteSubmit | app/about/Contact.tsx:36-42 | the second phase appends exactly one "Message sent!" toast, clears all three fields and resets isSubmitting; there is no error path |
| Contact.ContactForm.Button | app/about/Contact.tsx:110-111 | the form's button is disabled and reads "Sending..." iff the form is submitting, else it reads "Send Message" |
| Contact.ContactForm.PressSubmit | app/about/Contact.tsx:110 | a press starts a submission exactly when none is in flight; either way one is in flight afterwards |
| Contact.SubmitScenario | app/about/Contact.tsx:15-43 | typing, a double press and the delay give exactly one toast, empty fields and an enabled "Send Message" button |
| Session.ToggleOnEveryPageThenReload | src/App.tsx:38-40 | every route's props carry the one shared mode; toggles made through the three routes' props act on that one mode; a reload shows the last mode, the opposite of the first load's |

## Left out

- Layout, Tailwind class strings and the colour, gradient and background choices made from `darkMode`: presentation.
- framer-motion animations, the custom cursor and its offsets, scroll transforms: animation-library calls and pixel coordinates.
- The `Math.random()` star fields on the three router pages: floating point and randomness.
- The 1500 ms delay of `handleSubmit`: it is the gap between `BeginSubmit` and `CompleteSubmit`, not time.
- The toast UI, `preventDefault`, and HTML `required` and `type="email"` validation: browser and UI-library behaviour. A form with empty fields can therefore be submitted in the model.
- Unmounting the form while a submission is in flight: nothing in the code handles it, and the model has no unmount.
- `localStorage` failures (quota, disabled storage) and the real `classList` API: both are plain state here.
- Routing (react-router, next/link) and `scrollIntoView`: only the props every route receives are modelled.
- app/page.tsx (the unused theme hook, the mount guard, cursor variants) and app/about/page.tsx (static arrays, offsets): no logic to model.
- React's batching and scheduling of state updates beyond the order described above: effects are modelled as running to completion.
- A change event whose input name is not one of the three: no such input exists, so `HandleChange` takes a `Field` rather than a free string.
- Text.ToLower: lower-cases only the ASCII capitals, not the full Unicode case mapping of `toLowerCase`.
