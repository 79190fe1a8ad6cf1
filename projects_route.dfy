/** The projects route of the Next.js application: its own copy of the technology icons and image sources. */
module ProjectsRoute {
  import opened Icons
  import opened Text
  import ProjectsPage

  /** `getTechIcon`, written here as a switch on the lower-case name. */
  function TechIcon(tech: string): (icon: Icon)
    ensures icon in {Code, Server, Database, Smartphone}
    ensures icon == Smartphone <==> ToLower(tech) !in {"react", "node.js", "mongodb", "express"}
  {
    match ToLower(tech)
    case "react" => Code
    case "node.js" => Server
    case "mongodb" => Database
    case "express" => Server
    case _ => Smartphone
  }

  /** Both copies of `getTechIcon` give the same icon for every name. */
  lemma AgreesWithProjectsPage(tech: string)
    ensures TechIcon(tech) == ProjectsPage.TechIcon(tech)
  {
  }

  /** Case does not matter: a name and its lower-case form get the same icon. */
  lemma TechIconCaseInsensitive(tech: string)
    ensures TechIcon(tech) == TechIcon(ToLower(tech))
  {
    ToLowerIdempotent(tech);
  }

  /** "Node.js" gets the icon of "node.js". */
  lemma NodeJsAnyCase()
    ensures TechIcon("Node.js") == TechIcon("node.js") == Server
  {
    ToLowerIs("Node.js", "node.js");
    ToLowerOfLower("node.js");
  }

  /** Names this route lists that are not recognised fall back to Smartphone. */
  lemma UnknownNamesGetSmartphone()
    ensures TechIcon("HTML") == Smartphone
    ensures TechIcon("Html") == Smartphone
    ensures TechIcon("GSAP") == Smartphone
    ensures TechIcon("Socket.io") == Smartphone
  {
    AgreesWithProjectsPage("HTML");
    AgreesWithProjectsPage("Html");
    AgreesWithProjectsPage("GSAP");
    AgreesWithProjectsPage("Socket.io");
    ProjectsPage.OtherLengthIsSmartphone("HTML");
    ProjectsPage.OtherLengthIsSmartphone("Html");
    ProjectsPage.OtherLengthIsSmartphone("GSAP");
    ProjectsPage.OtherLengthIsSmartphone("Socket.io");
  }

  /** Two different names share the Server icon, so the mapping is not injective. */
  lemma TechIconNotInjective()
    ensures "node.js" != "express" && TechIcon("node.js") == TechIcon("express")
  {
    ToLowerOfLower("node.js");
    ToLowerOfLower("express");
  }

  /** `project.image || "/placeholder.svg"`: the placeholder is used exactly for the empty image. */
  function ImageSrc(image: string): (src: string)
    ensures src == "/placeholder.svg" <==> image == "" || image == "/placeholder.svg"
    ensures image != "" ==> src == image
    ensures src != ""
  {
    if image == "" then "/placeholder.svg" else image
  }

  /** Both copies of the image fallback agree. */
  lemma ImageSrcAgrees(image: string)
    ensures ImageSrc(image) == ProjectsPage.ImageSrc(image)
  {
  }
}
