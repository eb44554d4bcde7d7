/** The page title of the application bar (src/components/layout/Header.jsx). */
module Header {

  const DEFAULT_TITLE := "Westigo Admin"

  /** The routes with a title of their own. */
  const KNOWN_PATHS: seq<string> := ["/", "/facilities", "/spaces", "/events", "/lists"]

  /** The title of each known route, position by position. */
  const KNOWN_TITLES: seq<string> := ["Dashboard Overview", "Facilities Management", "Space Management", "Campus Events", "Master Data Lists"]

  /** The paths of the sidebar menu (src/components/layout/Sidebar.jsx). */
  const MENU_PATHS: seq<string> := ["/", "/facilities", "/spaces", "/events", "/lists"]

  /** `getPageTitle`: a fixed title per known route, the application name otherwise. */
  function PageTitle(path: string): (title: string)
    ensures title != DEFAULT_TITLE <==> path in KNOWN_PATHS
    // a known route gets the title listed beside it
    ensures forall i :: 0 <= i < |KNOWN_PATHS| && path == KNOWN_PATHS[i] ==> title == KNOWN_TITLES[i]
    ensures title != ""
  {
    if path == "/" then "Dashboard Overview"
    else if path == "/facilities" then "Facilities Management"
    else if path == "/spaces" then "Space Management"
    else if path == "/events" then "Campus Events"
    else if path == "/lists" then "Master Data Lists"
    else DEFAULT_TITLE
  }

  /** Different known routes never share a title. */
  lemma KnownTitlesDistinct()
    ensures forall i, j :: 0 <= i < j < |KNOWN_PATHS| ==> PageTitle(KNOWN_PATHS[i]) != PageTitle(KNOWN_PATHS[j])
  {
  }

  /** Every sidebar entry leads to a page with its own title. */
  lemma MenuPathsTitled()
    ensures forall p :: p in MENU_PATHS ==> PageTitle(p) != DEFAULT_TITLE
  {
  }
}
