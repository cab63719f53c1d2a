/** The sidebar's navigation list and the breadcrumb it shows above it. */
module Sidebar {
  import opened Values

  /** One link of the navigation list: its `title` and `href`. */
  datatype NavItem = NavItem(title: string, href: string)

  /** `navItems`, in display order. */
  const NavItems: seq<NavItem> := [
    NavItem("Dashboard", "/"),
    NavItem("Upload Excel", "/upload"),
    NavItem("Generate Charts", "/charts"),
    NavItem("History", "/history"),
    NavItem("AI Insights", "/ai-insights"),
    NavItem("Reports", "/reports"),
    NavItem("Settings", "/settings")
  ]

  /** The paths that show a breadcrumb. */
  const BreadcrumbPaths: seq<string> := ["/upload", "/charts", "/history", "/ai-insights"]

  /** `getBreadcrumbTitle`: a fixed title for each of the four feature
      paths, the empty string for any other. */
  function BreadcrumbTitle(path: string): (t: string)
    ensures path !in BreadcrumbPaths ==> t == ""
    ensures path in BreadcrumbPaths ==> t != ""
  {
    match path
    case "/upload" => "Upload Excel"
    case "/charts" => "Generate Charts"
    case "/history" => "Analysis History"
    case "/ai-insights" => "AI Insights"
    case _ => ""
  }

  /** `showBreadcrumb`: the current path is one of the four. */
  predicate ShowBreadcrumb(path: string) {
    path in BreadcrumbPaths
  }

  /** The breadcrumb is shown exactly when it has something to say. */
  lemma ShownIffTitled(path: string)
    ensures ShowBreadcrumb(path) <==> BreadcrumbTitle(path) != ""
  {
  }

  /** The title on the first navigation link to a path, if any link goes
      there; used to compare the breadcrumb with the link. */
  function NavTitle(items: seq<NavItem>, path: string): (t: Option<string>)
    ensures t.None? <==> forall i :: 0 <= i < |items| ==> items[i].href != path
    ensures forall i :: 0 <= i < |items| && items[i].href == path && (forall j :: 0 <= j < i ==> items[j].href != path)
                        ==> t == Some(items[i].title)
  {
    if items == [] then None
    else if items[0].href == path then Some(items[0].title)
    else NavTitle(items[1..], path)
  }

  /** One breadcrumb path at a time: the first link to it and that link's
      title. */
  lemma UploadLink()
    ensures NavTitle(NavItems, "/upload") == Some(BreadcrumbTitle("/upload"))
  {
    assert NavItems[0].href != "/upload" && NavItems[1].href == "/upload";
  }

  lemma ChartsLink()
    ensures NavTitle(NavItems, "/charts") == Some(BreadcrumbTitle("/charts"))
  {
    assert NavItems[0].href != "/charts" && NavItems[1].href != "/charts" && NavItems[2].href == "/charts";
  }

  lemma HistoryLink()
    ensures NavTitle(NavItems, "/history") == Some("History") && BreadcrumbTitle("/history") == "Analysis History"
  {
    assert NavItems[0].href != "/history" && NavItems[1].href != "/history" && NavItems[2].href != "/history";
    assert NavItems[3].href == "/history";
  }

  lemma InsightsLink()
    ensures NavTitle(NavItems, "/ai-insights") == Some(BreadcrumbTitle("/ai-insights"))
  {
    assert NavItems[0].href != "/ai-insights" && NavItems[1].href != "/ai-insights";
    assert NavItems[2].href != "/ai-insights" && NavItems[3].href != "/ai-insights";
    assert NavItems[4].href == "/ai-insights";
  }

  /** Each of the four breadcrumb paths has a navigation link. The
      breadcrumb repeats that link's title on every one of them except
      '/history', whose link says "History" while the breadcrumb says
      "Analysis History". */
  lemma CrumbsAgreeWithNav()
    ensures NavTitle(NavItems, "/upload") == Some(BreadcrumbTitle("/upload"))
    ensures NavTitle(NavItems, "/charts") == Some(BreadcrumbTitle("/charts"))
    ensures NavTitle(NavItems, "/ai-insights") == Some(BreadcrumbTitle("/ai-insights"))
    ensures NavTitle(NavItems, "/history") == Some("History") && BreadcrumbTitle("/history") == "Analysis History"
  {
    UploadLink();
    ChartsLink();
    HistoryLink();
    InsightsLink();
  }
}
