/** The application shell: which page is shown, whether the user is signed
    in, whether the start-up check is still running, and whether the
    sidebar is open. */
module App {

  /** What the main area shows. */
  datatype View =
    | LoadingView
    | LoginView
    | HomeView
    | StudyFlowView
    | SmartJourneyView
    | StudyRoomsView
    | UtilitiesView
    | ComingSoonView(pageName: string)

  /** The pages that have a screen of their own or a placeholder. */
  const KnownPages: set<string> := {
    "home", "study-flow", "smart-journey", "notes-buddy", "study-rooms",
    "planner", "collaboration", "utilities", "profile", "settings" }

  /** The pages shown as a "coming soon" placeholder. */
  const PlaceholderPages: set<string> := {"notes-buddy", "planner", "collaboration", "profile", "settings"}

  /** The `switch (currentPage)` of `renderPage`. */
  function PageView(currentPage: string): (v: View)
    ensures v != LoadingView && v != LoginView
    ensures v == HomeView <==> currentPage == "home" || currentPage !in KnownPages
    ensures v.ComingSoonView? <==> currentPage in PlaceholderPages
  {
    match currentPage
    case "home" => HomeView
    case "study-flow" => StudyFlowView
    case "smart-journey" => SmartJourneyView
    case "notes-buddy" => ComingSoonView("Notes Buddy")
    case "study-rooms" => StudyRoomsView
    case "planner" => ComingSoonView("Planner")
    case "collaboration" => ComingSoonView("Collaboration")
    case "utilities" => UtilitiesView
    case "profile" => ComingSoonView("Profile")
    case "settings" => ComingSoonView("Settings")
    case _ => HomeView
  }

  /** `renderPage`: loading first, then the sign-in page, then the page. */
  function RenderPage(isLoading: bool, isAuthenticated: bool, currentPage: string): (v: View)
    ensures isLoading ==> v == LoadingView
    ensures !isLoading && !isAuthenticated ==> v == LoginView
    ensures !isLoading && isAuthenticated ==> v == PageView(currentPage)
  {
    if isLoading then LoadingView
    else if !isAuthenticated then LoginView
    else PageView(currentPage)
  }

  /** `showHeader`: the sub-header, header, sidebar and chat widget are
      rendered only for a signed-in user once loading is over. */
  predicate ShowHeader(isAuthenticated: bool, isLoading: bool)
  {
    isAuthenticated && !isLoading
  }

  /** The chrome is shown exactly when the main area shows a page rather
      than the loading or sign-in screen. */
  lemma ChromeIffContent(isAuthenticated: bool, isLoading: bool, currentPage: string)
    ensures ShowHeader(isAuthenticated, isLoading) <==>
            RenderPage(isLoading, isAuthenticated, currentPage) !in {LoadingView, LoginView}
  {
  }

  /** The placeholder names the page it stands for. */
  lemma PlaceholderNames(currentPage: string)
    ensures PageView(currentPage) == ComingSoonView("Notes Buddy") <==> currentPage == "notes-buddy"
    ensures PageView(currentPage) == ComingSoonView("Planner") <==> currentPage == "planner"
    ensures PageView(currentPage) == ComingSoonView("Collaboration") <==> currentPage == "collaboration"
    ensures PageView(currentPage) == ComingSoonView("Profile") <==> currentPage == "profile"
    ensures PageView(currentPage) == ComingSoonView("Settings") <==> currentPage == "settings"
  {
  }

  class Shell {
    var currentPage: string
    var sidebarOpen: bool
    var isAuthenticated: bool
    var isLoading: bool

    /** The page currently rendered. */
    function View(): View
      reads this
    {
      RenderPage(isLoading, isAuthenticated, currentPage)
    }

    constructor ()
      ensures currentPage == "home" && !sidebarOpen && !isAuthenticated && isLoading
      ensures View() == LoadingView
    {
      currentPage := "home";
      sidebarOpen := false;
      isAuthenticated := false;
      isLoading := true;
    }

    /** The start-up check (after its delay): not signed in, loading over. */
    method CheckAuthStatus()
      modifies this
      ensures !isAuthenticated && !isLoading
      ensures currentPage == old(currentPage) && sidebarOpen == old(sidebarOpen)
      ensures View() == LoginView
    {
      isAuthenticated := false;
      isLoading := false;
    }

    /** `handleLoginSuccess`: only the signed-in flag changes. */
    method HandleLoginSuccess()
      modifies this
      ensures isAuthenticated
      ensures currentPage == old(currentPage) && sidebarOpen == old(sidebarOpen) && isLoading == old(isLoading)
      ensures !isLoading ==> View() == PageView(currentPage)
    {
      isAuthenticated := true;
    }

    /** `handleLogout`: signed out and back to the home page; the sidebar
        keeps its state. */
    method HandleLogout()
      modifies this
      ensures !isAuthenticated && currentPage == "home"
      ensures sidebarOpen == old(sidebarOpen) && isLoading == old(isLoading)
      ensures !isLoading ==> View() == LoginView
    {
      isAuthenticated := false;
      currentPage := "home";
    }

    /** `setCurrentPage`, the navigation callback given to the sidebar and
        to the utilities page. */
    method Navigate(page: string)
      modifies this
      ensures currentPage == page
      ensures sidebarOpen == old(sidebarOpen) && isAuthenticated == old(isAuthenticated) && isLoading == old(isLoading)
    {
      currentPage := page;
    }

    /** The header's menu button. */
    method ToggleSidebar()
      modifies this
      ensures sidebarOpen == !old(sidebarOpen)
      ensures currentPage == old(currentPage) && isAuthenticated == old(isAuthenticated) && isLoading == old(isLoading)
    {
      sidebarOpen := !sidebarOpen;
    }

    /** The sidebar's close callback, also bound to the overlay. */
    method CloseSidebar()
      modifies this
      ensures !sidebarOpen
      ensures currentPage == old(currentPage) && isAuthenticated == old(isAuthenticated) && isLoading == old(isLoading)
    {
      sidebarOpen := false;
    }
  }
}
