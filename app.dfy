/** The root component, which hides the sidebar on the login pages. */
module App {
  import opened Browser
  import Sidebar

  const RoutesWithoutSidebar: seq<string> := ["/login"]

  /** `routes.some(route => url === route || url.startsWith(route + '/'))`. */
  function SomeRouteMatches(routes: seq<string>, url: string): (b: bool)
    ensures b <==> exists i :: 0 <= i < |routes| && (url == routes[i] || routes[i] + "/" <= url)
    decreases |routes|
  {
    assert forall i :: 0 <= i < |routes| - 1 ==> routes[1..][i] == routes[i + 1];
    |routes| > 0 && (url == routes[0] || routes[0] + "/" <= url || SomeRouteMatches(routes[1..], url))
  }

  /** The value `updateSidebarVisibility(url)` gives `showSidebar`: hidden
      exactly on `/login` and the paths below it. */
  function ShowSidebar(url: string): (show: bool)
    ensures !show <==> url == "/login" || (|url| > 6 && url[..6] == "/login" && url[6] == '/')
  {
    assert RoutesWithoutSidebar[0] + "/" == "/login/";
    assert !SomeRouteMatches(RoutesWithoutSidebar[1..], url);
    assert "/login/" <= url <==> |url| > 6 && url[..6] == "/login" && url[6] == '/' by {
      if |url| > 6 && url[..6] == "/login" && url[6] == '/' {
        assert url[..7] == url[..6] + [url[6]];
      }
    }
    !SomeRouteMatches(RoutesWithoutSidebar, url)
  }

  /** The root component's rule agrees with the sidebar's active-link rule
      for the login route. */
  lemma ShowSidebarIsNotLoginActive(url: string)
    ensures ShowSidebar(url) == !Sidebar.RouteActive(url, "/login")
  {
  }

  lemma ShowSidebarExamples()
    ensures !ShowSidebar("/login") && !ShowSidebar("/login/reset")
    ensures ShowSidebar("/loginx") && ShowSidebar("/complaints") && ShowSidebar("/")
  {
    assert "/loginx"[6] == 'x';
  }

  /** The visibility after the initial value and a sequence of
      `NavigationEnd` URLs, each event overwriting the last value: only the
      latest navigation decides whether the sidebar shows. */
  function Replay(show: bool, events: seq<string>): (shown: bool)
    ensures events == [] ==> shown == show
    ensures events != [] ==> shown == ShowSidebar(events[|events| - 1])
    decreases |events|
  {
    if events == [] then show
    else
      assert events[1..] != [] ==> events[1..][|events[1..]| - 1] == events[|events| - 1];
      Replay(ShowSidebar(events[0]), events[1..])
  }

  class AppComponent {
    var showSidebar: bool

    /** Computes the visibility from the router's URL at start-up. */
    constructor (router: Router)
      ensures showSidebar == ShowSidebar(router.url)
    {
      showSidebar := ShowSidebar(router.url);
    }

    /** `updateSidebarVisibility(url)`, run on each `NavigationEnd`: the new
      value depends on `url` alone. */
    method UpdateSidebarVisibility(url: string)
      modifies this
      ensures showSidebar == ShowSidebar(url)
    {
      showSidebar := ShowSidebar(url);
    }
  }
}
