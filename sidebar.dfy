/** The navigation sidebar: active-link highlighting and logout. */
module Sidebar {
  import opened Browser

  /** `url === route || url.startsWith(route + '/')`: the URL is the route
      itself or a path below it. */
  function RouteActive(url: string, route: string): (b: bool)
    ensures b <==> url == route || (|url| > |route| && url[..|route|] == route && url[|route|] == '/')
  {
    url == route || route + "/" <= url
  }

  /** A sub-path is active for its parent route; a longer sibling name is not. */
  lemma ActiveExamples()
    ensures RouteActive("/complaints/5", "/complaints")
    ensures !RouteActive("/complaintsX", "/complaints")
    ensures !RouteActive("/complaint", "/complaints")
  {
    assert "/complaintsX"[11] == 'X';
  }

  /** The storage keys logout removes. */
  const SessionKeys: set<string> := {"accessToken", "token", "refreshToken", "user"}

  /** Storage after logout: the four session keys are gone and every other
      key keeps its value. */
  function ClearedSession(items: map<string, string>): (r: map<string, string>)
    ensures r.Keys == items.Keys - SessionKeys
    ensures forall k :: k in r ==> r[k] == items[k]
  {
    items - {"accessToken"} - {"token"} - {"refreshToken"} - {"user"}
  }

  class SidebarComponent {
    const router: Router

    constructor (router: Router)
      ensures this.router == router
    {
      this.router := router;
    }

    /** Whether the link for `route` is highlighted at the router's URL:
      `url === route || url.startsWith(route + '/')`. */
    function IsActive(route: string): (b: bool)
      reads router
      ensures b <==> router.url == route || route + "/" <= router.url
    {
      var url := router.url;
      assert route + "/" <= url <==> |url| > |route| && url[..|route|] == route && url[|route|] == '/' by {
        if |url| > |route| && url[..|route|] == route && url[|route|] == '/' {
          assert url[..|route| + 1] == url[..|route|] + [url[|route|]];
        }
      }
      RouteActive(url, route)
    }

    /** Removes the session keys from storage, then navigates to the login page. */
    method Logout(storage: LocalStorage)
      modifies storage, router
      ensures storage.items == ClearedSession(old(storage.items))
      ensures router.navigations == old(router.navigations) + ["/login"]
      ensures router.url == old(router.url)
    {
      storage.RemoveItem("accessToken");
      storage.RemoveItem("token");
      storage.RemoveItem("refreshToken");
      storage.RemoveItem("user");
      router.Navigate("/login");
    }
  }
}
