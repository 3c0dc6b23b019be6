/** The route guard in front of every authenticated page. */
module AuthGuard {
  import opened Wrappers
  import opened Browser

  datatype Decision = Allow | Deny(redirect: string)

  /** The guard's decision: outside the browser (server-side rendering) it
      always allows; in the browser it allows exactly when the token lookup
      (`accessToken`, falling back to `token`) yields a non-empty string. */
  function Guard(isBrowser: bool, items: map<string, string>): (d: Decision)
    ensures !isBrowser ==> d == Allow
    ensures d.Allow? <==> !isBrowser || Truthy(GetItem(items, "accessToken")) || Truthy(GetItem(items, "token"))
    ensures d.Deny? ==> d.redirect == "/login"
  {
    if !isBrowser then Allow
    else if Truthy(StoredToken(items)) then Allow
    else Deny("/login")
  }

  /** A stored `token` still admits navigation when `accessToken` is empty. */
  lemma FallbackTokenAllows(items: map<string, string>)
    requires "accessToken" in items && items["accessToken"] == ""
    requires "token" in items && items["token"] != ""
    ensures Guard(true, items) == Allow
  {
  }

  /** `authGuard` run against the browser's storage: the deny branch also
      asks the router to go to the login page. */
  method CanActivate(isBrowser: bool, storage: LocalStorage, router: Router) returns (allowed: bool)
    modifies router
    ensures allowed <==> Guard(isBrowser, storage.items).Allow?
    ensures router.navigations == old(router.navigations) + (if allowed then [] else ["/login"])
  {
    if !isBrowser {
      return true;
    }
    var token := StoredToken(storage.items);
    if Truthy(token) {
      return true;
    }
    router.Navigate("/login");
    return false;
  }
}
