/** The browser facilities the console touches: `localStorage`, the router's
    navigation requests, HTTP errors as the components read them, and the
    truthiness rules of JavaScript's `||` over string values. */
module Browser {
  import opened Wrappers

  /** A JavaScript string value read for truthiness: `undefined` and `null`
      are `None`, and the empty string is falsy too. */
  predicate Truthy(v: Option<string>) {
    v.Some? && v.value != ""
  }

  /** `a || b || ... || fallback` over optional strings: the first truthy
      candidate, or the fallback when none is. */
  function FirstTruthy(candidates: seq<Option<string>>, fallback: string): (r: string)
    ensures (forall i :: 0 <= i < |candidates| ==> !Truthy(candidates[i])) ==> r == fallback
    ensures forall i :: 0 <= i < |candidates| && Truthy(candidates[i])
                        && (forall j :: 0 <= j < i ==> !Truthy(candidates[j]))
                        ==> r == candidates[i].value
    ensures r == fallback || exists i :: 0 <= i < |candidates| && Truthy(candidates[i]) && r == candidates[i].value
  {
    if |candidates| == 0 then fallback
    else if Truthy(candidates[0]) then candidates[0].value
    else
      var r := FirstTruthy(candidates[1..], fallback);
      assert forall i :: 1 <= i < |candidates| ==> candidates[i] == candidates[1..][i - 1];
      r
  }

  /** The body of an HTTP error response as the components read it
      (`err.error?.message`, `err.error?.error`). */
  datatype ErrorBody = ErrorBody(message: Option<string>, error: Option<string>)

  /** An `HttpErrorResponse`: its status, its own `message` and the parsed body. */
  datatype HttpError = HttpError(status: int, message: Option<string>, body: Option<ErrorBody>) {
    /** `err.error?.message` */
    function BodyMessage(): Option<string> {
      if body.Some? then body.value.message else None
    }
    /** `err.error?.error` */
    function BodyError(): Option<string> {
      if body.Some? then body.value.error else None
    }
  }

  /** `localStorage.getItem(key)`: `None` stands for `null`. */
  function GetItem(items: map<string, string>, key: string): (v: Option<string>)
    ensures v.Some? <==> key in items
    ensures v.Some? ==> v.value == items[key]
  {
    if key in items then Some(items[key]) else None
  }

  /** `localStorage.getItem('accessToken') || localStorage.getItem('token')`,
      the token lookup shared by the services and the route guard. */
  function StoredToken(items: map<string, string>): (t: Option<string>)
    ensures Truthy(t) <==> Truthy(GetItem(items, "accessToken")) || Truthy(GetItem(items, "token"))
    ensures t.None? <==> !Truthy(GetItem(items, "accessToken")) && "token" !in items
    ensures Truthy(GetItem(items, "accessToken")) ==> t == Some(items["accessToken"])
  {
    var access := GetItem(items, "accessToken");
    if Truthy(access) then access else GetItem(items, "token")
  }

  /** The template literal `Bearer ${token}`: a missing token prints as "null". */
  function BearerValue(token: Option<string>): (h: string)
    ensures |h| >= 7 && h[..7] == "Bearer "
    ensures token.Some? ==> h[7..] == token.value
    ensures token.None? ==> h[7..] == "null"
  {
    "Bearer " + (if token.Some? then token.value else "null")
  }

  /** The browser's `localStorage`, a string-to-string store. */
  class LocalStorage {
    var items: map<string, string>

    constructor (initial: map<string, string>)
      ensures items == initial
    {
      items := initial;
    }

    method SetItem(key: string, value: string)
      modifies this
      ensures items == old(items)[key := value]
    {
      items := items[key := value];
    }

    method RemoveItem(key: string)
      modifies this
      ensures items == old(items) - {key}
    {
      items := items - {key};
    }
  }

  /** The Angular router as far as the console uses it: the current URL and
      the navigations requested so far (`router.navigate([path])`). */
  class Router {
    var url: string
    var navigations: seq<string>

    constructor (initialUrl: string)
      ensures url == initialUrl && navigations == []
    {
      url := initialUrl;
      navigations := [];
    }

    method Navigate(path: string)
      modifies this
      ensures navigations == old(navigations) + [path]
      ensures url == old(url)
    {
      navigations := navigations + [path];
    }
  }
}
