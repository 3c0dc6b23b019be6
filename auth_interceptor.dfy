/** The HTTP interceptor that adds the session's bearer token to every
    request except the sign-in call. */
module AuthInterceptor {
  import opened Wrappers
  import opened Text
  import opened Browser
  import opened Http

  /** A request is a login request when its URL contains `/auth/signin`. */
  function IsLoginRequest(req: Request): (b: bool)
    ensures b <==> exists i: nat :: OccursAt(req.url, "/auth/signin", i)
    ensures "/auth/signin" <= req.url ==> b
    ensures b ==> |req.url| >= 12
  {
    assert "/auth/signin" <= req.url ==> OccursAt(req.url, "/auth/signin", 0);
    Contains(req.url, "/auth/signin")
  }

  /** The request the interceptor hands to the next handler, given the
      session's current token. */
  function Intercept(req: Request, sessionToken: Option<string>): (forwarded: Request)
    ensures forwarded.verb == req.verb && forwarded.url == req.url
    ensures forwarded.params == req.params && forwarded.body == req.body
    ensures Truthy(sessionToken) && !IsLoginRequest(req) ==>
              && forwarded.headers.Keys == req.headers.Keys + {"Authorization"}
              && forwarded.headers["Authorization"] == "Bearer " + sessionToken.value
              && forall h :: h in req.headers && h != "Authorization" ==> forwarded.headers[h] == req.headers[h]
    ensures !Truthy(sessionToken) || IsLoginRequest(req) ==> forwarded == req
  {
    if Truthy(sessionToken) && !IsLoginRequest(req) then
      req.(headers := req.headers["Authorization" := "Bearer " + sessionToken.value])
    else
      req
  }

  /** The header is attached exactly when there is a non-empty token and the
      request is not a login request. */
  lemma AttachesIff(req: Request, sessionToken: Option<string>)
    requires "Authorization" !in req.headers
    ensures "Authorization" in Intercept(req, sessionToken).headers
            <==> sessionToken.Some? && sessionToken.value != "" && !(exists i: nat :: OccursAt(req.url, "/auth/signin", i))
  {
  }

  /** The sign-in call the auth service issues is recognised as a login
      request, so it never carries a bearer header. */
  lemma SignInUrlIsLoginRequest(req: Request, sessionToken: Option<string>)
    requires req.url == "/api/auth/signin"
    ensures IsLoginRequest(req)
    ensures Intercept(req, sessionToken) == req
  {
    assert OccursAt(req.url, "/auth/signin", 4);
  }

  /** The users endpoint is not a login request: with a token it gets
      `Authorization: Bearer <token>`. */
  lemma UsersUrlGetsBearer(req: Request, token: string)
    requires req.url == "/api/user" && token != ""
    ensures Intercept(req, Some(token)).headers["Authorization"] == "Bearer " + token
  {
    assert !IsLoginRequest(req) by {
      forall i: nat ensures !OccursAt(req.url, "/auth/signin", i) {
      }
    }
  }
}
