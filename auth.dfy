/** The login page: input validation, the guard against a second request
    while one is pending, and how the sign-in response fills the session and
    the browser's storage. */
module Auth {
  import opened Wrappers
  import opened Text
  import opened Browser
  import opened Http
  import AuthGuard
  import AuthInterceptor
  import UserService
  import Sidebar

  /** `AuthStates`; the form starts in `Success`, ready for input. */
  datatype AuthStates = Success | Loading | Failure

  const InvalidEmail := "Invalid Email"
  const IncorrectPassword := "Incorrect password"

  /** The two input checks of `login()`, the email first. */
  function InputError(email: string, password: string): (e: Option<string>)
    ensures !Contains(email, ".com") ==> e == Some(InvalidEmail)
    ensures Contains(email, ".com") && |email| >= 3 && |password| < 8 ==> e == Some(IncorrectPassword)
    ensures e.None? <==> |email| >= 3 && Contains(email, ".com") && |password| >= 8
  {
    if |email| < 3 || !Contains(email, ".com") then Some(InvalidEmail)
    else if |password| < 8 then Some(IncorrectPassword)
    else None
  }

  /** The length check on the email adds nothing: an address containing
      ".com" is at least four characters long, so the email is refused
      exactly when it lacks ".com". */
  lemma InvalidEmailIff(email: string, password: string)
    ensures InputError(email, password) == Some(InvalidEmail) <==> !Contains(email, ".com")
  {
    if Contains(email, ".com") {
      var i: nat :| OccursAt(email, ".com", i);
      assert |email| >= 4;
    }
  }

  /** The session a successful login fills in. */
  class SessionService {
    var token: Option<string>
    var role: Option<string>

    constructor ()
      ensures token == None && role == None
    {
      token := None;
      role := None;
    }
  }

  /** The `refreshToken` of a sign-in response: absent, a plain string, or
      an object holding the token in its `token` field. */
  datatype RefreshField = Absent | RefreshString(s: string) | RefreshObject(token: Option<string>)

  datatype LoginUser = LoginUser(role: Option<string>)

  /** A sign-in response body; `accesToken` is the misspelt field some
      backends send. */
  datatype LoginBody = LoginBody(accessToken: Option<string>, accesToken: Option<string>,
                                 refreshToken: RefreshField, user: Option<LoginUser>, message: Option<string>)

  /** `response?.accessToken || response?.accesToken`, when truthy. */
  function LoginToken(response: Option<LoginBody>): (t: Option<string>)
    ensures t.Some? ==> t.value != "" && response.Some?
    ensures t.None? <==> response.None? || (!Truthy(response.value.accessToken) && !Truthy(response.value.accesToken))
    ensures response.Some? && Truthy(response.value.accessToken) ==> t == response.value.accessToken
  {
    if response.None? then None
    else if Truthy(response.value.accessToken) then response.value.accessToken
    else if Truthy(response.value.accesToken) then response.value.accesToken
    else None
  }

  /** The refresh token to store: a non-empty string as it is, an object's
      non-empty `token` field, otherwise nothing. */
  function RefreshToStore(f: RefreshField): (r: Option<string>)
    ensures r.Some? ==> r.value != ""
    ensures f.RefreshString? ==> r == (if f.s != "" then Some(f.s) else None)
    ensures f.RefreshObject? ==> r == (if Truthy(f.token) then f.token else None)
    ensures f.Absent? ==> r.None?
  {
    match f
    case Absent => None
    case RefreshString(s) => if s != "" then Some(s) else None
    case RefreshObject(t) => if Truthy(t) then t else None
  }

  /** `response.user?.role || 'user'`. */
  function SessionRole(response: LoginBody): (role: string)
    ensures role != ""
    ensures response.user.Some? && Truthy(response.user.value.role) ==> role == response.user.value.role.value
    ensures !(response.user.Some? && Truthy(response.user.value.role)) ==> role == "user"
  {
    FirstTruthy([if response.user.Some? then response.user.value.role else None], "user")
  }

  /** Storage after a successful login: both token keys hold the token, the
      refresh token is stored when there is one, and `user` holds the
      serialised user. */
  function StoredAfterLogin(items: map<string, string>, token: string, refresh: Option<string>, userJson: string)
    : (r: map<string, string>)
    ensures r.Keys == items.Keys + {"accessToken", "token", "user"} + (if refresh.Some? then {"refreshToken"} else {})
    ensures r["accessToken"] == token && r["token"] == token && r["user"] == userJson
    ensures refresh.Some? ==> r["refreshToken"] == refresh.value
    ensures forall k :: (k in items && k != "accessToken" && k != "token" && k != "user"
                         && (refresh.None? || k != "refreshToken")) ==> r[k] == items[k]
  {
    var withTokens := items["accessToken" := token]["token" := token];
    var withRefresh := if refresh.Some? then withTokens["refreshToken" := refresh.value] else withTokens;
    withRefresh["user" := userJson]
  }

  /** After a successful login the route guard lets navigation through and
      the users service sends the new token as its bearer header. */
  lemma LoginUnlocksGuard(items: map<string, string>, token: string, refresh: Option<string>, userJson: string)
    requires token != ""
    ensures AuthGuard.Guard(true, StoredAfterLogin(items, token, refresh, userJson)) == AuthGuard.Allow
    ensures UserService.AuthHeaders(StoredAfterLogin(items, token, refresh, userJson))["Authorization"]
            == "Bearer " + token
  {
    var r := StoredAfterLogin(items, token, refresh, userJson);
    assert GetItem(r, "accessToken") == Some(token);
  }

  /** Logging out undoes it: whatever a login stored, the guard refuses
      navigation once the sidebar has cleared the session. */
  lemma LogoutLocksGuard(items: map<string, string>, token: string, refresh: Option<string>, userJson: string)
    ensures AuthGuard.Guard(true, Sidebar.ClearedSession(StoredAfterLogin(items, token, refresh, userJson))).Deny?
  {
    var c := Sidebar.ClearedSession(StoredAfterLogin(items, token, refresh, userJson));
    assert "accessToken" !in c && "token" !in c;
  }

  /** With the session filled by a login, every request but the sign-in
      call leaves with the new bearer header. */
  lemma SessionTokenIsSent(req: Request, response: Option<LoginBody>)
    requires LoginToken(response).Some?
    requires !AuthInterceptor.IsLoginRequest(req)
    ensures AuthInterceptor.Intercept(req, LoginToken(response)).headers["Authorization"]
            == "Bearer " + LoginToken(response).value
  {
  }

  datatype LoginRequest = SignIn(email: string, password: string)

  class AuthComponent {
    var email: string
    var password: string
    var state: AuthStates
    var error: string
    var issued: seq<LoginRequest>
    const session: SessionService
    const storage: LocalStorage

    constructor (session: SessionService, storage: LocalStorage)
      ensures this.session == session && this.storage == storage
      ensures email == "" && password == "" && state == AuthStates.Success && error == "" && issued == []
    {
      this.session := session;
      this.storage := storage;
      email := "";
      password := "";
      state := AuthStates.Success;
      error := "";
      issued := [];
    }

    /** `login()` up to the request. The input checks come first, so a bad
      input overrides a pending `Loading`; valid input while `Loading` is
      ignored; otherwise the state becomes `Loading` and the sign-in call
      goes out. */
    method Login()
      modifies this
      ensures email == old(email) && password == old(password)
      ensures InputError(email, password).Some? ==>
                && state == AuthStates.Failure && error == InputError(email, password).value
                && issued == old(issued)
      ensures InputError(email, password).None? && old(state) == AuthStates.Loading ==>
                state == old(state) && error == old(error) && issued == old(issued)
      ensures InputError(email, password).None? && old(state) != AuthStates.Loading ==>
                && state == AuthStates.Loading && error == old(error)
                && issued == old(issued) + [SignIn(email, password)]
    {
      if |email| < 3 || !Contains(email, ".com") {
        state := AuthStates.Failure;
        error := InvalidEmail;
        return;
      }
      if |password| < 8 {
        state := AuthStates.Failure;
        error := IncorrectPassword;
        return;
      }
      if state == AuthStates.Loading {
        return;
      }
      state := AuthStates.Loading;
      issued := issued + [SignIn(email, password)];
    }

    /** The `next` callback of the sign-in call; `response` is `None` for an
      empty body, and `userJson` is `JSON.stringify(response.user || response)`.
      A response with a token fills storage and session and ends in
      `Success`; one without ends in `Failure` with the server's message or
      a fixed text, touching neither. */
    method OnLoginResponse(response: Option<LoginBody>, userJson: string)
      modifies this, storage, session
      ensures email == old(email) && password == old(password) && issued == old(issued)
      ensures LoginToken(response).Some? ==>
                && storage.items == StoredAfterLogin(old(storage.items), LoginToken(response).value,
                                                     RefreshToStore(response.value.refreshToken), userJson)
                && session.token == LoginToken(response)
                && session.role == Some(SessionRole(response.value))
                && state == AuthStates.Success && error == old(error)
      ensures LoginToken(response).None? ==>
                && storage.items == old(storage.items)
                && session.token == old(session.token) && session.role == old(session.role)
                && state == AuthStates.Failure
                && error == FirstTruthy([if response.Some? then response.value.message else None],
                                        "Login failed - invalid response")
    {
      var accessToken := LoginToken(response);
      if response.Some? && accessToken.Some? {
        var body := response.value;
        storage.SetItem("accessToken", accessToken.value);
        storage.SetItem("token", accessToken.value);
        if body.refreshToken.RefreshString? && body.refreshToken.s != "" {
          storage.SetItem("refreshToken", body.refreshToken.s);
        } else if body.refreshToken.RefreshObject? && Truthy(body.refreshToken.token) {
          storage.SetItem("refreshToken", body.refreshToken.token.value);
        }
        storage.SetItem("user", userJson);
        session.token := accessToken;
        session.role := Some(SessionRole(body));
        state := AuthStates.Success;
      } else {
        state := AuthStates.Failure;
        error := FirstTruthy([if response.Some? then response.value.message else None],
                             "Login failed - invalid response");
      }
    }

    /** The `error` callback: the body's message, else the error's own
      message, else a fixed text. */
    method OnLoginError(err: HttpError)
      modifies this
      ensures state == AuthStates.Failure
      ensures error == FirstTruthy([err.BodyMessage(), err.message], "Login failed")
      ensures email == old(email) && password == old(password) && issued == old(issued)
    {
      state := AuthStates.Failure;
      error := FirstTruthy([err.BodyMessage(), err.message], "Login failed");
    }
  }
}
