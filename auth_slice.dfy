/** The session store: the signed-in user, the bearer token, a loading flag,
    an error slot and the authenticated flag, together with the one
    persisted slot `localStorage['userToken']` that the reducers read and
    write. The slot lives outside the store in the browser; here it is the
    field `storedToken`. */
module AuthSlice {
  import opened JsValue
  import opened Rejection

  datatype User = User(name: string, email: string, role: string)

  /** The body of a successful login response; both fields may be missing. */
  datatype LoginResponse = LoginResponse(user: Option<User>, token: Option<string>)

  datatype AuthThunk = LoginUser | RegisterUser | ForgotPassword

  /** The message each operation rejects with when the server sent none. */
  function ServerFallback(op: AuthThunk): string
  {
    match op
    case LoginUser => "Login failed. Please check your credentials."
    case RegisterUser => "Registration failed."
    case ForgotPassword => "Failed to send password reset link."
  }

  /** What follows the client's diagnostic when a request could not be sent. */
  function DiagnosticSuffix(op: AuthThunk): string
  {
    match op
    case LoginUser => ". Please try again."
    case RegisterUser => ". Please try again."
    case ForgotPassword => "."
  }

  /** The reducers' own default for a rejection that carries no message. */
  function UnknownError(op: AuthThunk): string
  {
    match op
    case LoginUser => "An unknown error occurred during login."
    case RegisterUser => "An unknown error occurred during registration."
    case ForgotPassword => "An unknown error occurred during password reset request."
  }

  /** The value an operation's `catch` rejects with. */
  function RejectValue(op: AuthThunk, e: HttpError): (r: string)
    ensures r != ""
    ensures e.response.Some? ==> r == OrElse(e.response.value.message, ServerFallback(op))
    ensures e.response.None? && e.request ==> r == NoResponseMessage
    ensures e.response.None? && !e.request ==> r == DiagnosticPrefix + e.message + DiagnosticSuffix(op)
  {
    ClassifyIsTruthy(e, ServerFallback(op), DiagnosticSuffix(op));
    Classify(e, ServerFallback(op), DiagnosticSuffix(op))
  }

  /** A rejection produced by an operation's own `catch` always reaches the
      error slot as is: the reducers' unknown-error default only applies to
      a rejection without a payload. */
  lemma RejectValueReachesErrorSlot(op: AuthThunk, e: HttpError)
    ensures OrElse(Some(RejectValue(op, e)), UnknownError(op)) == RejectValue(op, e)
    ensures OrElse(None, UnknownError(op)) == UnknownError(op)
  {
  }

  class SessionStore {
    var user: Option<User>
    var token: Option<string>
    var isLoading: bool
    var error: Option<string>
    var isAuthenticated: bool
    var storedToken: Option<string>

    /** What every reducer keeps: a token in the store is never the empty
        string, and holding one means being authenticated. The converse
        does not hold: a login answered without a token authenticates. In a
        valid store every token present is truthy, so the request interceptor
        attaches whatever token the store holds. */
    predicate Valid()
      reads this
      ensures Valid() ==> (token.Some? <==> Truthy(token))
    {
      token.Some? ==> token.value != "" && isAuthenticated
    }

    /** `initialState`, next to whatever the persisted slot already holds. */
    constructor (persisted: Option<string>)
      ensures Valid()
      ensures user == None && token == None && !isLoading && error == None && !isAuthenticated
      ensures storedToken == persisted
    {
      user := None;
      token := None;
      isLoading := false;
      error := None;
      isAuthenticated := false;
      storedToken := persisted;
    }

    /** `setAuthFromLocalStorage`: a truthy persisted token becomes the
        store's token and authenticates; otherwise nothing changes. The user
        is never touched. */
    method SetAuthFromLocalStorage()
      requires Valid()
      modifies this
      ensures Valid()
      ensures Truthy(storedToken) ==> token == storedToken && isAuthenticated
      ensures !Truthy(storedToken) ==> token == old(token) && isAuthenticated == old(isAuthenticated)
      ensures user == old(user) && isLoading == old(isLoading) && error == old(error)
      ensures storedToken == old(storedToken)
    {
      var persisted := storedToken;
      if Truthy(persisted) {
        token := persisted;
        isAuthenticated := true;
      }
    }

    /** `logout`: user, token and error cleared, not authenticated, persisted
        token removed; the loading flag is left as it was. The new state
        does not depend on the old one apart from that flag, so a second
        logout changes nothing. */
    method Logout()
      modifies this
      ensures Valid()
      ensures user == None && token == None && !isAuthenticated && error == None
      ensures storedToken == None
      ensures isLoading == old(isLoading)
    {
      user := None;
      token := None;
      isAuthenticated := false;
      error := None;
      storedToken := None;
    }

    /** `clearAuthError`: only the error slot changes. */
    method ClearAuthError()
      requires Valid()
      modifies this
      ensures Valid()
      ensures error == None
      ensures user == old(user) && token == old(token) && isLoading == old(isLoading)
      ensures isAuthenticated == old(isAuthenticated) && storedToken == old(storedToken)
    {
      error := None;
    }

    /** The pending case of login, register and forgot-password: loading,
        error cleared, nothing else changed. */
    method Pending()
      requires Valid()
      modifies this
      ensures Valid()
      ensures isLoading && error == None
      ensures user == old(user) && token == old(token)
      ensures isAuthenticated == old(isAuthenticated) && storedToken == old(storedToken)
    {
      isLoading := true;
      error := None;
    }

    /** `loginUser.fulfilled`: authenticated whatever the response holds;
        user and token fall back to nothing when missing or falsy; the
        persisted slot is written only for a truthy token. */
    method LoginFulfilled(response: LoginResponse)
      modifies this
      ensures Valid()
      ensures !isLoading && isAuthenticated && error == None
      ensures user == response.user
      ensures token == (if Truthy(response.token) then response.token else None)
      ensures storedToken == (if Truthy(response.token) then response.token else old(storedToken))
    {
      isLoading := false;
      isAuthenticated := true;
      user := response.user;
      token := Or(response.token, None);
      error := None;
      if Truthy(response.token) {
        storedToken := response.token;
      }
    }

    /** `loginUser.rejected`: signed out in memory with the payload (or the
        unknown-error default) as error; the persisted token is NOT
        removed, so the next start-up rehydrates it. */
    method LoginRejected(payload: Option<string>)
      modifies this
      ensures Valid()
      ensures !isLoading && !isAuthenticated && user == None && token == None
      ensures error == Some(OrElse(payload, UnknownError(LoginUser)))
      ensures storedToken == old(storedToken)
    {
      isLoading := false;
      isAuthenticated := false;
      user := None;
      token := None;
      error := Some(OrElse(payload, UnknownError(LoginUser)));
    }

    /** `registerUser.fulfilled` and `forgotPassword.fulfilled`: only the
        loading flag and the error slot change. */
    method AccountRequestFulfilled()
      requires Valid()
      modifies this
      ensures Valid()
      ensures !isLoading && error == None
      ensures user == old(user) && token == old(token)
      ensures isAuthenticated == old(isAuthenticated) && storedToken == old(storedToken)
    {
      isLoading := false;
      error := None;
    }

    /** `registerUser.rejected` and `forgotPassword.rejected`: the payload (or
        the operation's unknown-error default) becomes the error; the
        session itself is untouched. */
    method AccountRequestRejected(op: AuthThunk, payload: Option<string>)
      requires Valid()
      requires op != LoginUser
      modifies this
      ensures Valid()
      ensures !isLoading && error == Some(OrElse(payload, UnknownError(op)))
      ensures user == old(user) && token == old(token)
      ensures isAuthenticated == old(isAuthenticated) && storedToken == old(storedToken)
    {
      isLoading := false;
      error := Some(OrElse(payload, UnknownError(op)));
    }
  }

  /** A login answered without a token still authenticates: the session is
      authenticated with no token in it, so "authenticated exactly when a
      token is held" is not an invariant of these reducers. */
  method LoginWithoutTokenScenario() returns (store: SessionStore)
    ensures store.isAuthenticated && store.token == None
  {
    store := new SessionStore(None);
    store.Pending();
    store.LoginFulfilled(LoginResponse(Some(User("Ada", "ada@example.com", "admin")), None));
  }

  /** A login that returns "tok123", then a fresh store over the same
      persisted slot (a page reload) rehydrated at start-up: authenticated
      with that token, without any request. */
  method ReloadAfterLoginScenario() returns (reloaded: SessionStore)
    ensures reloaded.isAuthenticated && reloaded.token == Some("tok123")
    ensures reloaded.user == None
  {
    var first := new SessionStore(None);
    first.LoginFulfilled(LoginResponse(None, Some("tok123")));
    reloaded := new SessionStore(first.storedToken);
    reloaded.SetAuthFromLocalStorage();
  }

  /** A failed login after a successful one clears the session in memory but
      leaves the old token persisted, so a reload authenticates again. The
      failure is a 400 with no server message: a 401 or 403 would also pass
      through the response interceptor, whose sign-out clears the persisted
      token as well. */
  method ReloadAfterFailedLoginScenario() returns (reloaded: SessionStore)
    ensures reloaded.isAuthenticated && reloaded.token == Some("tok123")
  {
    var first := new SessionStore(None);
    first.LoginFulfilled(LoginResponse(None, Some("tok123")));
    first.Pending();
    first.LoginRejected(Some(RejectValue(LoginUser, HttpError(Some(ErrorResponse(400, None)), true, "Request failed with status code 400"))));
    assert !first.isAuthenticated && first.token == None;
    reloaded := new SessionStore(first.storedToken);
    reloaded.SetAuthFromLocalStorage();
  }
}
