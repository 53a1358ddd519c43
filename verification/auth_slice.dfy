/**
 * The auth slice of the store: the signed-in user and token, and the
 * reducers for `logout`, `clearError` and the `login` thunk's lifecycle.
 */
module AuthSlice {
  import opened Common

  /** The profile fields of a signed-in user that the client reads. */
  datatype User = User(username: string, fullName: string, roleId: Option<int>, gender: Option<bool>)

  /** The body of a successful login response, whose fields may be missing. */
  datatype LoginPayload = LoginPayload(user: Option<User>, token: Option<string>)

  /** The body of an error response. */
  datatype ErrorBody = ErrorBody(message: Option<string>)

  /** An error as the HTTP client throws it: its message and, for a status error, the response body. */
  datatype RequestError = RequestError(message: Option<string>, responseData: Option<ErrorBody>)

  /**
   * The error a rejected thunk carries: the thunk machinery keeps the
   * error's name, message, stack and code, and drops the response.
   */
  function SerializeError(e: RequestError): (r: RequestError)
    ensures r.message == e.message && r.responseData.None?
  {
    RequestError(e.message, None)
  }

  datatype AuthState = AuthState(
    user: Option<User>,
    token: Option<string>,
    loading: bool,
    error: Option<string>,
    isAuthenticated: bool)

  const Initial: AuthState := AuthState(None, None, false, None, false)

  /** The initial state is signed out, idle and error-free. */
  lemma InitialIsSignedOut()
    ensures Initial.user.None? && Initial.token.None? && !Initial.isAuthenticated
    ensures !Initial.loading && Initial.error.None?
  {
  }

  function Logout(s: AuthState): (r: AuthState)
    ensures r.user.None? && r.token.None? && !r.isAuthenticated
    ensures r.loading == s.loading && r.error == s.error
  {
    s.(user := None, token := None, isAuthenticated := false)
  }

  function ClearError(s: AuthState): (r: AuthState)
    ensures r.error.None?
    ensures r == s.(error := r.error)
  {
    s.(error := None)
  }

  function LoginPending(s: AuthState): (r: AuthState)
    ensures r.loading && r.error.None?
    ensures r == s.(loading := r.loading, error := r.error)
  {
    s.(loading := true, error := None)
  }

  /** The payload's `user` and `token` are copied as they are, even when missing. */
  function LoginFulfilled(s: AuthState, payload: LoginPayload): (r: AuthState)
    ensures r.user == payload.user && r.token == payload.token
    ensures r.isAuthenticated && !r.loading && r.error.None?
  {
    s.(loading := false, user := payload.user, token := payload.token, isAuthenticated := true, error := None)
  }

  /** `error` is the serialized error's message; `user` and `token` are left as they were. */
  function LoginRejected(s: AuthState, error: RequestError): (r: AuthState)
    ensures !r.isAuthenticated && !r.loading && r.error == error.message
    ensures r.user == s.user && r.token == s.token
  {
    s.(loading := false, error := SerializeError(error).message, isAuthenticated := false)
  }

  /** Signing out twice is signing out once. */
  lemma LogoutIdempotent(s: AuthState)
    ensures Logout(Logout(s)) == Logout(s)
  {
  }

  /**
   * Nothing checks the login response for a token: a body without one still
   * marks the session authenticated, with no token held.
   */
  lemma AuthenticatedWithoutToken(s: AuthState, user: Option<User>)
    ensures var r := LoginFulfilled(s, LoginPayload(user, None));
      r.isAuthenticated && r.token.None?
  {
  }

  datatype AuthAction =
    | LogoutAction
    | ClearErrorAction
    | LoginStarted
    | LoginSucceeded(payload: LoginPayload)
    | LoginFailed(failure: RequestError)

  function Reduce(s: AuthState, a: AuthAction): AuthState {
    match a
    case LogoutAction => Logout(s)
    case ClearErrorAction => ClearError(s)
    case LoginStarted => LoginPending(s)
    case LoginSucceeded(p) => LoginFulfilled(s, p)
    case LoginFailed(e) => LoginRejected(s, e)
  }

  /** The state after dispatching `actions` in order. */
  function ReduceAll(s: AuthState, actions: seq<AuthAction>): AuthState
    decreases |actions|
  {
    if |actions| == 0 then s
    else Reduce(ReduceAll(s, actions[..|actions| - 1]), actions[|actions| - 1])
  }

  /** Actions that decide whether the session is authenticated. */
  predicate Decisive(a: AuthAction) {
    a.LogoutAction? || a.LoginSucceeded? || a.LoginFailed?
  }

  /** The most recent decisive action, if any. */
  function LastDecisive(actions: seq<AuthAction>): (r: Option<AuthAction>)
    ensures r.Some? ==> Decisive(r.value)
    decreases |actions|
  {
    if |actions| == 0 then None
    else if Decisive(actions[|actions| - 1]) then Some(actions[|actions| - 1])
    else LastDecisive(actions[..|actions| - 1])
  }

  /**
   * From the initial state, the session is authenticated exactly when the
   * most recent logout/login-success/login-failure was a login success, and
   * then it holds that response's user and token.
   */
  lemma {:induction false} AuthenticatedIffLastLoginSucceeded(actions: seq<AuthAction>)
    ensures var s := ReduceAll(Initial, actions);
      && (s.isAuthenticated <==> LastDecisive(actions).Some? && LastDecisive(actions).value.LoginSucceeded?)
      && (s.isAuthenticated ==>
          s.user == LastDecisive(actions).value.payload.user &&
          s.token == LastDecisive(actions).value.payload.token)
    decreases |actions|
  {
    if |actions| > 0 {
      AuthenticatedIffLastLoginSucceeded(actions[..|actions| - 1]);
    }
  }
}
