/**
 * The login/logout orchestration of src/components/auth/AuthProvider.tsx:
 * set the loading flag, take the login response, reject every role but
 * `ADMIN`, map the backend user to the frontend `User` and commit it to the
 * session store, or report a failure; every path clears the loading flag.
 */
module AuthProvider {
  import opened Wrappers
  import opened UserStore
  import Api

  /** `user.UserDetails` of the backend user record (only `name` is read). */
  datatype BackendDetails = BackendDetails(name: Option<string>)

  /** The backend user record the login endpoint returns. */
  datatype BackendUser = BackendUser(
    id: string,
    email: string,
    role: Option<string>,
    details: Option<BackendDetails>)

  /** `response.data`; a missing `user` makes the destructuring code raise. */
  datatype LoginData = LoginData(user: Option<BackendUser>)

  /** The awaited `apiService.login(...)`: it raised, or it resolved to a response. */
  datatype LoginCall = CallThrew | Responded(response: Api.ApiResponse<LoginData>)

  /** `{ success: boolean; message?: string }`. */
  datatype LoginResult = LoginResult(success: bool, message: Option<string>)

  /** What a login attempt does to the store: commit a user and token, or reject with a message. */
  datatype Decision = Commit(user: User, token: string) | Reject(message: string)

  const AccessDenied := "Akses ditolak. Hanya administrator yang diizinkan masuk."
  const LoginFailed := "Login gagal. Silakan periksa kembali kredensial Anda."
  const NetworkFailure := "Terjadi kesalahan jaringan. Silakan coba lagi."
  const DefaultName := "Admin User"

  /** `user.UserDetails?.name || 'Admin User'`. */
  function DisplayName(u: BackendUser): string {
    if u.details.Some? && u.details.value.name.Some? && u.details.value.name.value != ""
    then u.details.value.name.value
    else DefaultName
  }

  /**
   * The role gate and the backend-to-frontend mapping: only the exact role
   * `ADMIN` passes, and the frontend user keeps the backend id and email,
   * takes the detail name (or the default label) and the role `admin`.
   */
  function RoleGate(u: BackendUser): (r: Result<User>)
    ensures r.Ok? <==> u.role == Some("ADMIN")
    ensures r.Ok? ==> r.value.id == u.id && r.value.email == u.email && r.value.role == Admin
    ensures r.Ok? ==> r.value.name == (if u.details.Some? && u.details.value.name.Some? && u.details.value.name.value != ""
                                       then u.details.value.name.value else "Admin User")
    ensures r.Err? ==> r.message == AccessDenied
  {
    if u.role != Some("ADMIN") then Err(AccessDenied)
    else Ok(User(u.id, DisplayName(u), u.email, Admin))
  }

  /** The branches of `login` after the call: what is committed, or the failure message. */
  function LoginDecision(call: LoginCall): Decision {
    match call
    case CallThrew => Reject(NetworkFailure)
    case Responded(response) =>
      if response.success && response.data.Some? then
        match response.data.value.user
        case None => Reject(NetworkFailure)
        case Some(u) =>
          match RoleGate(u)
          case Ok(fu) => Commit(fu, response.token.GetOr(""))
          case Err(m) => Reject(m)
      else
        Reject(Api.MessageOr(response.message, LoginFailed))
  }

  /** The structured result `login` returns for a decision. */
  function ResultOf(d: Decision): LoginResult {
    match d
    case Commit(_, _) => LoginResult(true, None)
    case Reject(m) => LoginResult(false, Some(m))
  }

  /**
   * `login(email, password)`.  The loading flag is raised before the call
   * (`loadingDuringCall` records it at that point); afterwards the store is
   * logged in with the decided user and token, or left as it was with only
   * the loading flag cleared.
   */
  method Login(store: SessionStore, call: LoginCall) returns (r: LoginResult, ghost loadingDuringCall: bool)
    modifies store
    ensures loadingDuringCall
    ensures r == ResultOf(LoginDecision(call))
    ensures LoginDecision(call).Commit? ==>
      store.State() == LoginOf(old(store.State()), LoginDecision(call).user, LoginDecision(call).token)
    ensures LoginDecision(call).Reject? ==> store.State() == old(store.State()).(isLoading := false)
    ensures !store.isLoading
  {
    store.SetLoading(true);
    loadingDuringCall := store.isLoading;
    match call {
      case CallThrew =>
        store.SetLoading(false);
        r := LoginResult(false, Some(NetworkFailure));
      case Responded(response) =>
        if response.success && response.data.Some? {
          if response.data.value.user.None? {
            // reading `user.role` of undefined raises; the catch block handles it
            store.SetLoading(false);
            r := LoginResult(false, Some(NetworkFailure));
          } else {
            var u := response.data.value.user.value;
            if u.role != Some("ADMIN") {
              store.SetLoading(false);
              r := LoginResult(false, Some(AccessDenied));
            } else {
              var frontendUser := User(u.id, DisplayName(u), u.email, Admin);
              store.Login(frontendUser, response.token.GetOr(""));
              r := LoginResult(true, None);
            }
          }
        } else {
          store.SetLoading(false);
          r := LoginResult(false, Some(Api.MessageOr(response.message, LoginFailed)));
        }
    }
  }

  /** `logout()`: delegates to the store and calls no endpoint. */
  method Logout(store: SessionStore)
    modifies store
    ensures store.State() == LogoutOf(old(store.State()))
  {
    store.Logout();
  }

  // ---------------------------------------------------------------------
  // Properties of the decision

  /** A login succeeds exactly when the response succeeded with a user whose role is exactly `ADMIN`. */
  lemma CommitIffAdmin(call: LoginCall)
    ensures LoginDecision(call).Commit? <==>
      && call.Responded? && call.response.success && call.response.data.Some?
      && call.response.data.value.user.Some?
      && call.response.data.value.user.value.role == Some("ADMIN")
  {
  }

  /** A successful response for any other role is refused with the access-denied message. */
  lemma NonAdminRejected(response: Api.ApiResponse<LoginData>)
    requires response.success && response.data.Some? && response.data.value.user.Some?
    requires response.data.value.user.value.role != Some("ADMIN")
    ensures LoginDecision(Responded(response)) == Reject(AccessDenied)
  {
  }

  /** An admin login commits the mapped user with role `admin` and the response token, or "" without one. */
  lemma AdminCommitted(response: Api.ApiResponse<LoginData>)
    requires response.success && response.data.Some? && response.data.value.user.Some?
    requires response.data.value.user.value.role == Some("ADMIN")
    ensures var u := response.data.value.user.value;
      LoginDecision(Responded(response)) ==
        Commit(User(u.id, DisplayName(u), u.email, Admin), response.token.GetOr(""))
  {
  }

  /** An unsuccessful or data-less response is refused with its own message, or the fixed fallback. */
  lemma UnsuccessfulResponseRejected(response: Api.ApiResponse<LoginData>)
    requires !response.success || response.data.None?
    ensures LoginDecision(Responded(response)) ==
      Reject(if response.message.Some? && response.message.value != "" then response.message.value else LoginFailed)
  {
  }

  /** Every refusal carries a non-empty message, and every committed user is an admin. */
  lemma DecisionsAreWellFormed(call: LoginCall)
    ensures LoginDecision(call).Reject? ==> LoginDecision(call).message != ""
    ensures LoginDecision(call).Commit? ==> LoginDecision(call).user.role == Admin
  {
  }

  /**
   * End to end with the API client: when `fetch` itself fails, `post`
   * resolves (it never raises) to its own network-error message, and that is
   * the message `login` reports; its own network-error text is reserved for
   * a raise inside `login`.
   */
  lemma TransportFailureReportsApiMessage()
    ensures LoginDecision(Responded(Api.CallResult(Api.Login, Api.Threw))) == Reject(Api.NetworkError)
  {
  }

  /** The documented scenario: an `ADMIN` named Ann with token `tok1` is logged in as admin Ann. */
  lemma AdminScenario()
    ensures var body := Api.Body(true, None, Some(LoginData(Some(BackendUser("1", "a@b.com", Some("ADMIN"), Some(BackendDetails(Some("Ann"))))))), Some("tok1"), None);
      LoginDecision(Responded(Api.CallResult(Api.Login, Api.Replied(true, body)))) ==
        Commit(User("1", "Ann", "a@b.com", Admin), "tok1")
  {
  }
}
