/** The session holder of the SkillSwap client (project/src/context/AuthContext.js):
    the bearer token and the current user, the request and response
    interceptors of its HTTP client, and the operations that establish and
    tear down the session. */
module AuthContext {
  import opened Wrappers
  import opened Domain

  /** The key under which the token is persisted in browser storage. */
  const TokenKey: string := "token"

  /** The request interceptor: `Authorization: Bearer <token>` is set exactly
      when the token is truthy; otherwise the headers go out untouched. */
  function AuthorizeHeaders(headers: map<string, string>, token: Option<string>): (r: map<string, string>)
    ensures Truthy(token) ==> "Authorization" in r && r["Authorization"] == "Bearer " + token.value
    ensures Truthy(token) ==> r.Keys == headers.Keys + {"Authorization"}
    ensures !Truthy(token) ==> r == headers
    ensures forall k :: k in headers && k != "Authorization" ==> k in r && r[k] == headers[k]
  {
    if Truthy(token) then headers["Authorization" := "Bearer " + token.value] else headers
  }

  /** A bearer header on an outgoing request that had none comes only from a
      truthy token, and carries that token. */
  lemma BearerOnlyWithToken(headers: map<string, string>, token: Option<string>)
    requires "Authorization" !in headers
    ensures "Authorization" in AuthorizeHeaders(headers, token) <==> Truthy(token)
    ensures "Authorization" in AuthorizeHeaders(headers, token) ==>
      AuthorizeHeaders(headers, token)["Authorization"] == "Bearer " + token.value
  {
  }

  /** The response interceptor's test: the server answered with status 401. */
  predicate IsUnauthorized(e: HttpError)
  {
    e.response.Some? && e.response.value.status == 401
  }

  /** What login and register hand the server's answer over as. */
  datatype AuthPayload = AuthPayload(token: string, user: User)

  /** `{ success, error }` as returned by login, register and updateProfile. */
  datatype AuthResult = AuthResult(success: bool, error: Option<string>)

  const LoginFailed: string := "Login failed"
  const RegistrationFailed: string := "Registration failed"
  const ProfileUpdateFailed: string := "Profile update failed"

  /** The error text a failed login or register reports: the server's
      message when it sent one, the operation's fallback otherwise. */
  function AuthErrorMessage(e: HttpError, fallback: string): (m: string)
    requires fallback != ""
    ensures m != ""
    ensures m == fallback <==> ServerMessage(e).None? || ServerMessage(e).value == fallback
    ensures ServerMessage(e).Some? ==> m == ServerMessage(e).value
  {
    MessageOr(e, fallback)
  }

  /** The provider's state. `storage` is browser storage; `path` is the
      router's location (`navigate`); `redirect` is the last full-page
      redirect requested through `window.location.href`. */
  class AuthSession {
    var storage: map<string, string>
    var token: Option<string>
    var user: Option<User>
    var loading: bool
    var error: Option<string>
    var path: string
    var redirect: Option<string>

    /** The provider on first render: the token is read from storage, there
        is no user yet and loading is under way. */
    constructor (stored: map<string, string>, at: string)
      ensures storage == stored && path == at && redirect == None
      ensures token == (if TokenKey in stored then Some(stored[TokenKey]) else None)
      ensures user == None && loading && error == None
    {
      storage := stored;
      token := if TokenKey in stored then Some(stored[TokenKey]) else None;
      user := None;
      loading := true;
      error := None;
      path := at;
      redirect := None;
    }

    /** The headers the instance built with the current token sends. */
    function RequestHeaders(headers: map<string, string>): (r: map<string, string>)
      reads this
      ensures Truthy(token) ==> r == headers["Authorization" := "Bearer " + token.value]
      ensures !Truthy(token) ==> r == headers
    {
      AuthorizeHeaders(headers, token)
    }

    /** The response interceptor's error handler. A 401 removes the stored
        token and requests a full-page redirect to `/login`; the token and
        user state are not touched here. Every error, 401 or not, is passed
        on to the caller. */
    method RejectResponse(e: HttpError) returns (rejected: HttpError)
      modifies this
      ensures rejected == e
      ensures IsUnauthorized(e) ==> storage == old(storage) - {TokenKey} && redirect == Some("/login")
      ensures !IsUnauthorized(e) ==> storage == old(storage) && redirect == old(redirect)
      ensures token == old(token) && user == old(user) && loading == old(loading)
      ensures error == old(error) && path == old(path)
    {
      if IsUnauthorized(e) {
        storage := storage - {TokenKey};
        redirect := Some("/login");
      }
      rejected := e;
    }

    /** Removes the stored token, clears token and user, and navigates to `/`. */
    method Logout()
      modifies this
      ensures storage == old(storage) - {TokenKey}
      ensures token == None && user == None && path == "/"
      ensures loading == old(loading) && error == old(error) && redirect == old(redirect)
    {
      storage := storage - {TokenKey};
      token := None;
      user := None;
      path := "/";
    }

    /** The shared body of login and register, given the settled request. */
    method Authenticate(response: Outcome<AuthPayload>, fallback: string) returns (r: AuthResult)
      requires fallback != ""
      modifies this
      ensures response.Ok? ==>
        && storage == old(storage)[TokenKey := response.value.token]
        && token == Some(response.value.token)
        && user == Some(response.value.user)
        && error == None
        && path == "/dashboard"
        && redirect == old(redirect)
        && r == AuthResult(true, None)
      ensures response.Failed? ==>
        && error == Some(AuthErrorMessage(response.error, fallback))
        && r == AuthResult(false, error)
        && token == old(token) && user == old(user) && path == old(path)
        && (IsUnauthorized(response.error) ==> storage == old(storage) - {TokenKey} && redirect == Some("/login"))
        && (!IsUnauthorized(response.error) ==> storage == old(storage) && redirect == old(redirect))
      ensures loading == old(loading)
    {
      match response
      case Ok(payload) =>
        storage := storage[TokenKey := payload.token];
        token := Some(payload.token);
        user := Some(payload.user);
        error := None;
        path := "/dashboard";
        r := AuthResult(true, None);
      case Failed(e) =>
        var err := RejectResponse(e);
        var message := AuthErrorMessage(err, fallback);
        error := Some(message);
        r := AuthResult(false, Some(message));
    }

    /** `login(formData)`, given how its POST settled. */
    method Login(response: Outcome<AuthPayload>) returns (r: AuthResult)
      modifies this
      ensures response.Ok? ==>
        && storage == old(storage)[TokenKey := response.value.token]
        && token == Some(response.value.token)
        && user == Some(response.value.user)
        && error == None && path == "/dashboard" && redirect == old(redirect)
        && r == AuthResult(true, None)
      ensures response.Failed? ==>
        && error == Some(AuthErrorMessage(response.error, LoginFailed))
        && r == AuthResult(false, error)
        && token == old(token) && user == old(user) && path == old(path)
        && (IsUnauthorized(response.error) ==> storage == old(storage) - {TokenKey} && redirect == Some("/login"))
        && (!IsUnauthorized(response.error) ==> storage == old(storage) && redirect == old(redirect))
      ensures loading == old(loading)
    {
      r := Authenticate(response, LoginFailed);
    }

    /** `register(formData)`, given how its POST settled. */
    method Register(response: Outcome<AuthPayload>) returns (r: AuthResult)
      modifies this
      ensures response.Ok? ==>
        && storage == old(storage)[TokenKey := response.value.token]
        && token == Some(response.value.token)
        && user == Some(response.value.user)
        && error == None && path == "/dashboard" && redirect == old(redirect)
        && r == AuthResult(true, None)
      ensures response.Failed? ==>
        && error == Some(AuthErrorMessage(response.error, RegistrationFailed))
        && r == AuthResult(false, error)
        && token == old(token) && user == old(user) && path == old(path)
        && (IsUnauthorized(response.error) ==> storage == old(storage) - {TokenKey} && redirect == Some("/login"))
        && (!IsUnauthorized(response.error) ==> storage == old(storage) && redirect == old(redirect))
      ensures loading == old(loading)
    {
      r := Authenticate(response, RegistrationFailed);
    }

    /** `updateProfile(profileData)`: the user becomes the server's answer;
        on failure the user is kept and the error is returned, not stored. */
    method UpdateProfile(response: Outcome<User>) returns (r: AuthResult)
      modifies this
      ensures response.Ok? ==> user == Some(response.value) && r == AuthResult(true, None)
      ensures response.Failed? ==>
        user == old(user) && r == AuthResult(false, Some(AuthErrorMessage(response.error, ProfileUpdateFailed)))
      ensures token == old(token) && error == old(error) && loading == old(loading) && path == old(path)
      ensures response.Ok? ==> storage == old(storage) && redirect == old(redirect)
      ensures response.Failed? && IsUnauthorized(response.error) ==>
        storage == old(storage) - {TokenKey} && redirect == Some("/login")
      ensures response.Failed? && !IsUnauthorized(response.error) ==>
        storage == old(storage) && redirect == old(redirect)
    {
      match response
      case Ok(u) =>
        user := Some(u);
        r := AuthResult(true, None);
      case Failed(e) =>
        var err := RejectResponse(e);
        r := AuthResult(false, Some(AuthErrorMessage(err, ProfileUpdateFailed)));
    }

    /** The `loadUser` effect, run whenever the token changes. With a truthy
        token the current user is fetched (`fetched` is how that request
        settled); a failed fetch logs out. Loading ends on every path. */
    method LoadUser(fetched: Outcome<User>)
      modifies this
      ensures !loading
      ensures !Truthy(old(token)) ==>
        storage == old(storage) && token == old(token) && user == old(user) && path == old(path)
      ensures Truthy(old(token)) && fetched.Ok? ==>
        user == Some(fetched.value) && token == old(token) && storage == old(storage) && path == old(path)
      ensures Truthy(old(token)) && fetched.Failed? ==>
        storage == old(storage) - {TokenKey} && token == None && user == None && path == "/"
      ensures Truthy(old(token)) && fetched.Failed? ==>
        redirect == (if IsUnauthorized(fetched.error) then Some("/login") else old(redirect))
      ensures !(Truthy(old(token)) && fetched.Failed?) ==> redirect == old(redirect)
      ensures error == old(error)
    {
      if Truthy(token) {
        match fetched
        case Ok(u) =>
          user := Some(u);
        case Failed(e) =>
          var _ := RejectResponse(e);
          Logout();
      }
      loading := false;
    }
  }
}
