/**
 * `authService`: the authentication endpoints called through the shared client, each returning
 * a projection of the response body, and `logout`, which removes the session keys only once
 * the server has accepted the logout.
 */
module AuthService {

  import opened Base
  import opened Storage
  import opened Http
  import opened Api

  const LoginUrl := "/auth/login"
  const RegisterUrl := "/auth/register"
  const LogoutUrl := "/auth/logout"
  const MeUrl := "/auth/me"

  /** `return response.data` of a settled request: the body on success, the error rethrown otherwise. */
  function BodyOf(outcome: Outcome): (r: Result<Body, HttpError>)
    ensures r.Success? <==> outcome.Resolved?
    ensures r.Success? ==> r.value == outcome.response.body
    ensures r.Failure? ==> r.error == outcome.error
  {
    match outcome
    case Resolved(response) => Success(response.body)
    case Rejected(error) => Failure(error)
  }

  /** `response.data.data` of `/auth/me`: the user of a `{data: user}` body, undefined for any other shape. */
  function CurrentUserOf(body: Body): (u: Option<User>)
    ensures u.Some? <==> body.UserReply?
    ensures u.Some? ==> u.value == body.user
  {
    if body.UserReply? then Some(body.user) else None
  }

  /** The store `logout` leaves: the session keys are removed only when the POST resolved. */
  function LogoutStore(t: Trace): (s: Store)
    ensures t.outcome.Resolved? ==> forall k :: k in SessionKeys ==> k !in s
    ensures t.outcome.Resolved? ==> forall k :: k !in SessionKeys ==> Item(s, k) == Item(t.store, k)
    ensures t.outcome.Rejected? ==> s == t.store
  {
    if t.outcome.Resolved? then Cleared(t.store) else t.store
  }

  /** POST `/auth/login` with `{email, senha}`; the body is returned unchanged. */
  method Login(api: ApiClient, email: string, senha: string, server: Server, refresh: RefreshServer)
    returns (r: Result<Body, HttpError>)
    modifies api, api.storage
    ensures var t := Exchange(Post, LoginUrl, Credentials(email, senha), old(api.storage.items), server, refresh);
      r == BodyOf(t.outcome) && api.storage.items == t.store && api.log == old(api.log) + t.events
  {
    var outcome := api.Send(Post, LoginUrl, Credentials(email, senha), server, refresh);
    r := BodyOf(outcome);
  }

  /** POST `/auth/register` with `{nome, email, senha}`; the body is returned unchanged. */
  method Register(api: ApiClient, nome: string, email: string, senha: string, server: Server, refresh: RefreshServer)
    returns (r: Result<Body, HttpError>)
    modifies api, api.storage
    ensures var t := Exchange(Post, RegisterUrl, NewUser(nome, email, senha), old(api.storage.items), server, refresh);
      r == BodyOf(t.outcome) && api.storage.items == t.store && api.log == old(api.log) + t.events
  {
    var outcome := api.Send(Post, RegisterUrl, NewUser(nome, email, senha), server, refresh);
    r := BodyOf(outcome);
  }

  /** POST `/auth/logout`, then remove the three session keys; a rejected POST skips the removals and is rethrown. */
  method Logout(api: ApiClient, server: Server, refresh: RefreshServer) returns (r: Result<(), HttpError>)
    modifies api, api.storage
    ensures var t := Exchange(Post, LogoutUrl, NoPayload, old(api.storage.items), server, refresh);
      && (r.Success? <==> t.outcome.Resolved?)
      && (r.Failure? ==> r.error == t.outcome.error)
      && api.storage.items == LogoutStore(t)
      && api.log == old(api.log) + t.events
  {
    var outcome := api.Send(Post, LogoutUrl, NoPayload, server, refresh);
    if outcome.Rejected? {
      return Failure(outcome.error);
    }
    api.storage.RemoveItem(AuthTokenKey);
    api.storage.RemoveItem(RefreshTokenKey);
    api.storage.RemoveItem(UserKey);
    RemoveSessionKeys(old(api.storage.items));
    r := Success(());
  }

  /** POST `/auth/refresh` with exactly `{refreshToken}` through the shared client; the body is returned unchanged. */
  method RefreshToken(api: ApiClient, refreshToken: string, server: Server, refresh: RefreshServer)
    returns (r: Result<Body, HttpError>)
    modifies api, api.storage
    ensures var t := Exchange(Post, RefreshUrl, RefreshRequest(refreshToken), old(api.storage.items), server, refresh);
      r == BodyOf(t.outcome) && api.storage.items == t.store && api.log == old(api.log) + t.events
  {
    var outcome := api.Send(Post, RefreshUrl, RefreshRequest(refreshToken), server, refresh);
    r := BodyOf(outcome);
  }

  /** GET `/auth/me`; the `data` field of the body is returned. */
  method GetCurrentUser(api: ApiClient, server: Server, refresh: RefreshServer) returns (r: Result<Option<User>, HttpError>)
    modifies api, api.storage
    ensures var t := Exchange(Get, MeUrl, NoPayload, old(api.storage.items), server, refresh);
      && (r.Success? <==> t.outcome.Resolved?)
      && (r.Success? ==> r.value == CurrentUserOf(t.outcome.response.body))
      && (r.Failure? ==> r.error == t.outcome.error)
      && api.storage.items == t.store && api.log == old(api.log) + t.events
  {
    var outcome := api.Send(Get, MeUrl, NoPayload, server, refresh);
    match outcome
    case Resolved(response) => r := Success(CurrentUserOf(response.body));
    case Rejected(error) => r := Failure(error);
  }
}
