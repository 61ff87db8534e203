/**
 * `AuthProvider`: the application-facing session. It holds the current `user` (absent for
 * `null`), an `isLoading` flag, and derives `isAuthenticated` from the user's presence; it
 * restores the session at startup and offers `login`, `register` and `logout`.
 */
module AuthContext {

  import opened Base
  import opened Storage
  import opened Http
  import opened Api
  import AuthService
  import Text

  /** A rejection raised by the session: a request error rethrown as is, or an error of its own. */
  datatype Thrown = Transport(error: HttpError) | Raised(message: string)

  const LoginRefused := "Falha na autenticação"
  const RegisterRefused := "Falha no registro"

  /** `JSON.stringify(user)`; escaping of special characters in the strings is not modelled. */
  function SerializedUser(u: User): string {
    "{\"id\":" + Text.IntToDecimal(u.id) + ",\"nome\":\"" + u.nome + "\",\"email\":\"" + u.email
      + "\",\"criado_em\":\"" + u.criadoEm + "\"}"
  }

  /** The store after the three `setItem` calls of a granted login or registration. */
  function SaveSession(store: Store, s: Session): (r: Store)
    ensures Item(r, AuthTokenKey) == Some(s.token)
    ensures Item(r, RefreshTokenKey) == Some(s.refreshToken)
    ensures Item(r, UserKey) == Some(SerializedUser(s.user))
    ensures forall k :: k !in SessionKeys ==> Item(r, k) == Item(store, k)
  {
    store[AuthTokenKey := s.token][RefreshTokenKey := s.refreshToken][UserKey := SerializedUser(s.user)]
  }

  /**
   * How `login` and `register` read the service's answer: a body with `success` true grants its
   * session; any other body is refused with `refusal`; a rejected request is rethrown unchanged.
   */
  function SignIn(answer: Result<Body, HttpError>, refusal: string): (r: Result<Session, Thrown>)
    ensures r.Success? <==> answer.Success? && answer.value.AuthReply? && answer.value.success
    ensures r.Success? ==> r.value == answer.value.session
    ensures answer.Failure? ==> r == Failure(Transport(answer.error))
    ensures answer.Success? && r.Failure? ==> r == Failure(Raised(refusal))
  {
    match answer
    case Failure(error) => Failure(Transport(error))
    case Success(body) =>
      if body.AuthReply? && body.success then Success(body.session) else Failure(Raised(refusal))
  }

  class AuthProvider {
    const api: ApiClient
    var user: Option<User>
    var isLoading: bool

    /** `isAuthenticated = !!user`. */
    predicate IsAuthenticated()
      reads this
    {
      user.Some?
    }

    constructor(api: ApiClient)
      ensures this.api == api
      ensures user == None && isLoading && !IsAuthenticated()
    {
      this.api := api;
      user := None;
      isLoading := true;
    }

    /**
     * Startup restore: only when both `authToken` and `user` are stored is `/auth/me` asked;
     * its answer becomes the user, and its failure removes the session keys. Loading ends in every case.
     */
    method InitAuth(server: Server, refresh: RefreshServer)
      modifies this, api, api.storage
      ensures !isLoading
      ensures var s := old(api.storage.items);
        !(TruthyText(Item(s, AuthTokenKey)) && TruthyText(Item(s, UserKey))) ==>
          api.storage.items == s && api.log == old(api.log) && user == old(user)
      ensures var s := old(api.storage.items);
        var t := Exchange(Get, AuthService.MeUrl, NoPayload, s, server, refresh);
        TruthyText(Item(s, AuthTokenKey)) && TruthyText(Item(s, UserKey)) ==>
          && api.log == old(api.log) + t.events
          && (t.outcome.Resolved? ==> user == AuthService.CurrentUserOf(t.outcome.response.body) && api.storage.items == t.store)
          && (t.outcome.Rejected? ==> user == old(user) && api.storage.items == Cleared(t.store))
    {
      var token := api.storage.GetItem(AuthTokenKey);
      var storedUser := api.storage.GetItem(UserKey);
      if token.Some? && token.value != "" && storedUser.Some? && storedUser.value != "" {
        var userData := AuthService.GetCurrentUser(api, server, refresh);
        match userData
        case Success(u) =>
          user := u;
        case Failure(_) =>
          ghost var before := api.storage.items;
          api.storage.RemoveItem(AuthTokenKey);
          api.storage.RemoveItem(RefreshTokenKey);
          api.storage.RemoveItem(UserKey);
          RemoveSessionKeys(before);
      }
      isLoading := false;
    }

    /**
     * `login(email, senha)`: a granted session is written to the three keys and becomes the user;
     * a refusal or a request error is thrown without writing the store or changing the user.
     */
    method Login(email: string, senha: string, server: Server, refresh: RefreshServer) returns (r: Result<(), Thrown>)
      modifies this, api, api.storage
      ensures !isLoading
      ensures var t := Exchange(Post, AuthService.LoginUrl, Credentials(email, senha), old(api.storage.items), server, refresh);
        var s := SignIn(AuthService.BodyOf(t.outcome), LoginRefused);
        && api.log == old(api.log) + t.events
        && (s.Success? ==> r == Success(()) && user == Some(s.value.user) && api.storage.items == SaveSession(t.store, s.value))
        && (s.Failure? ==> r == Failure(s.error) && user == old(user) && api.storage.items == t.store)
    {
      isLoading := true;
      var response := AuthService.Login(api, email, senha, server, refresh);
      r := ApplyAnswer(response, LoginRefused);
      isLoading := false;
    }

    /** `register(nome, email, senha)`: the rules of `login`, with the refusal "Falha no registro". */
    method Register(nome: string, email: string, senha: string, server: Server, refresh: RefreshServer)
      returns (r: Result<(), Thrown>)
      modifies this, api, api.storage
      ensures !isLoading
      ensures var t := Exchange(Post, AuthService.RegisterUrl, NewUser(nome, email, senha), old(api.storage.items), server, refresh);
        var s := SignIn(AuthService.BodyOf(t.outcome), RegisterRefused);
        && api.log == old(api.log) + t.events
        && (s.Success? ==> r == Success(()) && user == Some(s.value.user) && api.storage.items == SaveSession(t.store, s.value))
        && (s.Failure? ==> r == Failure(s.error) && user == old(user) && api.storage.items == t.store)
    {
      isLoading := true;
      var response := AuthService.Register(api, nome, email, senha, server, refresh);
      r := ApplyAnswer(response, RegisterRefused);
      isLoading := false;
    }

    /** The body of `login`/`register` between the two loading updates: store the session or throw. */
    method ApplyAnswer(response: Result<Body, HttpError>, refusal: string) returns (r: Result<(), Thrown>)
      modifies this, api.storage
      ensures isLoading == old(isLoading)
      ensures var s := SignIn(response, refusal);
        && (s.Success? ==> r == Success(()) && user == Some(s.value.user) && api.storage.items == SaveSession(old(api.storage.items), s.value))
        && (s.Failure? ==> r == Failure(s.error) && user == old(user) && api.storage.items == old(api.storage.items))
    {
      match response
      case Failure(error) =>
        r := Failure(Transport(error));
      case Success(body) =>
        if body.AuthReply? && body.success {
          api.storage.SetItem(AuthTokenKey, body.session.token);
          api.storage.SetItem(RefreshTokenKey, body.session.refreshToken);
          api.storage.SetItem(UserKey, SerializedUser(body.session.user));
          user := Some(body.session.user);
          r := Success(());
        } else {
          r := Failure(Raised(refusal));
        }
    }

    /** `logout()`: the user is cleared whatever the server says; a server error is swallowed. */
    method Logout(server: Server, refresh: RefreshServer)
      modifies this, api, api.storage
      ensures user == None && !IsAuthenticated() && isLoading == old(isLoading)
      ensures var t := Exchange(Post, AuthService.LogoutUrl, NoPayload, old(api.storage.items), server, refresh);
        api.storage.items == AuthService.LogoutStore(t) && api.log == old(api.log) + t.events
    {
      var _ := AuthService.Logout(api, server, refresh);
      user := None;
    }
  }

  /**
   * A logout POST that fails with anything but a 401 (a 500, a network failure) leaves every stored
   * key in place, while `Logout` still clears the user: the session shows nobody signed in and the
   * tokens stay stored.
   */
  lemma FailedLogoutKeepsTokens(store: Store, server: Server, refresh: RefreshServer)
    requires var reply := Settle(server(0, Authorize(DefaultHeaders, store)));
      reply.Rejected? && StatusOf(reply.error) != Some(401)
    ensures AuthService.LogoutStore(Exchange(Post, AuthService.LogoutUrl, NoPayload, store, server, refresh)) == store
  {
    ExchangeRejectedAsIs(Post, AuthService.LogoutUrl, NoPayload, store, server, refresh);
  }
}
