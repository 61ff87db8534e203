/**
 * The login and registration pages: an ordered, first-failure-wins check of the form fields
 * before any request, then a call into the session, the dashboard on success and an error
 * message taken from the server's `error` field, or a fixed fallback, on failure.
 */
module AuthForms {

  import opened Base
  import opened Http
  import opened Api
  import opened AuthContext
  import AuthService

  const DashboardPath := "/dashboard"
  const MinPasswordLength := 6

  const FieldsRequired := "Todos os campos são obrigatórios"
  const PasswordsDiffer := "As senhas não coincidem"
  const PasswordTooShort := "Senha deve ter pelo menos 6 caracteres"
  const RegisterFallback := "Erro ao criar conta"

  const CredentialsRequired := "Email e senha são obrigatórios"
  const LoginFallback := "Erro ao fazer login"

  /**
   * The registration checks in their order: all four fields present, then the two passwords equal,
   * then the password at least six characters long. The first failing check names the message.
   */
  function RegisterCheck(nome: string, email: string, senha: string, confirmarSenha: string): (r: Option<string>)
    ensures var anyEmpty := nome == "" || email == "" || senha == "" || confirmarSenha == "";
      && (r == None <==> !anyEmpty && senha == confirmarSenha && |senha| >= MinPasswordLength)
      && (r == Some(FieldsRequired) <==> anyEmpty)
      && (r == Some(PasswordsDiffer) <==> !anyEmpty && senha != confirmarSenha)
      && (r == Some(PasswordTooShort) <==> !anyEmpty && senha == confirmarSenha && |senha| < MinPasswordLength)
  {
    if nome == "" || email == "" || senha == "" || confirmarSenha == "" then Some(FieldsRequired)
    else if senha != confirmarSenha then Some(PasswordsDiffer)
    else if |senha| < MinPasswordLength then Some(PasswordTooShort)
    else None
  }

  /** The login check: both fields present is the only condition; the password length is not checked. */
  function LoginCheck(email: string, senha: string): (r: Option<string>)
    ensures r == None <==> email != "" && senha != ""
    ensures r.Some? ==> r.value == CredentialsRequired
  {
    if email == "" || senha == "" then Some(CredentialsRequired) else None
  }

  /** `error.response?.data?.error`: the server's message, when the rejection carries a response with one. */
  function ServerMessage(e: Thrown): (m: Option<string>)
    ensures e.Raised? ==> m.None?
    ensures m.Some? ==> e.Transport? && e.error.response.Some? && e.error.response.value.body == ErrorReply(m.value)
    ensures e.Transport? && e.error.response.Some? && e.error.response.value.body.ErrorReply? ==>
      m == Some(e.error.response.value.body.error)
  {
    if e.Transport? && e.error.response.Some? && e.error.response.value.body.ErrorReply?
    then Some(e.error.response.value.body.error)
    else None
  }

  /**
   * `error.response?.data?.error || fallback`: a non-empty server message wins, else the fallback.
   * An error the session raises itself has no response, so its own text is never shown.
   */
  function ErrorText(e: Thrown, fallback: string): (msg: string)
    ensures msg == fallback || (ServerMessage(e) == Some(msg) && msg != "")
    ensures ServerMessage(e).Some? && ServerMessage(e).value != "" ==> msg == ServerMessage(e).value
    ensures e.Raised? ==> msg == fallback
  {
    var m := ServerMessage(e);
    if m.Some? && m.value != "" then m.value else fallback
  }

  /** The login page's state: the shown error, its own loading flag and the navigations it requested. */
  class LoginPage {
    const auth: AuthProvider
    var error: string
    var isLoading: bool
    var navigations: seq<string>

    constructor(auth: AuthProvider)
      ensures this.auth == auth && error == "" && !isLoading && navigations == []
    {
      this.auth := auth;
      error := "";
      isLoading := false;
      navigations := [];
    }

    /**
     * `handleSubmit`: an empty field stops with its message and no request; otherwise the error
     * is cleared, `login` is called with the two fields as typed, `/dashboard` follows only a
     * resolved login, and a rejection shows the server's message or "Erro ao fazer login".
     */
    method HandleSubmit(email: string, senha: string, server: Server, refresh: RefreshServer)
      modifies this, auth, auth.api, auth.api.storage
      ensures LoginCheck(email, senha).Some? ==>
        && error == LoginCheck(email, senha).value && isLoading == old(isLoading) && navigations == old(navigations)
        && unchanged(auth) && unchanged(auth.api) && unchanged(auth.api.storage)
      ensures LoginCheck(email, senha).None? ==>
        var t := Exchange(Post, AuthService.LoginUrl, Credentials(email, senha), old(auth.api.storage.items), server, refresh);
        var s := SignIn(AuthService.BodyOf(t.outcome), LoginRefused);
        && !isLoading && !auth.isLoading
        && auth.api.log == old(auth.api.log) + t.events
        && (s.Success? ==> error == "" && navigations == old(navigations) + [DashboardPath])
        && (s.Failure? ==> error == ErrorText(s.error, LoginFallback) && navigations == old(navigations))
        && (s.Success? ==> auth.user == Some(s.value.user) && auth.api.storage.items == SaveSession(t.store, s.value))
        && (s.Failure? ==> auth.user == old(auth.user) && auth.api.storage.items == t.store)
    {
      var invalid := LoginCheck(email, senha);
      if invalid.Some? {
        error := invalid.value;
        return;
      }
      isLoading := true;
      error := "";
      var r := auth.Login(email, senha, server, refresh);
      match r {
        case Success(_) =>
          navigations := navigations + [DashboardPath];
        case Failure(thrown) =>
          error := ErrorText(thrown, LoginFallback);
      }
      isLoading := false;
    }
  }

  /** The registration page's state: the shown error, its own loading flag and the navigations it requested. */
  class RegisterPage {
    const auth: AuthProvider
    var error: string
    var isLoading: bool
    var navigations: seq<string>

    constructor(auth: AuthProvider)
      ensures this.auth == auth && error == "" && !isLoading && navigations == []
    {
      this.auth := auth;
      error := "";
      isLoading := false;
      navigations := [];
    }

    /**
     * `handleSubmit`: the first failing check stops with its message and no request; otherwise the
     * error is cleared, `register` is called with (nome, email, senha) only, `/dashboard` follows
     * only a resolved registration, and a rejection shows the server's message or "Erro ao criar conta".
     */
    method HandleSubmit(nome: string, email: string, senha: string, confirmarSenha: string,
                        server: Server, refresh: RefreshServer)
      modifies this, auth, auth.api, auth.api.storage
      ensures RegisterCheck(nome, email, senha, confirmarSenha).Some? ==>
        && error == RegisterCheck(nome, email, senha, confirmarSenha).value
        && isLoading == old(isLoading) && navigations == old(navigations)
        && unchanged(auth) && unchanged(auth.api) && unchanged(auth.api.storage)
      ensures RegisterCheck(nome, email, senha, confirmarSenha).None? ==>
        var t := Exchange(Post, AuthService.RegisterUrl, NewUser(nome, email, senha), old(auth.api.storage.items), server, refresh);
        var s := SignIn(AuthService.BodyOf(t.outcome), RegisterRefused);
        && !isLoading && !auth.isLoading
        && auth.api.log == old(auth.api.log) + t.events
        && (s.Success? ==> error == "" && navigations == old(navigations) + [DashboardPath])
        && (s.Failure? ==> error == ErrorText(s.error, RegisterFallback) && navigations == old(navigations))
        && (s.Success? ==> auth.user == Some(s.value.user) && auth.api.storage.items == SaveSession(t.store, s.value))
        && (s.Failure? ==> auth.user == old(auth.user) && auth.api.storage.items == t.store)
    {
      var invalid := RegisterCheck(nome, email, senha, confirmarSenha);
      if invalid.Some? {
        error := invalid.value;
        return;
      }
      isLoading := true;
      error := "";
      var r := auth.Register(nome, email, senha, server, refresh);
      match r {
        case Success(_) =>
          navigations := navigations + [DashboardPath];
        case Failure(thrown) =>
          error := ErrorText(thrown, RegisterFallback);
      }
      isLoading := false;
    }
  }

  /**
   * A login the server answers with a body whose `success` is not true is refused by the session
   * with "Falha na autenticação", but that error carries no response, so the page shows
   * "Erro ao fazer login" instead.
   */
  lemma RefusedLoginShowsFallback(body: Body)
    requires !(body.AuthReply? && body.success)
    ensures var s := SignIn(Success(body), LoginRefused);
      s == Failure(Raised(LoginRefused)) && ErrorText(s.error, LoginFallback) == LoginFallback
  {
  }
}
