/**
 * The HTTP exchange as the axios client presents it to the session layer: requests with their
 * headers and JSON payloads, responses with a status and a body of one of the shapes the
 * authentication endpoints use, and the errors axios rejects with.
 */
module Http {

  import opened Base

  type Headers = map<string, string>

  const AuthorizationHeader := "Authorization"
  /** The credential prefix of section 2.1 of RFC 6750. */
  const BearerPrefix := "Bearer "
  /** The headers every request of the shared client starts with. */
  const DefaultHeaders: Headers := map["Content-Type" := "application/json"]

  /** The `Usuario` record of the backend. */
  datatype User = User(id: int, nome: string, email: string, criadoEm: string)

  /** The `data` part of a login or registration response. */
  datatype Session = Session(user: User, token: string, refreshToken: string)

  /** Response bodies, by shape: the session layer reads only these fields. */
  datatype Body =
    | AuthReply(success: bool, session: Session) // {success, data: {user, token, refreshToken}}
    | UserReply(user: User)                      // {data: user}
    | TokenReply(token: string)                  // {token}
    | ErrorReply(error: string)                  // {error}
    | NoContent

  datatype Verb = Get | Post

  /** Request bodies the session layer sends. */
  datatype Payload =
    | NoPayload
    | Credentials(email: string, senha: string)
    | NewUser(nome: string, email: string, senha: string)
    | RefreshRequest(refreshToken: string)

  datatype Response = Response(status: int, body: Body)

  /** What the network yields for one dispatch: a response, or nothing (a network failure). */
  datatype Reply = Received(response: Response) | NoResponse

  /** An axios error: it carries the response when the server sent one. */
  datatype HttpError = HttpError(response: Option<Response>)

  /** A settled request: resolved with a response or rejected with an error. */
  datatype Outcome = Resolved(response: Response) | Rejected(error: HttpError)

  /** axios resolves exactly the 2xx statuses and rejects every other reply. */
  function Settle(reply: Reply): (o: Outcome)
    ensures o.Resolved? <==> reply.Received? && 200 <= reply.response.status < 300
    ensures o.Resolved? ==> o.response == reply.response
    ensures o.Rejected? ==> o.error.response == (if reply.Received? then Some(reply.response) else None)
  {
    match reply
    case Received(response) =>
      if 200 <= response.status < 300 then Resolved(response) else Rejected(HttpError(Some(response)))
    case NoResponse => Rejected(HttpError(None))
  }

  /** `error.response?.status`. */
  function StatusOf(error: HttpError): Option<int> {
    if error.response.Some? then Some(error.response.value.status) else None
  }
}
