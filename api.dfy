/**
 * The shared HTTP client: a request interceptor that attaches the stored access token as a
 * bearer credential, and a response interceptor that answers a 401 by marking the request,
 * exchanging the stored refresh token for a new access token and re-dispatching the request
 * once, or by wiping the session keys and sending the browser to `/login` when the exchange fails.
 *
 * The server and the refresh endpoint are parameters: `server(n, headers)` is the reply to the
 * n-th dispatch of one originating request, `refresh(rt)` the reply of the refresh endpoint.
 */
module Api {

  import opened Base
  import opened Storage
  import opened Http

  const RefreshUrl := "/auth/refresh"
  const LoginPath := "/login"

  /** Calls into the outside world, in the order they are made. */
  datatype Event =
    | Dispatched(verb: Verb, url: string, headers: Headers, payload: Payload)  // through the shared client
    | RefreshPosted(refreshToken: string)  // bare POST to the refresh endpoint, outside the interceptors
    | RedirectedTo(path: string)           // assignment of `window.location.href`

  datatype RefreshReply = Refreshed(token: string) | RefreshFailed(error: HttpError)

  type Server = (nat, Headers) -> Reply
  type RefreshServer = string -> RefreshReply

  /** The request interceptor's effect on the headers. */
  function Authorize(headers: Headers, store: Store): (r: Headers)
    ensures TruthyText(Item(store, AuthTokenKey)) ==>
      AuthorizationHeader in r && r[AuthorizationHeader] == BearerPrefix + store[AuthTokenKey]
    ensures !TruthyText(Item(store, AuthTokenKey)) ==> r == headers
    ensures r.Keys == headers.Keys + (if TruthyText(Item(store, AuthTokenKey)) then {AuthorizationHeader} else {})
    ensures forall k :: k in headers && k != AuthorizationHeader ==> r[k] == headers[k]
  {
    var token := Item(store, AuthTokenKey);
    if token.Some? && token.value != "" then headers[AuthorizationHeader := BearerPrefix + token.value] else headers
  }

  /** What the error interceptor does with a rejected request: settle it, or re-dispatch it with a new token. */
  datatype Verdict = Settled(outcome: Outcome) | Retry(token: string)

  datatype Recovery = Recovery(verdict: Verdict, store: Store, events: seq<Event>)

  /** The error interceptor's decision, its effect on the store and the calls it makes. */
  function Recover(error: HttpError, retried: bool, store: Store, refresh: RefreshServer): (r: Recovery)
    ensures r.verdict.Retry? ==> !retried
  {
    var refreshToken := Item(store, RefreshTokenKey);
    if StatusOf(error) == Some(401) && !retried && TruthyText(refreshToken) then
      match refresh(refreshToken.value)
      case Refreshed(token) =>
        Recovery(Retry(token), store[AuthTokenKey := token], [RefreshPosted(refreshToken.value)])
      case RefreshFailed(refreshError) =>
        Recovery(Settled(Rejected(refreshError)), Cleared(store), [RefreshPosted(refreshToken.value), RedirectedTo(LoginPath)])
    else
      Recovery(Settled(Rejected(error)), store, [])
  }

  /** The settled outcome of a request lifecycle, the store it leaves and the calls it makes. */
  datatype Trace = Trace(outcome: Outcome, store: Store, events: seq<Event>)

  /** One dispatch of a request (interceptors included) and, when the error interceptor asks, its re-dispatch. */
  function Attempt(verb: Verb, url: string, payload: Payload, headers: Headers, retried: bool, store: Store,
                   server: Server, refresh: RefreshServer, attempt: nat): (t: Trace)
    ensures |t.events| > 0 && t.events[0] == Dispatched(verb, url, Authorize(headers, store), payload)
    decreases if retried then 0 else 1
  {
    var sent := Authorize(headers, store);
    var dispatched := [Dispatched(verb, url, sent, payload)];
    match Settle(server(attempt, sent))
    case Resolved(response) => Trace(Resolved(response), store, dispatched)
    case Rejected(error) =>
      var recovery := Recover(error, retried, store, refresh);
      match recovery.verdict
      case Settled(outcome) => Trace(outcome, recovery.store, dispatched + recovery.events)
      case Retry(token) =>
        var next := Attempt(verb, url, payload, sent[AuthorizationHeader := BearerPrefix + token], true,
                            recovery.store, server, refresh, attempt + 1);
        Trace(next.outcome, next.store, dispatched + recovery.events + next.events)
  }

  /** The whole lifecycle of one originating request issued with the client's default headers. */
  function Exchange(verb: Verb, url: string, payload: Payload, store: Store, server: Server, refresh: RefreshServer): (t: Trace)
    ensures |t.events| > 0 && t.events[0] == Dispatched(verb, url, Authorize(DefaultHeaders, store), payload)
  {
    Attempt(verb, url, payload, DefaultHeaders, false, store, server, refresh, 0)
  }

  /** Number of calls made to the refresh endpoint. */
  function Refreshes(events: seq<Event>): nat {
    if events == [] then 0 else (if events[0].RefreshPosted? then 1 else 0) + Refreshes(events[1..])
  }

  /** Number of dispatches through the shared client. */
  function Dispatches(events: seq<Event>): nat {
    if events == [] then 0 else (if events[0].Dispatched? then 1 else 0) + Dispatches(events[1..])
  }

  lemma {:induction false} CountsAppend(a: seq<Event>, b: seq<Event>)
    ensures Refreshes(a + b) == Refreshes(a) + Refreshes(b)
    ensures Dispatches(a + b) == Dispatches(a) + Dispatches(b)
    decreases |a|
  {
    if a == [] {
      assert a + b == b;
    } else {
      assert (a + b)[1..] == a[1..] + b;
      CountsAppend(a[1..], b);
    }
  }

  /** The error interceptor makes at most one refresh call and dispatches nothing itself. */
  lemma RecoveryCalls(error: HttpError, retried: bool, store: Store, refresh: RefreshServer)
    ensures Refreshes(Recover(error, retried, store, refresh).events) <= 1
    ensures Dispatches(Recover(error, retried, store, refresh).events) == 0
  {
    var refreshToken := Item(store, RefreshTokenKey);
    if StatusOf(error) == Some(401) && !retried && TruthyText(refreshToken) {
      var posted := [RefreshPosted(refreshToken.value)];
      assert posted[1..] == [];
      match refresh(refreshToken.value)
      case Refreshed(_) =>
      case RefreshFailed(_) =>
        var redirected := [RedirectedTo(LoginPath)];
        assert redirected[1..] == [];
        assert posted + redirected == Recover(error, retried, store, refresh).events;
        CountsAppend(posted, redirected);
    }
  }

  /**
   * A request already marked retried is dispatched once and its reply is settled as it is:
   * a second 401 is rejected with its own error, no refresh is made and the store is untouched.
   */
  lemma RetriedAttempt(verb: Verb, url: string, payload: Payload, headers: Headers, store: Store,
                       server: Server, refresh: RefreshServer, attempt: nat)
    ensures var sent := Authorize(headers, store);
      Attempt(verb, url, payload, headers, true, store, server, refresh, attempt)
        == Trace(Settle(server(attempt, sent)), store, [Dispatched(verb, url, sent, payload)])
  {
  }

  /** Each originating request causes at most one refresh call and at most two dispatches. */
  lemma {:induction false} AtMostOneRefresh(verb: Verb, url: string, payload: Payload, store: Store,
                                            server: Server, refresh: RefreshServer)
    ensures Refreshes(Exchange(verb, url, payload, store, server, refresh).events) <= 1
    ensures Dispatches(Exchange(verb, url, payload, store, server, refresh).events) <= 2
  {
    var sent := Authorize(DefaultHeaders, store);
    var dispatched := [Dispatched(verb, url, sent, payload)];
    match Settle(server(0, sent))
    case Resolved(_) =>
    case Rejected(error) =>
      var recovery := Recover(error, false, store, refresh);
      match recovery.verdict
      case Settled(_) =>
        RecoveryCalls(error, false, store, refresh);
        CountsAppend(dispatched, recovery.events);
      case Retry(token) =>
        var retryHeaders := sent[AuthorizationHeader := BearerPrefix + token];
        var next := Attempt(verb, url, payload, retryHeaders, true, recovery.store, server, refresh, 1);
        RetriedAttempt(verb, url, payload, retryHeaders, recovery.store, server, refresh, 1);
        RecoveryCalls(error, false, store, refresh);
        CountsAppend(dispatched, recovery.events);
        CountsAppend(dispatched + recovery.events, next.events);
  }

  /** A 2xx reply is returned unchanged, with no store change and no further call. */
  lemma ExchangeResolved(verb: Verb, url: string, payload: Payload, store: Store, server: Server, refresh: RefreshServer)
    requires Settle(server(0, Authorize(DefaultHeaders, store))).Resolved?
    ensures var sent := Authorize(DefaultHeaders, store);
      Exchange(verb, url, payload, store, server, refresh)
        == Trace(Settle(server(0, sent)), store, [Dispatched(verb, url, sent, payload)])
  {
  }

  /**
   * A rejection that is not a 401, or a 401 while no refresh token is stored, is passed on with
   * the original error; the store is untouched (a missing refresh token does not clear it).
   */
  lemma ExchangeRejectedAsIs(verb: Verb, url: string, payload: Payload, store: Store, server: Server, refresh: RefreshServer)
    requires var reply := Settle(server(0, Authorize(DefaultHeaders, store)));
      reply.Rejected? && (StatusOf(reply.error) != Some(401) || !TruthyText(Item(store, RefreshTokenKey)))
    ensures var sent := Authorize(DefaultHeaders, store);
      Exchange(verb, url, payload, store, server, refresh)
        == Trace(Settle(server(0, sent)), store, [Dispatched(verb, url, sent, payload)])
  {
  }

  /**
   * A 401 with a stored refresh token that the refresh endpoint accepts: only `authToken` is
   * overwritten, with the new token; the request is re-dispatched once carrying `Bearer <new token>`,
   * and the reply to that re-dispatch, whatever it is, settles the request.
   */
  lemma ExchangeRefreshed(verb: Verb, url: string, payload: Payload, store: Store, server: Server, refresh: RefreshServer,
                          token: string)
    requires var reply := Settle(server(0, Authorize(DefaultHeaders, store)));
      && reply.Rejected? && StatusOf(reply.error) == Some(401)
      && TruthyText(Item(store, RefreshTokenKey))
      && refresh(store[RefreshTokenKey]) == Refreshed(token)
    ensures var first := Authorize(DefaultHeaders, store);
      var second := Authorize(first[AuthorizationHeader := BearerPrefix + token], store[AuthTokenKey := token]);
      var t := Exchange(verb, url, payload, store, server, refresh);
      && second[AuthorizationHeader] == BearerPrefix + token
      && t.store == store[AuthTokenKey := token]
      && Item(t.store, AuthTokenKey) == Some(token)
      && Item(t.store, RefreshTokenKey) == Item(store, RefreshTokenKey)
      && Item(t.store, UserKey) == Item(store, UserKey)
      && t.outcome == Settle(server(1, second))
      && t.events == [Dispatched(verb, url, first, payload), RefreshPosted(store[RefreshTokenKey]),
                      Dispatched(verb, url, second, payload)]
  {
  }

  /**
   * A 401 with a stored refresh token that the refresh endpoint rejects: the three session keys are
   * removed, the browser is sent to `/login`, and the request is rejected with the refresh error.
   */
  lemma ExchangeRefreshFailed(verb: Verb, url: string, payload: Payload, store: Store, server: Server, refresh: RefreshServer,
                              refreshError: HttpError)
    requires var reply := Settle(server(0, Authorize(DefaultHeaders, store)));
      && reply.Rejected? && StatusOf(reply.error) == Some(401)
      && TruthyText(Item(store, RefreshTokenKey))
      && refresh(store[RefreshTokenKey]) == RefreshFailed(refreshError)
    ensures var first := Authorize(DefaultHeaders, store);
      var t := Exchange(verb, url, payload, store, server, refresh);
      && t.outcome == Rejected(refreshError)
      && t.store == Cleared(store)
      && AuthTokenKey !in t.store && RefreshTokenKey !in t.store && UserKey !in t.store
      && t.events == [Dispatched(verb, url, first, payload), RefreshPosted(store[RefreshTokenKey]), RedirectedTo(LoginPath)]
  {
  }

  /** An axios request config; the interceptors update its headers and its retry mark in place. */
  class Request {
    const verb: Verb
    const url: string
    const payload: Payload
    var headers: Headers
    var retried: bool

    constructor(verb: Verb, url: string, payload: Payload)
      ensures this.verb == verb && this.url == url && this.payload == payload
      ensures headers == DefaultHeaders && !retried
    {
      this.verb := verb;
      this.url := url;
      this.payload := payload;
      headers := DefaultHeaders;
      retried := false;
    }
  }

  /** The shared client instance and the calls it has made. */
  class ApiClient {
    const storage: LocalStorage
    var log: seq<Event>

    constructor(storage: LocalStorage)
      ensures this.storage == storage && log == []
    {
      this.storage := storage;
      log := [];
    }

    /** Request interceptor: attach `Bearer <token>` when a non-empty access token is stored. */
    method InterceptRequest(req: Request)
      modifies req
      ensures req.headers == Authorize(old(req.headers), storage.items)
      ensures req.retried == old(req.retried)
    {
      var token := storage.GetItem(AuthTokenKey);
      if token.Some? && token.value != "" {
        req.headers := req.headers[AuthorizationHeader := BearerPrefix + token.value];
      }
    }

    /** Error interceptor: one refresh-and-retry for a 401 on a request not yet marked, else reject. */
    method InterceptResponseError(req: Request, error: HttpError, refresh: RefreshServer) returns (verdict: Verdict)
      modifies this, storage, req
      ensures var r := Recover(error, old(req.retried), old(storage.items), refresh);
        verdict == r.verdict && storage.items == r.store && log == old(log) + r.events
      ensures req.retried == (old(req.retried) || StatusOf(error) == Some(401))
      ensures req.headers == if verdict.Retry? then old(req.headers)[AuthorizationHeader := BearerPrefix + verdict.token]
                             else old(req.headers)
    {
      if StatusOf(error) == Some(401) && !req.retried {
        req.retried := true;
        var refreshToken := storage.GetItem(RefreshTokenKey);
        if refreshToken.Some? && refreshToken.value != "" {
          log := log + [RefreshPosted(refreshToken.value)];
          match refresh(refreshToken.value)
          case Refreshed(newToken) =>
            storage.SetItem(AuthTokenKey, newToken);
            req.headers := req.headers[AuthorizationHeader := BearerPrefix + newToken];
            return Retry(newToken);
          case RefreshFailed(refreshError) =>
            storage.RemoveItem(AuthTokenKey);
            storage.RemoveItem(RefreshTokenKey);
            storage.RemoveItem(UserKey);
            RemoveSessionKeys(old(storage.items));
            log := log + [RedirectedTo(LoginPath)];
            return Settled(Rejected(refreshError));
        }
      }
      verdict := Settled(Rejected(error));
    }

    /** `api(config)`: run the request interceptor, dispatch, and run the response interceptors. */
    method Dispatch(req: Request, server: Server, refresh: RefreshServer, attempt: nat) returns (outcome: Outcome)
      modifies this, storage, req
      decreases if req.retried then 0 else 1
      ensures var t := Attempt(req.verb, req.url, req.payload, old(req.headers), old(req.retried), old(storage.items),
                               server, refresh, attempt);
        outcome == t.outcome && storage.items == t.store && log == old(log) + t.events
      ensures var first := Settle(server(attempt, Authorize(old(req.headers), old(storage.items))));
        req.retried == (old(req.retried) || (first.Rejected? && StatusOf(first.error) == Some(401)))
    {
      InterceptRequest(req);
      log := log + [Dispatched(req.verb, req.url, req.headers, req.payload)];
      match Settle(server(attempt, req.headers))
      case Resolved(response) =>
        outcome := Resolved(response);
      case Rejected(error) =>
        var verdict := InterceptResponseError(req, error, refresh);
        match verdict
        case Settled(settled) =>
          outcome := settled;
        case Retry(_) =>
          outcome := Dispatch(req, server, refresh, attempt + 1);
    }

    /** `api.get(url)` / `api.post(url, payload)`: a fresh config sent through `Dispatch`. */
    method Send(verb: Verb, url: string, payload: Payload, server: Server, refresh: RefreshServer) returns (outcome: Outcome)
      modifies this, storage
      ensures var t := Exchange(verb, url, payload, old(storage.items), server, refresh);
        outcome == t.outcome && storage.items == t.store && log == old(log) + t.events
    {
      var req := new Request(verb, url, payload);
      outcome := Dispatch(req, server, refresh, 0);
    }
  }
}
