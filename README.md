# house-front: session handling, sign-in forms and list queries

This project models the authentication core of the house-front web client. It also models the query strings the client builds for its inventory, problem and bill lists. The model is written in Dafny, and the properties below are proved about it.

- **The shared HTTP client** (`Api`).
  - Before every request, an interceptor reads `authToken` from the browser's local storage and sends it as `Authorization: Bearer <token>`.
  - An error interceptor handles a 401 on a request that is not yet marked. It marks the request and posts the stored `refreshToken` to `/auth/refresh` with a bare client. It stores the new `authToken` and re-dispatches the request once.
  - When the refresh fails, it removes the three session keys, sends the browser to `/login` and rejects with the refresh error.
  - The server and the refresh endpoint are function parameters. Every call to the outside world is recorded as an `Event`. This lets the lemmas count refreshes and dispatches.
- **`authService`** (`AuthService`).
  - It holds the login, register, refresh and current-user endpoints and the projections of their response bodies.
  - `logout` removes the session keys only after the POST has resolved.
- **`AuthContext`** (`AuthContext`). This is the session state machine:
  - `user` and `isLoading` live in a class;
  - the session is restored at startup;
  - `login` and `register` store the granted session under `authToken`, `refreshToken` and `user`, or throw;
  - `logout` always clears the user.
- **The Login and Register pages** (`AuthForms`).
  - Client-side validation, with the exact Portuguese messages.
  - Submission through the context, navigation to `/dashboard` on success.
  - The error message shown on failure: the server's `error` field, else a fixed fallback.
- **List queries** (`Query`, `EstoqueService`, `ProblemaService`, `ContaService`).
  - The three `getAll` methods and the `getByImovel` of the inventory and problem services build a `URLSearchParams` in place. They append each filter only when it is truthy, except `precisa_repor`, which is appended whenever it is defined.
  - `contaService.getByImovel` instead pastes `?status=` and the raw status into the URL with a template string, and only when the status is truthy.
  - For the `URLSearchParams` queries, the model proves that parsing the query text back gives exactly the filters that were set. The text filters must contain no `&` or `=`; encoding and decoding are outside the model. It also proves that the keys keep their source order.
  - `getByImovel` adds a `?` only when it has a query. `getAll` always ends its path with `?`, even with no filters (`/estoque?`).

Shared pieces:

- `Base`: options, results and JavaScript truthiness.
- `Text`: the decimal rendering of numbers and booleans, with a round trip.
- `Storage`: local storage as a `map<string,string>`, held by a `LocalStorage` class.
- `Http`: the status rule used by axios (only a 2xx resolves) and the response body shapes.

## Model

| member | source | states |
|---|---|---|
| Api.Authorize | src/services/api.ts:15-28 | With a non-empty `authToken` stored, the headers gain `Authorization: Bearer <token>` and every other header is kept. Otherwise the headers are returned unchanged. The key set grows by exactly that one header. |
| Api.ApiClient.InterceptRequest | src/services/api.ts:15-28 | The request's headers become `Authorize` of its old headers under the current store. The retry mark is untouched. |
| Api.Recover | src/services/api.ts:45-78 | The error interceptor asks for a re-dispatch only for a request not yet marked as retried. This is why the retry terminates. |
| Api.ApiClient.InterceptResponseError | src/services/api.ts:45-78 | The verdict, the new store and the calls made are those of `Recover`. Every 401 sets the retry mark. The headers carry `Bearer <new token>` exactly when a retry is asked for. |
| Api.Attempt | src/services/api.ts:15-78 | The lifecycle of one dispatch and its possible re-dispatch, as a value: outcome, store and calls. Its first call is always the dispatch with the headers `Authorize` produces. |
| Api.Exchange | src/services/api.ts:7-12 | The whole lifecycle of an originating request, which starts from the client's default headers. Its first call is the dispatch with `Authorize` of those headers. |
| Api.ApiClient.Dispatch | src/services/api.ts:15-78 | One dispatch through both interceptors, plus the re-dispatch when one is asked for. Its outcome, its store and its call log equal `Attempt`. The request ends marked exactly when it was already marked or its first reply was a 401. |
| Api.ApiClient.Send | src/services/api.ts:7-12 | A fresh config with the client's default `Content-Type: application/json` header is sent. The outcome, store and log equal `Exchange`. |
| Api.RetriedAttempt | src/services/api.ts:49-50 | A request already marked is dispatched once and its reply is settled as it is. A second 401 is rejected with no refresh and no store change. |
| Api.AtMostOneRefresh | src/services/api.ts:45-78 | Each originating request makes at most one refresh call and at most two dispatches. |
| Api.ExchangeResolved | src/services/api.ts:37-44 | A 2xx reply is returned unchanged. It is dispatched once and the store is not changed. |
| Api.ExchangeRejectedAsIs | src/services/api.ts:49-77 | A non-401 rejection, or a 401 with no refresh token stored, is rejected with the original error. The store is untouched. |
| Api.ExchangeRefreshed | src/services/api.ts:54-65 | The refresh succeeds: only `authToken` is overwritten, and the request is re-dispatched with `Bearer <new token>`. The second reply settles the request. The calls are dispatch, refresh, dispatch. |
| Api.ExchangeRefreshFailed | src/services/api.ts:67-73 | The refresh fails: the three session keys are removed, the browser goes to `/login`, and the request is rejected with the refresh error. |
| Http.Settle | src/services/api.ts:36-45 | Which reply reaches which of the two response handlers. The rule is axios's default `validateStatus`, not code in these lines: a reply resolves exactly when it is received with a 2xx status. Any other reply, or no reply, becomes an error that carries the response when there is one. |
| Storage.Cleared | src/services/api.ts:69-71 | Removing the session keys deletes `authToken`, `refreshToken` and `user` and keeps every other key with its value. |
| AuthService.BodyOf | src/services/authService.ts:34-44 | `response.data`: a resolved request yields its body unchanged, and a rejected one rethrows its error. |
| AuthService.CurrentUserOf | src/services/authService.ts:58-61 | `response.data.data` of `/auth/me`: a user exactly for a `{data: user}` body. |
| AuthService.LogoutStore | src/services/authService.ts:46-51 | After a resolved logout POST no session key is left and every other key keeps its value. After a rejected one the store is whatever the request left. |
| AuthService.Login | src/services/authService.ts:34-39 | POSTs `{email, senha}` to `/auth/login` through the shared client and returns the body or rethrows the error. |
| AuthService.Register | src/services/authService.ts:41-44 | POSTs `{nome, email, senha}` to `/auth/register` through the shared client and returns the body or rethrows. |
| AuthService.Logout | src/services/authService.ts:46-51 | Succeeds exactly when the POST resolves. The store is then `LogoutStore`, so the keys are removed only on success. |
| AuthService.RefreshToken | src/services/authService.ts:53-56 | POSTs `{refreshToken}` to `/auth/refresh` through the shared client and returns the body. |
| AuthService.GetCurrentUser | src/services/authService.ts:58-61 | GETs `/auth/me` and succeeds exactly when the request resolves, with `CurrentUserOf` of its body. |
| AuthContext.SaveSession | src/contexts/AuthContext.tsx:66-69 | The three keys hold the session's token, its refresh token and the serialized user. Every other key is unchanged. |
| AuthContext.SignIn | src/contexts/AuthContext.tsx:58-81 | The answer is granted exactly for a body with `success` true, and yields that body's session. A request error is rethrown unchanged. Any other body throws the refusal message. |
| AuthContext.SerializedUser | src/contexts/AuthContext.tsx:69 | `JSON.stringify(userData)` for the four user fields. It has no contract of its own; `SaveSession` states where it is stored. |
| AuthContext.AuthProvider.IsAuthenticated | src/contexts/AuthContext.tsx:31 | `!!user`: true exactly when a user is set. It is a predicate without a contract; the constructor and `Logout` state its value. |
| AuthContext.AuthProvider.constructor | src/contexts/AuthContext.tsx:28-31 | The provider starts with no user, loading, and not authenticated. |
| AuthContext.AuthProvider.InitAuth | src/contexts/AuthContext.tsx:35-53 | `/auth/me` is asked only when both `authToken` and `user` are stored. Its answer becomes the user; its failure removes the session keys. Loading ends in every case. |
| AuthContext.AuthProvider.Login | src/contexts/AuthContext.tsx:58-81 | A granted login stores the session and sets the user. A refusal or an error throws and leaves the user and the store as the request left them. Loading ends. |
| AuthContext.AuthProvider.Register | src/contexts/AuthContext.tsx:83-106 | The rules of `Login` for `/auth/register`, with the refusal "Falha no registro". |
| AuthContext.AuthProvider.ApplyAnswer | src/contexts/AuthContext.tsx:63-74 | Applies `SignIn` to the service's answer: it stores and sets the user on a grant, and otherwise throws without writing anything. |
| AuthContext.AuthProvider.Logout | src/contexts/AuthContext.tsx:108-116 | The user is cleared whatever the server answers. The store is `LogoutStore` of the request. |
| AuthContext.FailedLogoutKeepsTokens | src/services/authService.ts:46-51 | A logout POST that fails with anything but a 401 leaves the store exactly as it was. `AuthProvider.Logout` clears the user in that case too, so the tokens stay stored while nobody is signed in. |
| AuthForms.RegisterCheck | src/components/auth/Register.tsx:27-40 | Checks in source order. Any empty field gives "Todos os campos são obrigatórios". Otherwise differing passwords give the mismatch message. Otherwise a password shorter than 6 gives the length message. Otherwise the form is valid. |
| AuthForms.LoginCheck | src/components/auth/Login.tsx:25-28 | The form is valid exactly when both email and password are non-empty. Otherwise the message is "Email e senha são obrigatórios". |
| AuthForms.ServerMessage | src/components/auth/Login.tsx:36 | `error.response?.data?.error`: an error the session raised itself has none. A request error whose response body carries an `error` field yields exactly that field, and any message found comes from such a body. |
| AuthForms.ErrorText | src/components/auth/Login.tsx:35-37 | The message shown is the server's non-empty `error` field when there is one. Otherwise, and always for an error the session raised itself, it is the fallback. |
| AuthForms.LoginPage.constructor | src/components/auth/Login.tsx:8-9 | The page starts with no error and not loading. |
| AuthForms.LoginPage.HandleSubmit | src/components/auth/Login.tsx:22-40 | An invalid form shows its message and calls nothing. A valid one goes to `/dashboard` on success, or shows `ErrorText` with "Erro ao fazer login". The session's user and the store are those `AuthProvider.Login` leaves. Loading ends. |
| AuthForms.RegisterPage.constructor | src/components/auth/Register.tsx:8-9 | The page starts with no error and not loading. |
| AuthForms.RegisterPage.HandleSubmit | src/components/auth/Register.tsx:24-52 | An invalid form shows its message and calls nothing. A valid one registers and goes to `/dashboard`, or shows `ErrorText` with "Erro ao criar conta". The session's user and the store are those `AuthProvider.Register` leaves. Loading ends. |
| AuthForms.RefusedLoginShowsFallback | src/components/auth/Login.tsx:30-39 | A login body without `success` shows the page's fallback text, never the session's own refusal message. |
| Query.Serialize | src/services/estoqueService.ts:42 | `params.toString()`: empty exactly for no parameters. |
| Query.Lookup | src/services/estoqueService.ts:37-40 | `URLSearchParams.get`: a name is found exactly when it was appended. |
| Query.LookupFirst | src/services/estoqueService.ts:37-40 | A value `get` finds is the value of the first pair carrying that name; no earlier pair has the name. |
| Query.RoundTrip | src/services/estoqueService.ts:37-42 | Parsing the serialized parameters gives back the appended pairs in order. The names and values must be free of `&` and `=`. |
| Text.IntToDecimal | src/services/estoqueService.ts:38 | `n.toString()` for magnitudes below 10^21: non-empty, starting with `-` exactly for a negative number. |
| Text.IntToDecimalRoundTrip | src/services/estoqueService.ts:38 | `imovelId.toString()` reads back as the same integer, for magnitudes below 10^21. |
| Text.BoolToText | src/services/estoqueService.ts:40 | `precisaRepor.toString()` is "true" exactly for true, and otherwise "false". |
| EstoqueService.GetAllUrl | src/services/estoqueService.ts:36-44 | The URL is `/estoque?` followed by the serialized filters. It is exactly `/estoque?` when no filter is set. |
| EstoqueService.AllQueryReadsFilters | src/services/estoqueService.ts:37-40 | `imovel_id` and `categoria` are present exactly when truthy. `precisa_repor` is present exactly when defined, even when false. Values are read back unchanged, and the keys keep the source order. |
| EstoqueService.AllQueryTextReadsFilters | src/services/estoqueService.ts:37-42 | Parsing the `getAll` query text gives back exactly the appended pairs. The server reads each filter as `AllQueryReadsFilters` states, for a `categoria` without `&` or `=`. |
| EstoqueService.GetByImovelUrl | src/services/estoqueService.ts:51-59 | The path `/estoque/imovel/<id>` is followed by `?` and the query only when a filter is set. |
| EstoqueService.ImovelQueryReadsFilters | src/services/estoqueService.ts:52-55 | `categoria` and `precisa_repor` follow the rules of `getAll`, and no `imovel_id` is ever added. |
| EstoqueService.ImovelQueryTextReadsFilters | src/services/estoqueService.ts:52-56 | Parsing the `getByImovel` query text gives back its pairs: no `imovel_id`, the truthy `categoria`, and the defined `precisa_repor`. |
| ProblemaService.GetAllUrl | src/services/problemaService.ts:34-42 | The URL is `/problemas?` followed by the serialized filters. |
| ProblemaService.AllQueryReadsFilters | src/services/problemaService.ts:35-38 | `imovel_id`, `status` and `prioridade` are each present exactly when truthy, with their values, in the source order. |
| ProblemaService.AllQueryTextReadsFilters | src/services/problemaService.ts:35-40 | Parsing the `getAll` query text gives back exactly the appended pairs, so the truthy `imovel_id`, `status` and `prioridade` are read with their values. |
| ProblemaService.GetByImovelUrl | src/services/problemaService.ts:49-57 | The path `/problemas/imovel/<id>` carries a `?` exactly when `status` or `prioridade` is truthy. |
| ProblemaService.ImovelQueryReadsFilters | src/services/problemaService.ts:50-53 | `status` and `prioridade` are present exactly when truthy, and there is no `imovel_id` key. |
| ProblemaService.ImovelQueryTextReadsFilters | src/services/problemaService.ts:50-54 | Parsing the `getByImovel` query text gives back its pairs: no `imovel_id`, and the truthy `status` and `prioridade`. |
| ContaService.GetAllUrl | src/services/contaService.ts:39-46 | The URL is `/contas?` followed by the serialized filters. |
| ContaService.AllQueryReadsFilters | src/services/contaService.ts:40-42 | `imovel_id` and `status` are present exactly when truthy, with their values, in the source order. |
| ContaService.AllQueryTextReadsFilters | src/services/contaService.ts:40-44 | Parsing the `getAll` query text gives back exactly the appended pairs, so the truthy `imovel_id` and `status` are read with their values. |
| ContaService.ByImovelUrl | src/services/contaService.ts:53-57 | The path `/contas/imovel/<id>` is followed by `?status=<status>` exactly when the status is truthy. The query parses back to that single pair. |

## Behaviour worth knowing

- A 401 with no refresh token stored skips the refresh block. It rejects with the original 401, keeps the store, and does not redirect (`Api.ExchangeRejectedAsIs`).
- A failed refresh rejects with the refresh request's error, not the original 401 (`Api.ExchangeRefreshFailed`).
- A logout POST that fails with anything but a 401 skips the `removeItem` calls in `authService.logout` and leaves the store as it was. The context still clears the user, so the tokens stay stored while nobody shows as signed in (`AuthContext.FailedLogoutKeepsTokens`). A 401 whose refresh then fails is different: the interceptor removes the keys itself (`Api.ExchangeRefreshFailed`).
- A successful refresh writes only `authToken`. The stored refresh token is kept as it was (`Api.ExchangeRefreshed`).
- The startup restore needs both `authToken` and `user` to be stored. A stored refresh token alone is not enough (`AuthContext.AuthProvider.InitAuth`).

## Left out

- Network I/O: the server and the refresh endpoint are function parameters. The hard-coded base URL `http://localhost:3001/api` prefixes every path, including the bare refresh POST. It is not modelled, so paths are relative to it.
- Concurrency: requests run one at a time in the model. Several requests that fail together each run their own refresh (as in the code), but their interleaving is not modelled.
- React rendering, hooks, `useEffect` scheduling and the `useAuth` guard outside a provider: `InitAuth` is a method that is called once. `handleChange` is not modelled, and the field values are passed to `HandleSubmit` directly.
- The browser's own form validation (`required`, `type="email"`, `minLength` on the inputs): only `handleSubmit`'s checks are modelled.
- `console.log`/`console.error` calls, and the navigation's effect beyond recording the path.
- Percent-encoding in `URLSearchParams`: `Query.RoundTrip` and the services' `*TextReadsFilters` lemmas hold for names and values without `&` or `=`. `ContaService.ByImovelUrl` concatenates `status` without encoding, as the code does.
- ContaService.ByImovelUrl: its read-back clause parses the raw text without decoding. A real server also turns `+` into a space, decodes `%xx`, and never receives anything after `#`. So for a status holding `+`, `%` or `#`, the server would read something other than the status; the model does not capture that.
- `JSON.stringify` escaping: `AuthContext.SerializedUser` writes the user's strings as they are.
- String lengths: JavaScript counts UTF-16 code units and Dafny counts characters. The two differ for a password with characters outside the Basic Multilingual Plane.
- Numbers are integers: a `NaN` or fractional `imovel_id` is not modelled.
- Text.IntToDecimal: it matches `Number.prototype.toString` only for magnitudes below 10^21. From there on JavaScript writes exponent notation such as `1e+21`. Integers beyond 2^53 are not even representable as JavaScript numbers. `Text.IntToDecimalRoundTrip` therefore speaks for the source only below that bound.
- AuthService.CurrentUserOf: a `/auth/me` body of any shape other than `{data: user}` is read as no user. The JavaScript would return that body's `data` field, whatever it holds.
- Api.ExchangeRefreshed: the refresh reply is modelled as carrying a token. A reply without `data.token` would store the string "undefined", and that is not modelled.
- Local storage that throws (quota, disabled storage) is not modelled.
- The dashboard, layout, property and user services, the by-id service methods and the type-only modules are not part of this model.
