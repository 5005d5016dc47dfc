# Authentication core of the collaborative-calendar web app, in Dafny

This project models the authentication logic of the calendar web app's frontend. It covers
the following parts:

- **Session store** (`Session`). This is the cookie jar with its two entries, `auth-token`
  and `auth-user`. The user entry holds the user's JSON text (`UserJson`).
- **API client** (`Api`). It has a base URL and a request interceptor that attaches
  `Authorization: Bearer <token>`. Its response interceptor removes the session and forces
  a navigation to `/login` on a 401.
- **Auth service** (`AuthService`). It has four endpoints, each with a request builder and a
  mapping of the reply to a value or an error message.
- **Auth provider** (`AuthContext`). This is a state machine over `user`, `token` and
  `isLoading`, with the derived `isAuthenticated`. Its transitions are the mount-time
  initialisation, `login`, `register`, `logout` and `refreshUser`.
- **Route decisions** (`Middleware`, `ProtectedRoute`, `RequireAuth`).
- **Login and register pages** (`LoginPage`, `RegisterPage`). These cover the form schemas,
  the `submitError` state and the submit button.

State that the source changes in place is modelled as classes:

- `Session.CookieJar` holds a map of cookies.
- `Api.RequestConfig` holds headers that the request interceptor overwrites.
- `AuthContext.AuthProvider` holds the three state cells.
- `LoginPage.Page` and `RegisterPage.Page` hold `submitError` and the field errors.

Requests, toasts and navigation go, in order, into one `Effects.EffectLog`; cookie writes
are the jar's state, so their order relative to a toast is not recorded. The log holds:

- requests handed to the network, with the headers the request interceptor leaves;
- toasts;
- `router.push` targets;
- `window.location` assignments.

So "no network call" means that no `Request` entry was appended. The transport and the
server are not modelled. Each remote call is answered by an `Http.HttpOutcome` given as a
parameter: `Resolved(data)`, or `Rejected(response)` with an optional status and payload.
The environment variables `NEXT_PUBLIC_API_URL` and `NEXT_PUBLIC_DEV_MODE` are also
parameters. So is the zod e-mail check, as a predicate `isEmail`.

Some behaviours of the code are easy to misread; the model follows the code:

- **`isAuthenticated` uses truthiness.** It is `isDev || (!!user && !!token)`, so an empty
  token string counts as no token.
- **The middleware token also uses truthiness.** An empty `auth-token` cookie counts as no
  token.
- **A failed login can change storage.** It leaves the provider's state alone. It also
  leaves storage alone, except when the reply is a 401: the response interceptor then
  removes both cookies and assigns `/login` before the service's own error handling runs.
- **Dev mode affects only two things.** It changes the mount-time initialisation and
  `isAuthenticated`. `login`, `register` and `logout` behave the same in dev mode.
- **The edge bypass is fixed.** The edge middleware's bypass is hard-coded on, whatever the
  environment. So `Middleware.Route` lets everything pass. The decision with the bypass off
  is `Middleware.Decide`.
- **The service has a fourth operation.** It also exposes `refreshToken`, which the
  provider never calls.

## Model

| member | source | states |
|---|---|---|
| `UserJson.Encode` | webapp/src/lib/auth.ts:57 | `JSON.stringify(user)` is an object text: never empty, opening with `{` and closing with `}` |
| `UserJson.Decode` | webapp/src/lib/auth.ts:70 | `JSON.parse` of the user cookie; a text it accepts is exactly the encoding of the user it returns, so the parse is a left inverse of `Encode` on everything it accepts |
| `UserJson.DecodeEncode` | webapp/src/lib/auth.ts:56-71 | the user text `setUser` stores (`JSON.stringify`) parses back to the same user, so `getUser` returns what `setUser` was given |
| `Session.Cleared` | webapp/src/lib/auth.ts:46-49 | removing the session drops exactly `auth-token` and `auth-user` and keeps every other cookie with its value |
| `Session.ClearedIdempotent` | webapp/src/contexts/AuthContext.tsx:151-157 | removing the session a second time changes nothing, so two logouts leave the same cookies as one |
| `Session.CookieJar.GetToken` | webapp/src/lib/auth.ts:38-40 | returns the token cookie exactly when it is present and non-empty; a missing or empty cookie reads as null, and a returned token is never empty |
| `Session.CookieJar.GetUser` | webapp/src/lib/auth.ts:68-71 | a missing or empty user cookie gives null (and only then); otherwise the result is the parse of the cookie text, and the call throws exactly when the text does not parse; a user read back is one whose encoding is exactly the stored text |
| `Session.CookieJar.IsAuthenticated` | webapp/src/lib/auth.ts:77-79 | true exactly when a non-empty token is stored; the user entry is not consulted |
| `Session.CookieJar.SetToken` | webapp/src/lib/auth.ts:26-32 | only the token entry changes; `getToken` then returns the token, or null for an empty one, and `getUser` is unchanged |
| `Session.CookieJar.SetUser` | webapp/src/lib/auth.ts:56-62 | only the user entry changes; `getUser` then returns that user, and `getToken` and `isAuthenticated` are unchanged |
| `Session.CookieJar.RemoveToken` | webapp/src/lib/auth.ts:46-49 | both entries are removed whatever the prior state: `getToken` and `getUser` return null and `isAuthenticated` is false |
| `Api.BaseUrl` | webapp/src/lib/api.ts:15 | the base URL is `NEXT_PUBLIC_API_URL` when set and non-empty, `http://localhost:8080` otherwise, and never empty |
| `Api.WithBearer` | webapp/src/lib/api.ts:33-39 | with a stored token the `Authorization` header is exactly `"Bearer " + token` and is the only header added; every other header is kept; without a token the headers are returned unchanged |
| `Api.Outgoing` | webapp/src/lib/api.ts:21-40 | the request as the interceptor leaves it: the call's method, body and base URL + path, the JSON content type, and an `Authorization: Bearer <token>` header exactly when a token is stored |
| `Api.RequestConfig.constructor` | webapp/src/lib/api.ts:21-26 | a request starts at base URL + path with the JSON content-type header and the service's body |
| `Api.ApiClient.constructor` | webapp/src/lib/api.ts:15-26 | the client's base URL is the configured one, over the shared cookie jar |
| `Api.ApiClient.InterceptRequest` | webapp/src/lib/api.ts:33-40 | the config's headers are updated in place: `Authorization` is set to `Bearer <token>` when a token is stored, and left unchanged otherwise |
| `Api.ApiClient.InterceptResponse` | webapp/src/lib/api.ts:52-60 | every outcome is passed on unchanged, errors included; a 401 removes both cookies and assigns `/login`; any other outcome changes neither the cookies nor the location |
| `Api.ApiClient.Send` | webapp/src/lib/api.ts:21-60 | one call records the request with the headers from the token stored at call time, returns the reply unchanged, and applies the 401 teardown |
| `AuthService.Normalize` | webapp/src/services/authService.ts:28-33 | a success resolves with `response.data` unchanged; a failure rejects with the server's payload if present and non-empty, else with the fallback, so the message is never empty when the fallback is not |
| `AuthService.RefreshToken` | webapp/src/services/authService.ts:75-82 | a success resolves with `response.data`; every failure rejects with `Erreur de rafraîchissement du token`, whatever the server sent |
| `AuthService.LoginRequest` | webapp/src/services/authService.ts:29 | login is POST `/user/login` with the credentials object as body: exactly `email` and `password` |
| `AuthService.RegisterRequest` | webapp/src/services/authService.ts:45-49 | register is POST `/user/register` with a body of exactly `username`, `email` and `password` copied from the form; `confirmPassword` is not sent |
| `AuthService.MeRequest` | webapp/src/services/authService.ts:63 | the profile is GET `/user/me` with no body |
| `AuthService.RefreshRequest` | webapp/src/services/authService.ts:77 | the refresh is POST `/user/refresh` with no body |
| `AuthService.Login` | webapp/src/services/authService.ts:27-34 | resolves exactly when the call succeeds, with `response.data`; otherwise rejects with the server's payload if present and non-empty, else `Erreur de connexion`, so never with an empty message |
| `AuthService.Register` | webapp/src/services/authService.ts:43-53 | resolves exactly when the call succeeds; otherwise rejects with the server's payload if present and non-empty, else `Erreur d'inscription` |
| `AuthService.GetCurrentUser` | webapp/src/services/authService.ts:61-68 | resolves exactly when the call succeeds, with the user; otherwise rejects with the server's payload if present and non-empty, else `Erreur de récupération du profil` |
| `AuthService.RegisterIgnoresConfirmation` | webapp/src/services/authService.ts:45-49 | the register request is the same whatever `confirmPassword` holds |
| `AuthContext.DevMode` | webapp/src/contexts/AuthContext.tsx:44 | dev mode is on exactly when `NEXT_PUBLIC_DEV_MODE` is the string `true` |
| `AuthContext.AuthProvider.constructor` | webapp/src/contexts/AuthContext.tsx:35-44 | the provider starts with no user, no token and `isLoading` true |
| `AuthContext.AuthProvider.IsAuthenticated` | webapp/src/contexts/AuthContext.tsx:50 | always true in dev mode; otherwise true exactly when a user and a non-empty token are held |
| `AuthContext.AuthProvider.Logout` | webapp/src/contexts/AuthContext.tsx:151-157 | both cookies are removed, user and token become null, a success toast and a push to `/login` are recorded, no request is made, `isLoading` is unchanged, and the provider is unauthenticated unless in dev mode |
| `AuthContext.AuthProvider.Initialize` | webapp/src/contexts/AuthContext.tsx:56-99 | `isLoading` ends false on every path. In dev mode the fixed user and `dev-token` are taken without touching storage or making a request. A user cookie that does not parse leads to logout. Without a stored token and user nothing changes and no request is made. A stored session is adopted and then validated with GET `/user/me`; if validation fails, logout follows. From the initial state the provider ends authenticated exactly when a stored session was validated |
| `AuthContext.AuthProvider.Login` | webapp/src/contexts/AuthContext.tsx:107-125 | on success the token and user are written to both cookies and state, then a success toast and a push to `/dashboard` are recorded. On failure the error is rethrown with a non-empty message and an error toast is recorded. User, token and `isAuthenticated` are then unchanged, and the cookies change only through the 401 teardown. `isLoading` ends false either way |
| `AuthContext.AuthProvider.FinishLogin` | webapp/src/contexts/AuthContext.tsx:110-124 | once the service has settled: on success the cookies and state take the response, `getUser` and `getToken` read it back, and two effects are recorded; on failure only an error toast is recorded and the error is rethrown; `isLoading` ends false |
| `AuthContext.AuthProvider.Register` | webapp/src/contexts/AuthContext.tsx:133-145 | user and token never change. On success a toast and a push to `/login` are recorded. On failure the error is rethrown with a non-empty message after an error toast. The cookies change only through the 401 teardown, and `isLoading` ends false |
| `AuthContext.AuthProvider.RefreshUser` | webapp/src/contexts/AuthContext.tsx:164-173 | on success only the user changes, in state and in the cookie, and the token is kept; on any failure logout follows; `isLoading` is untouched |
| `Middleware.Route` | webapp/middleware.ts:17-38 | `middleware(request)` as written: with `isDev` hard-coded true, every request passes, whatever its path and token |
| `Middleware.Decide` | webapp/middleware.ts:29-38 | the decision with the bypass as a parameter: the bypass lets everything pass; a redirect to `/dashboard` only for an auth route with a token, a redirect to `/login` only for a protected path without one, no other target; paths of neither kind pass |
| `Middleware.DecideCases` | webapp/middleware.ts:29-38 | with the bypass off: a redirect to `/dashboard` happens exactly for `/login` or `/register` with a token; a redirect to `/login` happens exactly for paths starting with `/dashboard` without a token; everything else passes |
| `Middleware.NestedDashboardRedirects` | webapp/middleware.ts:34-36 | the protected test is a prefix match: `/dashboard/stats` without a token is redirected to `/login` |
| `Middleware.AuthRouteIsExact` | webapp/middleware.ts:29-31 | the auth-route test is exact membership: `/login/x` with a token is not redirected |
| `Middleware.EmptyCookieIsNoToken` | webapp/middleware.ts:17-36 | an empty `auth-token` cookie is treated as no token |
| `Middleware.RedirectsExclusive` | webapp/middleware.ts:29-38 | no path is both an auth route and under a protected prefix, so the two redirect tests never compete; the token test alone also keeps them apart |
| `ProtectedRoute.Render` | webapp/src/components/ProtectedRoute.tsx:33-48 | the loading indicator is shown while loading, whatever the auth state. Once loaded and unauthenticated, the fallback is shown, or nothing without one. Children are rendered exactly when not loading and authenticated |
| `RequireAuth.UseRequireAuth` | webapp/src/hooks/useRequireAuth.ts:14-24 | a push happens exactly when not loading and not authenticated, never while loading. Its target is `redirectTo`, which defaults to `/login`. The hook returns the `isAuthenticated` and `isLoading` it read |
| `LoginPage.Validate` | webapp/src/app/login/page.tsx:23-26 | the email is rejected exactly when it fails the e-mail check, and the password exactly when it is empty, each with its message; the form is accepted exactly when both hold |
| `LoginPage.Page.constructor` | webapp/src/app/login/page.tsx:30 | `submitError` starts null |
| `LoginPage.Page.SubmitDisabled` | webapp/src/app/login/page.tsx:95 | the submit button is disabled exactly while the provider is loading |
| `LoginPage.Page.Submit` | webapp/src/app/login/page.tsx:40-47 | an invalid form shows its field errors and calls nothing. A valid one clears `submitError` and calls `login`, whose request is the first effect recorded. `submitError` stays null on success and becomes the rejection's non-empty message on failure |
| `RegisterPage.Validate` | webapp/src/app/register/page.tsx:23-31 | username shorter than 2, failing e-mail check and password shorter than 6 are each reported on their own field; a password/confirmation mismatch is reported on `confirmPassword` |
| `RegisterPage.ValidIff` | webapp/src/app/register/page.tsx:23-31 | a register form is accepted exactly when all four rules hold |
| `RegisterPage.MismatchOnConfirmOnly` | webapp/src/app/register/page.tsx:28-31 | a mismatch on an otherwise valid form yields exactly one error, on `confirmPassword` |
| `RegisterPage.Page.constructor` | webapp/src/app/register/page.tsx:35 | `submitError` starts null |
| `RegisterPage.Page.SubmitDisabled` | webapp/src/app/register/page.tsx:124 | the submit button is disabled exactly while the provider is loading |
| `RegisterPage.Page.Submit` | webapp/src/app/register/page.tsx:45-52 | an invalid form shows its field errors and calls nothing. A valid one clears `submitError` and calls `register`, whose request is the first effect recorded. `submitError` stays null on success and becomes the rejection's non-empty message on failure. User and token are unchanged |

## Left out

- JSX, styling and the purely presentational files are not part of this model. The
  sidebar's username label (webapp/src/components/app-sidebar.tsx:199) is left out too.
- Cookie attributes are left out: the 7-day expiry, `secure`, `sameSite` and real expiry
  over time.
- `UserJson.Decode` reads only the three `User` fields, in the order id, username, email,
  as `Encode` writes them. `setUser` stores the server's own object (the login response's
  user and the `/user/me` data), so a cookie with another key order or with extra fields
  parses in the source but is refused here. `Encode` writes control characters raw where
  `JSON.stringify` escapes them, and `Decode` accepts them raw where `JSON.parse` throws;
  only `"` and `\` are escaped. A real `JSON.parse` also accepts other JSON texts, such as
  `null`, without throwing. Ids are integers; like JSON, a leading zero followed by more
  digits is refused, and `-0`, which JSON accepts, is refused too.
- `Api.Outgoing`: axios's joining of the base URL and the path and its later header changes
  are not modelled: it adds `Accept`, and drops `Content-Type` for the bodiless
  `GET /user/me` and `POST /user/refresh`. The URL is the plain concatenation, so a base URL that
  ends in `/` would give a doubled slash where axios sends a single one.
- Async timing is left out. Each remote call completes within its method, so the moment
  while `login` or `register` awaits with `isLoading` true cannot be observed. Overlapping
  calls and their races are not modelled. React's repeated effects in development mode are
  not modelled either.
- The HTTP transport and the server's behaviour are replaced by the reply parameters. A
  server error payload is modelled as text, so a payload object and its string conversion
  are not captured.
- The request interceptor's error handler (webapp/src/lib/api.ts:41-43) is left out. It
  only rejects again, and in this model no request fails before it is sent.
- `console.error` logging (webapp/src/contexts/AuthContext.tsx:94 and 170) is left out. So
  is the `useAuth` guard that throws outside a provider (webapp/src/contexts/AuthContext.tsx:202-208).
- Toast rendering and router mechanics are left out. They appear only as entries in the
  effect log.
- The zod e-mail regular expression is the parameter `isEmail`. The Next.js `matcher` path
  pattern (webapp/middleware.ts:50) is not part of this model.
- Length bounds count Unicode scalar values. Zod counts UTF-16 code units, so the two differ
  for characters outside the Basic Multilingual Plane.
- The rendering of field errors and of `submitError` is left out.
- `LoginPage.Page.Submit`: for a valid form it states only the first recorded effect and
  `submitError`. The rest of the provider's new state is given by
  `AuthContext.AuthProvider.Login`'s contract.
- `RegisterPage.Page.Submit`: for a valid form it states only the first recorded effect,
  `submitError` and the unchanged user and token. The rest is given by
  `AuthContext.AuthProvider.Register`'s contract.
