/** The auth service (webapp/src/services/authService.ts): each operation is one call through
    the API client followed by a mapping of the reply. Here each operation is split into the
    request it builds and the function that turns the reply into a resolved value or a
    rejected `Error` message. */
module AuthService {
  import opened Wrappers
  import opened AuthTypes
  import opened Http

  const LOGIN_ERROR := "Erreur de connexion"
  const REGISTER_ERROR := "Erreur d'inscription"
  const PROFILE_ERROR := "Erreur de récupération du profil"
  const REFRESH_ERROR := "Erreur de rafraîchissement du token"

  /** `api.post('/user/login', credentials)`: the body is the credentials object, exactly
      `email` and `password`. */
  function LoginRequest(c: LoginCredentials): (req: Request)
    ensures req.verb == Post && req.path == "/user/login"
    ensures req.body.Some? && req.body.value.Keys == {"email", "password"}
    ensures req.body.value["email"] == c.email && req.body.value["password"] == c.password
  {
    Request(Post, "/user/login", Some(map["email" := c.email, "password" := c.password]))
  }

  /** `api.post('/user/register', {username, email, password})`: `confirmPassword` stays in
      the form and is never sent. */
  function RegisterRequest(c: RegisterCredentials): (req: Request)
    ensures req.verb == Post && req.path == "/user/register"
    ensures req.body.Some? && req.body.value.Keys == {"username", "email", "password"}
    ensures "confirmPassword" !in req.body.value
    ensures req.body.value["username"] == c.username && req.body.value["email"] == c.email
      && req.body.value["password"] == c.password
  {
    Request(Post, "/user/register", Some(map["username" := c.username, "email" := c.email, "password" := c.password]))
  }

  /** `api.get('/user/me')`: the profile is fetched with no body. */
  function MeRequest(): (req: Request)
    ensures req.verb == Get && req.path == "/user/me" && req.body.None?
  {
    Request(Get, "/user/me", None)
  }

  /** `api.post('/user/refresh')`: the refresh is posted with no body; the bearer header
      carries the token. */
  function RefreshRequest(): (req: Request)
    ensures req.verb == Post && req.path == "/user/refresh" && req.body.None?
  {
    Request(Post, "/user/refresh", None)
  }

  /** The catch clause shared by login, register and getCurrentUser:
      `throw new Error(error.response?.data || fallback)`. */
  function Normalize<T>(reply: HttpOutcome<T>, fallback: string): (r: Result<T>)
    ensures r.Ok? <==> reply.Resolved?
    ensures reply.Resolved? ==> r.value == reply.data
    ensures r.Err? && ServerMessage(reply).Some? ==> r.message == ServerMessage(reply).value
    ensures r.Err? && ServerMessage(reply).None? ==> r.message == fallback
    ensures r.Err? && fallback != "" ==> r.message != ""
  {
    match reply
    case Resolved(data) => Ok(data)
    case Rejected(_) => Err(if ServerMessage(reply).Some? then ServerMessage(reply).value else fallback)
  }

  /** `AuthService.login` after the call has settled: the response data on success, and
      otherwise an error whose message is the server's payload or `Erreur de connexion`. */
  function Login(reply: HttpOutcome<AuthResponse>): (r: Result<AuthResponse>)
    ensures r.Ok? <==> reply.Resolved?
    ensures reply.Resolved? ==> r.value == reply.data
    ensures r.Err? ==> r.message != ""
    ensures r.Err? && ServerMessage(reply).None? ==> r.message == LOGIN_ERROR
    ensures r.Err? && ServerMessage(reply).Some? ==> r.message == ServerMessage(reply).value
  {
    Normalize(reply, LOGIN_ERROR)
  }

  /** `AuthService.register` after the call has settled; it resolves with nothing, and
      otherwise fails with the server's payload or `Erreur d'inscription`. */
  function Register(reply: HttpOutcome<()>): (r: Result<()>)
    ensures r.Ok? <==> reply.Resolved?
    ensures r.Err? ==> r.message != ""
    ensures r.Err? && ServerMessage(reply).None? ==> r.message == REGISTER_ERROR
    ensures r.Err? && ServerMessage(reply).Some? ==> r.message == ServerMessage(reply).value
  {
    Normalize(reply, REGISTER_ERROR)
  }

  /** `AuthService.getCurrentUser` after the call has settled: the user on success, and
      otherwise the server's payload or `Erreur de récupération du profil`. */
  function GetCurrentUser(reply: HttpOutcome<User>): (r: Result<User>)
    ensures r.Ok? <==> reply.Resolved?
    ensures reply.Resolved? ==> r.value == reply.data
    ensures r.Err? ==> r.message != ""
    ensures r.Err? && ServerMessage(reply).None? ==> r.message == PROFILE_ERROR
    ensures r.Err? && ServerMessage(reply).Some? ==> r.message == ServerMessage(reply).value
  {
    Normalize(reply, PROFILE_ERROR)
  }

  /** `AuthService.refreshToken` after the call has settled: its catch ignores the server's
      payload. */
  function RefreshToken(reply: HttpOutcome<AuthResponse>): (r: Result<AuthResponse>)
    ensures reply.Resolved? ==> r == Ok(reply.data)
    ensures reply.Rejected? ==> r == Err(REFRESH_ERROR)
  {
    match reply
    case Resolved(data) => Ok(data)
    case Rejected(_) => Err(REFRESH_ERROR)
  }

  /** The register request does not depend on the confirmation field. */
  lemma RegisterIgnoresConfirmation(c: RegisterCredentials, confirm: string)
    ensures RegisterRequest(c.(confirmPassword := confirm)) == RegisterRequest(c)
  {
  }
}
