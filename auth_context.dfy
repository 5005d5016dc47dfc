/** The authentication provider (webapp/src/contexts/AuthContext.tsx): the `user`, `token`
    and `isLoading` state cells, the derived `isAuthenticated`, the mount-time initialisation
    and the `login`, `register`, `logout` and `refreshUser` actions. Toasts and navigation are
    appended to the tab's effect log; each remote call is answered by a reply given as input. */
module AuthContext {
  import opened Wrappers
  import opened AuthTypes
  import opened Http
  import Session
  import UserJson
  import Api
  import AuthService
  import Effects

  const DEV_USER := User(1, "Développeur", "dev@calendrier.com")
  const DEV_TOKEN := "dev-token"
  const LOGIN_OK := "Connexion réussie !"
  const REGISTER_OK := "Inscription réussie ! Vous pouvez maintenant vous connecter."
  const LOGOUT_OK := "Déconnexion réussie"
  const DASHBOARD_ROUTE := "/dashboard"

  /** `process.env.NEXT_PUBLIC_DEV_MODE === 'true'` */
  function DevMode(env: Option<string>): (on: bool)
    ensures on <==> env == Some("true")
  {
    env.Some? && env.value == "true"
  }

  /** What `logout` shows and where it goes. */
  function LogoutEffects(): seq<Effects.Effect>
  {
    [Effects.Toast(Effects.Success, LOGOUT_OK), Effects.RouterPush(Api.LOGIN_ROUTE)]
  }

  /** The request a call leaves on the log, given the token stored when it was made. */
  function Sent(api: Api.ApiClient, req: Request, stored: Option<string>): Effects.Effect
  {
    Effects.Request(Api.Outgoing(api.baseUrl, req, stored))
  }

  class AuthProvider {
    var user: Option<User>
    var token: Option<string>
    var isLoading: bool
    const isDev: bool
    const api: Api.ApiClient

    /** The state cells as `useState` creates them. */
    constructor (devModeEnv: Option<string>, api: Api.ApiClient)
      ensures user == None && token == None && isLoading
      ensures isDev == DevMode(devModeEnv) && this.api == api
    {
      user, token, isLoading := None, None, true;
      isDev := DevMode(devModeEnv);
      this.api := api;
    }

    /** `isDev || (!!user && !!token)`: an empty token string is falsy. */
    function IsAuthenticated(): (b: bool)
      reads this
      ensures isDev ==> b
      ensures !isDev ==> (b <==> user.Some? && token.Some? && token.value != "")
    {
      isDev || (user.Some? && token.Some? && token.value != "")
    }

    /** `logout()`: removes both cookies, clears the user and the token, shows a success toast
        and goes to the login page. No network call is made. */
    method Logout()
      modifies this, api.jar, api.log
      ensures user == None && token == None && isLoading == old(isLoading)
      ensures api.jar.entries == Session.Cleared(old(api.jar.entries))
      ensures api.jar.GetToken() == None && api.jar.GetUser() == Ok(None)
      ensures api.log.events == old(api.log.events) + LogoutEffects()
      ensures IsAuthenticated() == isDev
    {
      api.jar.RemoveToken();
      token := None;
      user := None;
      api.log.Record(Effects.Toast(Effects.Success, LOGOUT_OK));
      api.log.Record(Effects.RouterPush(Api.LOGIN_ROUTE));
    }

    /** The mount effect: the development bypass, or `initializeAuth()`. The stored session is
        adopted before it is validated with `getCurrentUser`, whose reply is `me`; a failed
        validation, or a user cookie that does not parse, ends in `logout()`. Every path ends
        with `isLoading` false. */
    method Initialize(me: HttpOutcome<User>)
      modifies this, api.jar, api.log
      ensures !isLoading
      ensures isDev ==>
        && user == Some(DEV_USER) && token == Some(DEV_TOKEN)
        && api.jar.entries == old(api.jar.entries) && api.log.events == old(api.log.events)
      // getUser() throws: the outer catch logs out
      ensures !isDev && old(api.jar.GetUser()).Err? ==>
        && user == None && token == None
        && api.jar.entries == Session.Cleared(old(api.jar.entries))
        && api.log.events == old(api.log.events) + LogoutEffects()
      // no stored session: nothing happens, in particular no call is made
      ensures !isDev && old(api.jar.GetUser()).Ok? && (old(api.jar.GetToken()).None? || old(api.jar.GetUser()).value.None?) ==>
        && user == old(user) && token == old(token)
        && api.jar.entries == old(api.jar.entries) && api.log.events == old(api.log.events)
      // a stored session: adopted, then validated
      ensures !isDev && old(api.jar.GetUser()).Ok? && old(api.jar.GetToken()).Some? && old(api.jar.GetUser()).value.Some? ==>
        var validation := Sent(api, AuthService.MeRequest(), old(api.jar.GetToken()));
        && (me.Resolved? ==>
              && user == old(api.jar.GetUser()).value && token == old(api.jar.GetToken())
              && api.jar.entries == old(api.jar.entries)
              && api.log.events == old(api.log.events) + [validation])
        && (me.Rejected? ==>
              && user == None && token == None
              && api.jar.entries == Session.Cleared(old(api.jar.entries))
              && api.log.events == old(api.log.events) + [validation] + Api.ReplyEffects(me) + LogoutEffects())
      // starting from the initial state, the provider is authenticated exactly when a stored
      // session was validated
      ensures !isDev && old(user).None? && old(token).None? ==>
        (IsAuthenticated() <==>
           old(api.jar.GetToken()).Some? && old(api.jar.GetUser()) == Ok(user) && user.Some? && me.Resolved?)
    {
      if isDev {
        user := Some(DEV_USER);
        token := Some(DEV_TOKEN);
        isLoading := false;
      } else {
        var storedToken := api.jar.GetToken();
        var storedUser := api.jar.GetUser();
        if storedUser.Err? {
          Logout();
        } else if storedToken.Some? && storedUser.value.Some? {
          token := storedToken;
          user := storedUser.value;
          var reply := api.Send(AuthService.MeRequest(), me);
          var validated := AuthService.GetCurrentUser(reply);
          if validated.Err? {
            Session.ClearedIdempotent(old(api.jar.entries));
            Logout();
          }
        }
        isLoading := false;
      }
    }

    /** `login(credentials)`, with `reply` the answer to `POST /user/login`. On success the
        token and user go to the cookies and the state, then a toast and `/dashboard`; on
        failure a toast and the service's error is rethrown, the state is left as it was and
        the cookies change only through the 401 teardown. */
    method Login(c: LoginCredentials, reply: HttpOutcome<AuthResponse>) returns (r: Result<()>)
      modifies this, api.jar, api.log
      ensures !isLoading
      ensures var call := Sent(api, AuthService.LoginRequest(c), old(api.jar.GetToken()));
        && (reply.Resolved? ==>
              && r == Ok(()) && token == Some(reply.data.token) && user == Some(reply.data.user)
              && api.jar.entries
                 == old(api.jar.entries)[Session.TOKEN_KEY := reply.data.token][Session.USER_KEY := UserJson.Encode(reply.data.user)]
              && api.log.events
                 == old(api.log.events) + [call, Effects.Toast(Effects.Success, LOGIN_OK), Effects.RouterPush(DASHBOARD_ROUTE)])
        && (reply.Rejected? ==>
              && r == Err(AuthService.Login(reply).message) && user == old(user) && token == old(token)
              && api.jar.entries == Api.AfterReply(old(api.jar.entries), reply)
              && api.log.events
                 == old(api.log.events) + [call] + Api.ReplyEffects(reply) + [Effects.Toast(Effects.Error, r.message)])
      ensures reply.Resolved? ==>
        && api.jar.GetUser() == Ok(Some(reply.data.user))
        && api.jar.GetToken() == (if reply.data.token == "" then None else Some(reply.data.token))
        && (IsAuthenticated() <==> isDev || reply.data.token != "")
      ensures reply.Rejected? ==> r.Err? && r.message != "" && IsAuthenticated() == old(IsAuthenticated())
      ensures reply.Rejected? && !IsUnauthorized(reply) ==> api.jar.entries == old(api.jar.entries)
    {
      isLoading := true;
      ghost var events0 := api.log.events;
      ghost var call := Sent(api, AuthService.LoginRequest(c), api.jar.GetToken());
      var settled := api.Send(AuthService.LoginRequest(c), reply);
      ghost var events1 := api.log.events;
      assert events1 == events0 + [call] + Api.ReplyEffects(reply);
      r := FinishLogin(AuthService.Login(settled));
      // The branch assertions below only restate the postcondition piece by piece; they split
      // the proof so that it stays within the verifier's resource limit.
      if reply.Resolved? {
        assert events1 == events0 + [call];
        assert api.log.events == events1 + [Effects.Toast(Effects.Success, LOGIN_OK), Effects.RouterPush(DASHBOARD_ROUTE)];
        assert token == Some(reply.data.token) && user == Some(reply.data.user);
        assert IsAuthenticated() <==> isDev || reply.data.token != "";
      } else {
        assert api.log.events == events1 + [Effects.Toast(Effects.Error, r.message)];
        assert user == old(user) && token == old(token);
        assert IsAuthenticated() == old(IsAuthenticated());
      }
    }

    /** The part of `login` after `AuthService.login` has settled with `response`: the try
        block's remaining steps, or the catch block, then the finally block. */
    method FinishLogin(response: Result<AuthResponse>) returns (r: Result<()>)
      modifies this, api.jar, api.log
      ensures !isLoading
      ensures response.Ok? ==>
        && r == Ok(()) && token == Some(response.value.token) && user == Some(response.value.user)
        && api.jar.entries
           == old(api.jar.entries)[Session.TOKEN_KEY := response.value.token][Session.USER_KEY := UserJson.Encode(response.value.user)]
        && api.jar.GetUser() == Ok(Some(response.value.user))
        && api.jar.GetToken() == (if response.value.token == "" then None else Some(response.value.token))
        && api.log.events
           == old(api.log.events) + [Effects.Toast(Effects.Success, LOGIN_OK), Effects.RouterPush(DASHBOARD_ROUTE)]
      ensures response.Err? ==>
        && r == Err(response.message) && user == old(user) && token == old(token)
        && api.jar.entries == old(api.jar.entries)
        && api.log.events == old(api.log.events) + [Effects.Toast(Effects.Error, response.message)]
    {
      if response.Ok? {
        api.jar.SetToken(response.value.token);
        api.jar.SetUser(response.value.user);
        token := Some(response.value.token);
        user := Some(response.value.user);
        api.log.Record(Effects.Toast(Effects.Success, LOGIN_OK));
        api.log.Record(Effects.RouterPush(DASHBOARD_ROUTE));
        r := Ok(());
      } else {
        api.log.Record(Effects.Toast(Effects.Error, response.message));
        r := Err(response.message);
      }
      isLoading := false;
    }

    /** `register(credentials)`, with `reply` the answer to `POST /user/register`. It never
        signs the user in: `user` and `token` are left as they were. */
    method Register(c: RegisterCredentials, reply: HttpOutcome<()>) returns (r: Result<()>)
      modifies this, api.jar, api.log
      ensures !isLoading && user == old(user) && token == old(token)
      ensures api.jar.entries == Api.AfterReply(old(api.jar.entries), reply)
      ensures var call := Sent(api, AuthService.RegisterRequest(c), old(api.jar.GetToken()));
        && (reply.Resolved? ==>
              && r == Ok(())
              && api.log.events
                 == old(api.log.events) + [call, Effects.Toast(Effects.Success, REGISTER_OK), Effects.RouterPush(Api.LOGIN_ROUTE)])
        && (reply.Rejected? ==>
              && r == Err(AuthService.Register(reply).message) && r.message != ""
              && api.log.events
                 == old(api.log.events) + [call] + Api.ReplyEffects(reply) + [Effects.Toast(Effects.Error, r.message)])
    {
      isLoading := true;
      var settled := api.Send(AuthService.RegisterRequest(c), reply);
      var response := AuthService.Register(settled);
      if response.Ok? {
        api.log.Record(Effects.Toast(Effects.Success, REGISTER_OK));
        api.log.Record(Effects.RouterPush(Api.LOGIN_ROUTE));
        r := Ok(());
      } else {
        api.log.Record(Effects.Toast(Effects.Error, response.message));
        r := Err(response.message);
      }
      isLoading := false;
    }

    /** `refreshUser()`, with `reply` the answer to `GET /user/me`: a success replaces the
        stored and in-memory user and nothing else; any failure logs out. Errors are not
        rethrown and `isLoading` is not touched. */
    method RefreshUser(reply: HttpOutcome<User>)
      modifies this, api.jar, api.log
      ensures isLoading == old(isLoading)
      ensures var call := Sent(api, AuthService.MeRequest(), old(api.jar.GetToken()));
        && (reply.Resolved? ==>
              && user == Some(reply.data) && token == old(token)
              && api.jar.entries == old(api.jar.entries)[Session.USER_KEY := UserJson.Encode(reply.data)]
              && api.jar.GetUser() == Ok(Some(reply.data))
              && api.log.events == old(api.log.events) + [call])
        && (reply.Rejected? ==>
              && user == None && token == None
              && api.jar.entries == Session.Cleared(old(api.jar.entries))
              && api.log.events == old(api.log.events) + [call] + Api.ReplyEffects(reply) + LogoutEffects())
    {
      var settled := api.Send(AuthService.MeRequest(), reply);
      var updated := AuthService.GetCurrentUser(settled);
      if updated.Ok? {
        api.jar.SetUser(updated.value);
        user := Some(updated.value);
      } else {
        Session.ClearedIdempotent(old(api.jar.entries));
        Logout();
      }
    }
  }
}
