/** The login page (webapp/src/app/login/page.tsx): the `loginSchema` rules, the `submitError`
    state around `login`, and the submit button's disabled state. */
module LoginPage {
  import opened Wrappers
  import opened AuthTypes
  import opened Http
  import AuthContext
  import AuthService

  const EMAIL_INVALID := "Email invalide"
  const PASSWORD_REQUIRED := "Mot de passe requis"

  datatype Field = Email | Password

  /** `loginSchema`, as the per-field messages the form shows. `isEmail` stands for zod's
      email-format check, which is not modelled. */
  function Validate(form: LoginCredentials, isEmail: string -> bool): (errors: map<Field, string>)
    ensures Email in errors <==> !isEmail(form.email)
    ensures Password in errors <==> |form.password| < 1
    ensures Email in errors ==> errors[Email] == EMAIL_INVALID
    ensures Password in errors ==> errors[Password] == PASSWORD_REQUIRED
    ensures errors == map[] <==> isEmail(form.email) && form.password != ""
  {
    var e := if isEmail(form.email) then map[] else map[Email := EMAIL_INVALID];
    if |form.password| < 1 then e[Password := PASSWORD_REQUIRED] else e
  }

  class Page {
    const auth: AuthContext.AuthProvider
    var submitError: Option<string>
    var fieldErrors: map<Field, string>

    constructor (auth: AuthContext.AuthProvider)
      ensures this.auth == auth && submitError == None && fieldErrors == map[]
    {
      this.auth := auth;
      submitError := None;
      fieldErrors := map[];
    }

    /** `disabled={isLoading}` */
    function SubmitDisabled(): (disabled: bool)
      reads this, auth
      ensures disabled <==> auth.isLoading
    {
      auth.isLoading
    }

    /** `handleSubmit(onSubmit)` on the form values `form`, with `reply` the server's answer
        to the login call. An invalid form only shows its field errors: `onSubmit` is not
        called, so nothing reaches the network. A valid one clears `submitError`, awaits
        `login`, and shows the rejection's message if it rejects. */
    method Submit(form: LoginCredentials, isEmail: string -> bool, reply: HttpOutcome<AuthResponse>)
      modifies this, auth, auth.api.jar, auth.api.log
      ensures fieldErrors == Validate(form, isEmail)
      ensures fieldErrors != map[] ==>
        && submitError == old(submitError)
        && unchanged(auth, auth.api.jar, auth.api.log)
      ensures fieldErrors == map[] ==>
        && (reply.Resolved? ==> submitError == None && auth.IsAuthenticated() == (auth.isDev || reply.data.token != ""))
        && (reply.Rejected? ==> submitError == Some(AuthService.Login(reply).message) && submitError.value != "")
        && |auth.api.log.events| > |old(auth.api.log.events)|
        && auth.api.log.events[|old(auth.api.log.events)|]
           == AuthContext.Sent(auth.api, AuthService.LoginRequest(form), old(auth.api.jar.GetToken()))
        && !auth.isLoading
    {
      fieldErrors := Validate(form, isEmail);
      if fieldErrors == map[] {
        submitError := None;
        var outcome := auth.Login(form, reply);
        if outcome.Err? {
          submitError := Some(outcome.message);
        }
      }
    }
  }
}
