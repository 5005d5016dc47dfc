/** The register page (webapp/src/app/register/page.tsx): the `registerSchema` rules with the
    password confirmation, the `submitError` state around `register`, and the submit button's
    disabled state. */
module RegisterPage {
  import opened Wrappers
  import opened AuthTypes
  import opened Http
  import AuthContext
  import AuthService

  const USERNAME_TOO_SHORT := "Le nom doit contenir au moins 2 caractères"
  const EMAIL_INVALID := "Email invalide"
  const PASSWORD_TOO_SHORT := "Le mot de passe doit contenir au moins 6 caractères"
  const PASSWORDS_DIFFER := "Les mots de passe ne correspondent pas"

  datatype Field = Username | Email | Password | ConfirmPassword

  /** `registerSchema`, as the per-field messages the form shows. The field checks only mark
      the parse as failed without aborting it, so the object refinement runs as well and its
      mismatch is reported on `confirmPassword` together with any field errors. `isEmail`
      stands for zod's email-format check. */
  function Validate(form: RegisterCredentials, isEmail: string -> bool): (errors: map<Field, string>)
    ensures Username in errors <==> |form.username| < 2
    ensures Email in errors <==> !isEmail(form.email)
    ensures Password in errors <==> |form.password| < 6
    ensures ConfirmPassword in errors <==> form.password != form.confirmPassword
    ensures Username in errors ==> errors[Username] == USERNAME_TOO_SHORT
    ensures Email in errors ==> errors[Email] == EMAIL_INVALID
    ensures Password in errors ==> errors[Password] == PASSWORD_TOO_SHORT
    ensures ConfirmPassword in errors ==> errors[ConfirmPassword] == PASSWORDS_DIFFER
  {
    var e0 := map[];
    var e1 := if |form.username| < 2 then e0[Username := USERNAME_TOO_SHORT] else e0;
    var e2 := if !isEmail(form.email) then e1[Email := EMAIL_INVALID] else e1;
    var e3 := if |form.password| < 6 then e2[Password := PASSWORD_TOO_SHORT] else e2;
    if form.password != form.confirmPassword then e3[ConfirmPassword := PASSWORDS_DIFFER] else e3
  }

  /** A form is accepted exactly when every rule holds. */
  lemma ValidIff(form: RegisterCredentials, isEmail: string -> bool)
    ensures Validate(form, isEmail) == map[]
      <==> |form.username| >= 2 && isEmail(form.email) && |form.password| >= 6 && form.password == form.confirmPassword
  {
    var errors := Validate(form, isEmail);
    if errors != map[] {
      var f :| f in errors;
      assert f == Username || f == Email || f == Password || f == ConfirmPassword;
    }
  }

  /** A mismatch on an otherwise valid form is reported on `confirmPassword` and nowhere else. */
  lemma MismatchOnConfirmOnly(form: RegisterCredentials, isEmail: string -> bool)
    requires |form.username| >= 2 && isEmail(form.email) && |form.password| >= 6
    requires form.password != form.confirmPassword
    ensures Validate(form, isEmail) == map[ConfirmPassword := PASSWORDS_DIFFER]
  {
    var errors := Validate(form, isEmail);
    assert errors.Keys == {ConfirmPassword} by {
      forall f | f in errors ensures f == ConfirmPassword {
        assert f == Username || f == Email || f == Password || f == ConfirmPassword;
      }
    }
  }

  class Page {
    const auth: AuthContext.AuthProvider
    var submitError: Option<string>
    var fieldErrors: map<Field, string>

    constructor (auth: AuthContext.AuthProvider)
      ensures this.auth == auth && submitError == None && fieldErrors == map[]
    {
      this.auth := auth;
      submitError := None;
      fieldErrors := map[];
    }

    /** `disabled={isLoading}` */
    function SubmitDisabled(): (disabled: bool)
      reads this, auth
      ensures disabled <==> auth.isLoading
    {
      auth.isLoading
    }

    /** `handleSubmit(onSubmit)` on the form values `form`, with `reply` the server's answer
        to the register call. An invalid form only shows its field errors and calls nothing;
        a valid one clears `submitError`, awaits `register`, and shows the rejection's message
        if it rejects. Registering never signs the user in. */
    method Submit(form: RegisterCredentials, isEmail: string -> bool, reply: HttpOutcome<()>)
      modifies this, auth, auth.api.jar, auth.api.log
      ensures fieldErrors == Validate(form, isEmail)
      ensures fieldErrors != map[] ==>
        && submitError == old(submitError)
        && unchanged(auth, auth.api.jar, auth.api.log)
      ensures fieldErrors == map[] ==>
        && (reply.Resolved? ==> submitError == None)
        && (reply.Rejected? ==> submitError == Some(AuthService.Register(reply).message) && submitError.value != "")
        && |auth.api.log.events| > |old(auth.api.log.events)|
        && auth.api.log.events[|old(auth.api.log.events)|]
           == AuthContext.Sent(auth.api, AuthService.RegisterRequest(form), old(auth.api.jar.GetToken()))
        && auth.user == old(auth.user) && auth.token == old(auth.token) && !auth.isLoading
    {
      fieldErrors := Validate(form, isEmail);
      if fieldErrors == map[] {
        submitError := None;
        var outcome := auth.Register(form, reply);
        if outcome.Err? {
          submitError := Some(outcome.message);
        }
      }
    }
  }
}
