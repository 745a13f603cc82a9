/** The validation and submission of src/components/auth/LoginForm.tsx. */
module LoginForm {
  import opened Wrappers
  import opened Email
  import Auth

  datatype LoginValues = LoginValues(email: string, password: string, rememberMe: bool)

  const InitialValues := LoginValues("", "", false)

  const PasswordRequired := "Password is required"

  /** `validate`: the shared email rule, and a required password. */
  function Validate(v: LoginValues): map<string, string> {
    var e := Put(map[], "email", EmailFieldError(v.email));
    Put(e, "password", if v.password == "" then Some(PasswordRequired) else None)
  }

  /** Only `email` and `password` can fail; `rememberMe` never does; the password
      has no length rule. */
  lemma ValidateRules(v: LoginValues)
    ensures var e := Validate(v);
      && e.Keys <= {"email", "password"}
      && ("email" in e <==> !IsEmail(v.email))
      && (v.email == "" ==> e["email"] == EmailRequired)
      && (v.email != "" && !IsEmail(v.email) ==> e["email"] == InvalidEmail)
      && ("password" in e <==> v.password == "") && ("password" in e ==> e["password"] == PasswordRequired)
  {
  }

  /** `rememberMe` plays no part in validation. */
  lemma RememberMeIgnored(v: LoginValues, rememberMe: bool)
    ensures Validate(v.(rememberMe := rememberMe)) == Validate(v)
  {
  }

  /** The result is empty exactly when both rules pass. */
  lemma ValidateEmptyIffValid(v: LoginValues)
    ensures Validate(v) == map[] <==> IsEmail(v.email) && v.password != ""
  {
    ValidateRules(v);
    if Validate(v) != map[] {
      var k :| k in Validate(v);
    }
  }

  /** The test credentials pass validation. */
  lemma TestCredentialsAreValid(rememberMe: bool)
    ensures Validate(LoginValues("test@example.com", "password", rememberMe)) == map[]
  {
    TestAddressIsEmail();
  }

  /** `handleSubmit`: clear the session error, then log in. */
  method HandleSubmit(auth: Auth.AuthStore, v: LoginValues)
    requires auth.Valid()
    modifies auth
    ensures auth.Valid()
    ensures auth.state == Auth.LoginSequence(old(auth.state).(error := None), v.email, v.password)
  {
    auth.ClearError();
    auth.Login(v.email, v.password);
  }
}
