/** The validation and submission of src/components/auth/RegisterForm.tsx. */
module RegisterForm {
  import opened Wrappers
  import opened Email
  import Auth

  datatype RegisterValues = RegisterValues(
    name: string,
    email: string,
    password: string,
    confirmPassword: string,
    agreeToTerms: bool)

  const InitialValues := RegisterValues("", "", "", "", false)

  const Fields: set<string> := {"name", "email", "password", "confirmPassword", "agreeToTerms"}

  const NameRequired := "Name is required"
  const PasswordRequired := "Password is required"
  const PasswordTooShort := "Password must be at least 8 characters"
  const ConfirmRequired := "Please confirm your password"
  const PasswordsDiffer := "Passwords do not match"
  const TermsRequired := "You must agree to the terms and conditions"

  function NameError(v: RegisterValues): Option<string> {
    if v.name == "" then Some(NameRequired) else None
  }

  function PasswordError(v: RegisterValues): Option<string> {
    if v.password == "" then Some(PasswordRequired)
    else if |v.password| < 8 then Some(PasswordTooShort)
    else None
  }

  function ConfirmError(v: RegisterValues): Option<string> {
    if v.confirmPassword == "" then Some(ConfirmRequired)
    else if v.password != v.confirmPassword then Some(PasswordsDiffer)
    else None
  }

  function TermsError(v: RegisterValues): Option<string> {
    if !v.agreeToTerms then Some(TermsRequired) else None
  }

  /** `validate`: one message per failing field, in the source's order. */
  function Validate(v: RegisterValues): map<string, string> {
    var e := Put(map[], "name", NameError(v));
    var e := Put(e, "email", EmailFieldError(v.email));
    var e := Put(e, "password", PasswordError(v));
    var e := Put(e, "confirmPassword", ConfirmError(v));
    Put(e, "agreeToTerms", TermsError(v))
  }

  /** Every rule, with its message, and nothing else. */
  lemma ValidateRules(v: RegisterValues)
    ensures var e := Validate(v);
      && e.Keys <= Fields
      && ("name" in e <==> v.name == "") && ("name" in e ==> e["name"] == NameRequired)
      && ("email" in e <==> !IsEmail(v.email))
      && (v.email == "" ==> e["email"] == EmailRequired)
      && (v.email != "" && !IsEmail(v.email) ==> e["email"] == InvalidEmail)
      && ("password" in e <==> |v.password| < 8)
      && (v.password == "" ==> e["password"] == PasswordRequired)
      && (v.password != "" && |v.password| < 8 ==> e["password"] == PasswordTooShort)
      && ("confirmPassword" in e <==> v.confirmPassword == "" || v.password != v.confirmPassword)
      && (v.confirmPassword == "" ==> e["confirmPassword"] == ConfirmRequired)
      && (v.confirmPassword != "" && v.password != v.confirmPassword ==> e["confirmPassword"] == PasswordsDiffer)
      && ("agreeToTerms" in e <==> !v.agreeToTerms) && ("agreeToTerms" in e ==> e["agreeToTerms"] == TermsRequired)
  {
    ValidateFields(v);
  }

  /** Each key holds its own rule's message, when there is one. */
  lemma ValidateFields(v: RegisterValues)
    ensures var e := Validate(v);
      && e.Keys <= Fields
      && ("name" in e <==> NameError(v).Some?) && ("name" in e ==> e["name"] == NameError(v).value)
      && ("email" in e <==> EmailFieldError(v.email).Some?) && ("email" in e ==> e["email"] == EmailFieldError(v.email).value)
      && ("password" in e <==> PasswordError(v).Some?) && ("password" in e ==> e["password"] == PasswordError(v).value)
      && ("confirmPassword" in e <==> ConfirmError(v).Some?)
      && ("confirmPassword" in e ==> e["confirmPassword"] == ConfirmError(v).value)
      && ("agreeToTerms" in e <==> TermsError(v).Some?) && ("agreeToTerms" in e ==> e["agreeToTerms"] == TermsError(v).value)
  {
  }

  /** The result is empty exactly when every rule passes. */
  lemma ValidateEmptyIffValid(v: RegisterValues)
    ensures Validate(v) == map[] <==>
      && v.name != "" && IsEmail(v.email) && |v.password| >= 8
      && v.confirmPassword == v.password && v.agreeToTerms
  {
    ValidateRules(v);
    if Validate(v) != map[] {
      var k :| k in Validate(v);
    }
  }

  /** The untouched form fails every rule. */
  lemma InitialValuesFailEveryRule()
    ensures Validate(InitialValues).Keys == Fields
  {
    ValidateRules(InitialValues);
  }

  /** `handleSubmit`: clear the session error, then register. */
  method HandleSubmit(auth: Auth.AuthStore, v: RegisterValues)
    requires auth.Valid()
    modifies auth
    ensures auth.Valid()
    ensures auth.state == Auth.RegisterSequence(old(auth.state).(error := None), v.name, v.email, v.password)
  {
    auth.ClearError();
    auth.Register(v.name, v.email, v.password);
  }
}
