/** The session store of src/context/AuthContext.tsx: the reducer, the mock
    credential checks and the `login`/`register`/`logout` operations. */
module Auth {
  import opened Wrappers
  import opened Types

  datatype AuthState = AuthState(
    user: Option<User>,
    isAuthenticated: bool,
    isLoading: bool,
    error: Option<string>)

  datatype Action =
    | LoginStart
    | LoginSuccess(loggedIn: User)
    | LoginFailure(loginError: string)
    | RegisterStart
    | RegisterSuccess(registered: User)
    | RegisterFailure(registerError: string)
    | Logout
    | ResetError

  const Initial := AuthState(None, false, false, None)

  /** `authReducer`. */
  function Step(s: AuthState, a: Action): AuthState {
    match a
    case LoginStart => s.(isLoading := true, error := None)
    case RegisterStart => s.(isLoading := true, error := None)
    case LoginSuccess(u) => s.(user := Some(u), isAuthenticated := true, isLoading := false, error := None)
    case RegisterSuccess(u) => s.(user := Some(u), isAuthenticated := true, isLoading := false, error := None)
    case LoginFailure(m) => s.(isLoading := false, error := Some(m))
    case RegisterFailure(m) => s.(isLoading := false, error := Some(m))
    case Logout => Initial
    case ResetError => s.(error := None)
  }

  function Run(s: AuthState, actions: seq<Action>): AuthState
    decreases |actions|
  {
    if actions == [] then s else Run(Step(s, actions[0]), actions[1..])
  }

  /** The store invariant: signed in exactly when a user is held. */
  predicate Consistent(s: AuthState) {
    s.isAuthenticated == s.user.Some?
  }

  lemma InitialIsConsistent()
    ensures Consistent(Initial) && !Initial.isAuthenticated && !Initial.isLoading && Initial.error.None?
  {
  }

  lemma StepKeepsConsistent(s: AuthState, a: Action)
    requires Consistent(s)
    ensures Consistent(Step(s, a))
  {
  }

  lemma {:induction false} RunKeepsConsistent(s: AuthState, actions: seq<Action>)
    requires Consistent(s)
    ensures Consistent(Run(s, actions))
    decreases |actions|
  {
    if actions != [] {
      StepKeepsConsistent(s, actions[0]);
      RunKeepsConsistent(Step(s, actions[0]), actions[1..]);
    }
  }

  lemma StartEffect(s: AuthState, a: Action)
    requires a.LoginStart? || a.RegisterStart?
    ensures Step(s, a) == s.(isLoading := true, error := None)
  {
  }

  lemma SuccessEffect(s: AuthState, a: Action)
    requires a.LoginSuccess? || a.RegisterSuccess?
    ensures var u := if a.LoginSuccess? then a.loggedIn else a.registered;
      Step(s, a) == AuthState(Some(u), true, false, None)
  {
  }

  /** A failure keeps the user, so a failed login while signed in stays signed in. */
  lemma FailureEffect(s: AuthState, a: Action)
    requires a.LoginFailure? || a.RegisterFailure?
    ensures var m := if a.LoginFailure? then a.loginError else a.registerError;
      Step(s, a) == s.(isLoading := false, error := Some(m))
    ensures Step(s, a).user == s.user && Step(s, a).isAuthenticated == s.isAuthenticated
  {
  }

  lemma LogoutAndResetEffect(s: AuthState)
    ensures Step(s, Logout) == Initial
    ensures Step(s, ResetError) == s.(error := None)
  {
  }

  // ---------------------------------------------------------------------
  // The mock authentication service

  const InvalidCredentials := "Invalid credentials"
  const RegistrationFailed := "Registration failed"
  const AvatarUrl := "https://images.unsplash.com/photo-1633332755192-727a05c4013d?auto=format&fit=crop&w=100&h=100"

  /** `mockLogin`. */
  function MockLogin(email: string, password: string): Result<User, string> {
    if email == "test@example.com" && password == "password" then
      Success(User("1", "test@example.com", "Test User", Some(AvatarUrl)))
    else Failure(InvalidCredentials)
  }

  /** `mockRegister`: every argument must be non-empty (truthy). */
  function MockRegister(name: string, email: string, password: string): Result<User, string> {
    if email != "" && password != "" && name != "" then
      Success(User("2", email, name, Some(AvatarUrl)))
    else Failure(RegistrationFailed)
  }

  lemma MockLoginContract(email: string, password: string)
    ensures MockLogin(email, password).Success? <==> (email == "test@example.com" && password == "password")
    ensures MockLogin(email, password).Success? ==>
      MockLogin(email, password).value.id == "1" && MockLogin(email, password).value.name == "Test User"
      && MockLogin(email, password).value.email == email
    ensures MockLogin(email, password).Failure? ==> MockLogin(email, password).error == InvalidCredentials
  {
  }

  lemma MockRegisterContract(name: string, email: string, password: string)
    ensures MockRegister(name, email, password).Success? <==> (name != "" && email != "" && password != "")
    ensures MockRegister(name, email, password).Success? ==>
      MockRegister(name, email, password).value.id == "2"
      && MockRegister(name, email, password).value.name == name
      && MockRegister(name, email, password).value.email == email
    ensures MockRegister(name, email, password).Failure? ==>
      MockRegister(name, email, password).error == RegistrationFailed
  {
  }

  /** `login` as dispatches: start, then success or failure from the service. */
  function LoginSequence(s: AuthState, email: string, password: string): AuthState {
    var started := Step(s, LoginStart);
    match MockLogin(email, password)
    case Success(u) => Step(started, LoginSuccess(u))
    case Failure(m) => Step(started, LoginFailure(m))
  }

  function RegisterSequence(s: AuthState, name: string, email: string, password: string): AuthState {
    var started := Step(s, RegisterStart);
    match MockRegister(name, email, password)
    case Success(u) => Step(started, RegisterSuccess(u))
    case Failure(m) => Step(started, RegisterFailure(m))
  }

  /** `login` never throws: it ends not loading, signed in as the test user
      exactly for the test credentials, and otherwise with the error and the
      previous session. */
  lemma LoginSequenceEnds(s: AuthState, email: string, password: string)
    requires Consistent(s)
    ensures var t := LoginSequence(s, email, password);
      && !t.isLoading && Consistent(t)
      && (email == "test@example.com" && password == "password" ==>
            t.isAuthenticated && t.user.Some? && t.user.value.name == "Test User" && t.error.None?)
      && (!(email == "test@example.com" && password == "password") ==>
            t.error == Some(InvalidCredentials) && t.user == s.user)
  {
  }

  lemma RegisterSequenceEnds(s: AuthState, name: string, email: string, password: string)
    requires Consistent(s)
    ensures var t := RegisterSequence(s, name, email, password);
      && !t.isLoading && Consistent(t)
      && (name != "" && email != "" && password != "" ==>
            t.user == Some(User("2", email, name, Some(AvatarUrl))) && t.isAuthenticated && t.error.None?)
      && (!(name != "" && email != "" && password != "") ==>
            t.error == Some(RegistrationFailed) && t.user == s.user)
  {
  }

  /** The provider. Cookie and localStorage writes are not modelled. */
  class AuthStore {
    var state: AuthState

    ghost predicate Valid()
      reads this
    {
      Consistent(state)
    }

    constructor ()
      ensures Valid() && state == Initial
    {
      state := Initial;
    }

    method Dispatch(a: Action)
      requires Valid()
      modifies this
      ensures Valid() && state == Step(old(state), a)
    {
      StepKeepsConsistent(state, a);
      state := Step(state, a);
    }

    /** The start-up check: `stored` is the user read back when both the token
        and a parseable user record are present. */
    method Rehydrate(stored: Option<User>)
      requires Valid()
      modifies this
      ensures Valid()
      ensures state == if stored.Some? then Step(old(state), LoginSuccess(stored.value)) else old(state)
    {
      if stored.Some? {
        Dispatch(LoginSuccess(stored.value));
      }
    }

    method Login(email: string, password: string)
      requires Valid()
      modifies this
      ensures Valid() && state == LoginSequence(old(state), email, password)
      ensures !state.isLoading
    {
      Dispatch(LoginStart);
      var r := MockLogin(email, password);
      match r
      case Success(u) => Dispatch(LoginSuccess(u));
      case Failure(m) => Dispatch(LoginFailure(m));
    }

    method Register(name: string, email: string, password: string)
      requires Valid()
      modifies this
      ensures Valid() && state == RegisterSequence(old(state), name, email, password)
      ensures !state.isLoading
    {
      Dispatch(RegisterStart);
      var r := MockRegister(name, email, password);
      match r
      case Success(u) => Dispatch(RegisterSuccess(u));
      case Failure(m) => Dispatch(RegisterFailure(m));
    }

    method SignOut()
      requires Valid()
      modifies this
      ensures Valid() && state == Initial
    {
      Dispatch(Logout);
    }

    method ClearError()
      requires Valid()
      modifies this
      ensures Valid() && state == old(state).(error := None)
    {
      Dispatch(ResetError);
    }
  }
}
