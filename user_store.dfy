/** The `user` reducer of the application store: a total transition function
    over the user state record. */
module UserStore {
  import opened Wrappers

  datatype UserState = UserState(token: string, email: string, userId: int, password: string,
                                 name: string, loginError: string, signupSuccess: bool)

  const InitialUserState: UserState := UserState("", "", 0, "", "", "", false)

  /** The fields of a login-credentials payload; a field it does not carry is `None`. */
  datatype Credentials = Credentials(token: Option<string>, email: Option<string>, userId: Option<int>,
                                     password: Option<string>, name: Option<string>,
                                     loginError: Option<string>, signupSuccess: Option<bool>)

  datatype UserAction =
    | SetLoginCredentials(payload: Credentials)
    | LoginError(message: string)
    | Logout
    | Signup
    | Other(actionType: string)

  /** The names of the state's fields. */
  datatype Field = Token | Email | UserId | Password | Name | LoginErrorField | SignupSuccess

  /** Whether two states differ on field `f`. */
  predicate Differs(a: UserState, b: UserState, f: Field)
  {
    match f
    case Token => a.token != b.token
    case Email => a.email != b.email
    case UserId => a.userId != b.userId
    case Password => a.password != b.password
    case Name => a.name != b.name
    case LoginErrorField => a.loginError != b.loginError
    case SignupSuccess => a.signupSuccess != b.signupSuccess
  }

  /** `Field` names every field: states that differ on none are equal. */
  lemma FieldsComplete(a: UserState, b: UserState)
    requires forall f :: !Differs(a, b, f)
    ensures a == b
  {
    assert !Differs(a, b, Token) && !Differs(a, b, Email) && !Differs(a, b, UserId) && !Differs(a, b, Password);
    assert !Differs(a, b, Name) && !Differs(a, b, LoginErrorField) && !Differs(a, b, SignupSuccess);
  }

  /** The fields a payload carries. */
  function Carried(c: Credentials): set<Field>
  {
    (if c.token.Some? then {Token} else {})
    + (if c.email.Some? then {Email} else {})
    + (if c.userId.Some? then {UserId} else {})
    + (if c.password.Some? then {Password} else {})
    + (if c.name.Some? then {Name} else {})
    + (if c.loginError.Some? then {LoginErrorField} else {})
    + (if c.signupSuccess.Some? then {SignupSuccess} else {})
  }

  /** The fields an action may change. */
  function Touched(action: UserAction): set<Field>
  {
    match action
    case SetLoginCredentials(payload) => Carried(payload)
    case LoginError(_) => {LoginErrorField}
    case Logout => {Token, UserId}
    case Signup => {SignupSuccess}
    case Other(_) => {}
  }

  /** `{...state, ...payload}`: the payload's fields win. */
  function Spread(state: UserState, payload: Credentials): UserState
  {
    UserState(payload.token.GetOr(state.token), payload.email.GetOr(state.email),
              payload.userId.GetOr(state.userId), payload.password.GetOr(state.password),
              payload.name.GetOr(state.name), payload.loginError.GetOr(state.loginError),
              payload.signupSuccess.GetOr(state.signupSuccess))
  }

  /** The reducer; a missing state (the store's first call) is the initial one.
      An action changes only the fields it touches, and each touched field
      gets the value the action names. */
  function User(state: Option<UserState>, action: UserAction): (r: UserState)
    ensures forall f :: Differs(state.GetOr(InitialUserState), r, f) ==> f in Touched(action)
    ensures action.Logout? ==> r.token == "" && r.userId == 0
    ensures action.LoginError? ==> r.loginError == action.message
    ensures action.Signup? ==> r.signupSuccess
    ensures action.SetLoginCredentials? ==> var p := action.payload;
      && (p.token.Some? ==> r.token == p.token.value)
      && (p.email.Some? ==> r.email == p.email.value)
      && (p.userId.Some? ==> r.userId == p.userId.value)
      && (p.password.Some? ==> r.password == p.password.value)
      && (p.name.Some? ==> r.name == p.name.value)
      && (p.loginError.Some? ==> r.loginError == p.loginError.value)
      && (p.signupSuccess.Some? ==> r.signupSuccess == p.signupSuccess.value)
  {
    var s := state.GetOr(InitialUserState);
    match action
    case SetLoginCredentials(payload) => Spread(s, payload)
    case LoginError(message) => s.(loginError := message)
    case Logout => s.(token := "", userId := 0)
    case Signup => s.(signupSuccess := true)
    case Other(_) => s
  }

  /** The initial state is logged out, error-free and not signed up, with
      empty credentials. */
  lemma InitialStateIsAnonymous()
    ensures User(None, Other("")) == InitialUserState
    ensures InitialUserState.token == "" && InitialUserState.userId == 0
    ensures InitialUserState.loginError == "" && !InitialUserState.signupSuccess
    ensures InitialUserState.email == "" && InitialUserState.password == "" && InitialUserState.name == ""
  {
  }

  /** Logging out twice is logging out once. */
  lemma LogoutIdempotent(state: UserState)
    ensures User(Some(User(Some(state), Logout)), Logout) == User(Some(state), Logout)
  {
  }

  /** Setting credentials with an empty payload changes nothing, and setting
      them twice is setting them once. */
  lemma SetLoginCredentialsIdempotent(state: UserState, payload: Credentials)
    ensures User(Some(User(Some(state), SetLoginCredentials(payload))), SetLoginCredentials(payload))
         == User(Some(state), SetLoginCredentials(payload))
    ensures User(Some(state), SetLoginCredentials(Credentials(None, None, None, None, None, None, None))) == state
  {
  }

  /** Actions the reducer does not handle leave the state as it is. */
  lemma OtherActionsKeepState(state: UserState, actionType: string)
    ensures User(Some(state), Other(actionType)) == state
  {
  }
}
