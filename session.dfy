/** The session record and the login exchange. Both services of the client
    (the relay client and the user-auth service) declare byte-for-byte the
    same `UserToken`, `AuthOpts`, auth-header derivation and login-response
    handling; the model defines each once and both classes use it. */
module Session {
  import opened Wrappers

  /** The identity presented to the relay. A fresh token is anonymous. */
  datatype UserToken = UserToken(userId: int, token: string)

  const Anonymous: UserToken := UserToken(0, "")

  /** The options merged into every request sent to the relay. */
  datatype AuthOpts = AuthOpts(authorization: string, userId: int)

  const BearerPrefix: string := "Bearer "

  /** The auth options derived from a session. They are never empty: an
      anonymous session yields `"Bearer "` and user id 0. */
  function AuthOptsOf(t: UserToken): (o: AuthOpts)
    ensures |o.authorization| == |BearerPrefix| + |t.token|
    ensures o.authorization[..|BearerPrefix|] == BearerPrefix
    ensures o.authorization[|BearerPrefix|..] == t.token
    ensures o.userId == t.userId
  {
    AuthOpts(BearerPrefix + t.token, t.userId)
  }

  /** Reads a session back from auth options, if they carry the bearer prefix. */
  function SessionOf(o: AuthOpts): (t: Option<UserToken>)
    ensures t.Some? <==> |o.authorization| >= |BearerPrefix| && o.authorization[..|BearerPrefix|] == BearerPrefix
    ensures t.Some? ==> t.value.userId == o.userId && BearerPrefix + t.value.token == o.authorization
  {
    if |o.authorization| >= |BearerPrefix| && o.authorization[..|BearerPrefix|] == BearerPrefix then
      Some(UserToken(o.userId, o.authorization[|BearerPrefix|..]))
    else
      None
  }

  /** No session information is lost in the auth options. */
  lemma AuthOptsRoundTrip(t: UserToken)
    ensures SessionOf(AuthOptsOf(t)) == Some(t)
  {
  }

  /** Two sessions give the same auth options only if they are the same. */
  lemma AuthOptsInjective(t1: UserToken, t2: UserToken)
    ensures AuthOptsOf(t1) == AuthOptsOf(t2) ==> t1 == t2
  {
    AuthOptsRoundTrip(t1);
    AuthOptsRoundTrip(t2);
  }

  /** The anonymous session still produces a populated header. */
  lemma AnonymousAuthOpts()
    ensures AuthOptsOf(Anonymous) == AuthOpts("Bearer ", 0)
  {
  }

  /** The JSON body posted to the login endpoint. */
  datatype LoginRequest = LoginRequest(name: string, email: string, password: string)

  /** The fields read from a parsed login answer. */
  datatype LoginBody = LoginBody(userId: int, token: string)

  /** What the browser reports for the login POST: the `load` event with its
      status and the body (`None` when it is not valid JSON), or no `load`
      event at all (a network error, for which no handler is installed). */
  datatype LoginReply = Loaded(status: int, body: Option<LoginBody>) | NoLoad

  /** The fate of a promise: resolved with a value, rejected with an HTTP
      status, or never settled. */
  datatype Settlement<T> = Resolved(value: T) | Rejected(status: int) | Unsettled

  /** The promise returned by `sendLoginData` for the answer `endpoint` gives
      to the credentials. Status 200 resolves with the token of the parsed
      body; any other status rejects with the status itself; a 200 whose body
      does not parse throws inside the load handler and, like a request that
      never loads, leaves the promise pending. */
  function SendLoginData(name: string, email: string, password: string,
                         endpoint: LoginRequest -> LoginReply): (o: Settlement<UserToken>)
    ensures var reply := endpoint(LoginRequest(name, email, password));
      && (o.Resolved? <==> reply.Loaded? && reply.status == 200 && reply.body.Some?)
      && (o.Resolved? ==> o.value == UserToken(reply.body.value.userId, reply.body.value.token))
      && (o.Rejected? <==> reply.Loaded? && reply.status != 200)
      && (o.Rejected? ==> o.status == reply.status)
  {
    match endpoint(LoginRequest(name, email, password))
    case NoLoad => Unsettled
    case Loaded(status, body) =>
      if status == 200 then
        match body
        case Some(b) => Resolved(UserToken(b.userId, b.token))
        case None => Unsettled
      else
        Rejected(status)
  }
}
