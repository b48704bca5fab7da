/** The user-auth service: one mutable session cell, replaced wholesale by a
    successful login, and the lazily created shared instance. */
module Auth {
  import opened Session

  class UserAuthService {
    var userToken: UserToken

    /** A new service is anonymous. */
    constructor ()
      ensures userToken == Anonymous
    {
      userToken := Anonymous;
    }

    /** The auth options of the held session: `"Bearer " + token` and its user id. */
    function GetAuthOpts(): (o: AuthOpts)
      reads this
      ensures o.authorization == BearerPrefix + userToken.token && o.userId == userToken.userId
    {
      AuthOptsOf(userToken)
    }

    /** Logs in and, only once the login has resolved, stores its token. A
        rejected login rejects with the same status and a login that never
        settles leaves the call pending; both keep the old session. */
    method GetToken(name: string, email: string, password: string, endpoint: LoginRequest -> LoginReply)
      returns (r: Settlement<()>)
      modifies this
      ensures var login := SendLoginData(name, email, password, endpoint);
        && (r.Resolved? <==> login.Resolved?)
        && (r.Rejected? <==> login.Rejected?)
        && (r.Rejected? ==> r.status == login.status)
        && userToken == if login.Resolved? then login.value else old(userToken)
    {
      var login := SendLoginData(name, email, password, endpoint);
      match login {
        case Resolved(t) =>
          userToken := t;
          r := Resolved(());
        case Rejected(status) =>
          r := Rejected(status);
        case Unsettled =>
          r := Unsettled;
      }
    }
  }

  /** The module-level variable behind `getUserAuth`. */
  class UserAuthCell {
    var userAuth: UserAuthService?

    constructor ()
      ensures userAuth == null
    {
      userAuth := null;
    }

    /** Creates the service on first use and returns the same one afterwards. */
    method GetUserAuth() returns (s: UserAuthService)
      modifies this
      ensures old(userAuth) == null ==> fresh(s) && s.userToken == Anonymous
      ensures old(userAuth) != null ==> s == old(userAuth)
      ensures userAuth == s
    {
      if userAuth == null {
        userAuth := new UserAuthService();
      }
      s := userAuth;
    }
  }

  /** Two calls of the accessor hand out one instance. */
  method SameInstanceEveryCall(cell: UserAuthCell) returns (first: UserAuthService, second: UserAuthService)
    modifies cell
    ensures first == second
    ensures cell.userAuth == first
  {
    first := cell.GetUserAuth();
    second := cell.GetUserAuth();
  }

  /** A successful login is visible in the next auth options; a rejected one
      leaves them as they were. */
  method LoginThenAuthOpts(service: UserAuthService, request: LoginRequest, endpoint: LoginRequest -> LoginReply)
    returns (before: AuthOpts, after: AuthOpts)
    modifies service
    ensures var login := SendLoginData(request.name, request.email, request.password, endpoint);
      && (login.Resolved? ==> after == AuthOpts("Bearer " + login.value.token, login.value.userId))
      && (!login.Resolved? ==> after == before)
  {
    before := service.GetAuthOpts();
    var _ := service.GetToken(request.name, request.email, request.password, endpoint);
    after := service.GetAuthOpts();
  }
}
