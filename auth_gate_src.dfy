/** The second copy of the authentication gate, in the top-level server
    tree. It is the backend's gate without the logging of the caught error. */
module AuthGateSrc {
  import opened Api
  import UserController
  import AuthGate

  /** `isLoggedIn` of the top-level tree: a falsy cookie is thrown as 405; a
      token that does not verify or names no account is passed to `next` as
      401; otherwise the account without its secrets is admitted. */
  function Authenticate(cookie: Option<string>, verify: string -> Option<nat>,
                        accounts: seq<UserController.Account>): (r: AuthGate.GateOutcome)
    ensures r == AuthGate.Thrown(AuthGate.NoAccessCookie) <==> !Truthy(cookie)
    ensures r.Forwarded? <==> Truthy(cookie) && !AuthGate.Resolves(cookie.value, verify, accounts)
    ensures r.Forwarded? ==> r.failure == AuthGate.InvalidAccess
    ensures r.Admitted? ==> r.user.id == verify(cookie.value).value && r.user.id < |accounts|
  {
    if !Truthy(cookie) then AuthGate.Thrown(AuthGate.NoAccessCookie)
    else match verify(cookie.value)
      case None => AuthGate.Forwarded(AuthGate.InvalidAccess)
      case Some(id) =>
        if id < |accounts| then AuthGate.Admitted(AuthGate.SessionUserOf(id, accounts[id]))
        else AuthGate.Forwarded(AuthGate.InvalidAccess)
  }

  /** For every request the two copies of the gate end the same way. */
  lemma SameAsBackendGate(cookie: Option<string>, verify: string -> Option<nat>,
                          accounts: seq<UserController.Account>)
    ensures Authenticate(cookie, verify, accounts) == AuthGate.Authenticate(cookie, verify, accounts)
  {
  }

  /** The top-level `isLoggedIn` acting on a request. */
  method IsLoggedIn(req: AuthGate.Request, verify: string -> Option<nat>, accounts: seq<UserController.Account>)
    returns (thrown: Option<Failure>)
    modifies req`user, req`nextCalls
    ensures match Authenticate(req.accessToken, verify, accounts)
      case Thrown(f) => thrown == Some(f) && req.user == old(req.user) && req.nextCalls == old(req.nextCalls)
      case Forwarded(f) => thrown.None? && req.user == old(req.user) && req.nextCalls == old(req.nextCalls) + [Some(f)]
      case Admitted(u) => thrown.None? && req.user == Some(u) && req.nextCalls == old(req.nextCalls) + [None]
  {
    if !Truthy(req.accessToken) {
      return Some(AuthGate.NoAccessCookie);
    }
    thrown := None;
    var decoded := verify(req.accessToken.value);
    if decoded.Some? && decoded.value < |accounts| {
      req.user := Some(AuthGate.SessionUserOf(decoded.value, accounts[decoded.value]));
      req.nextCalls := req.nextCalls + [None];
    } else {
      req.nextCalls := req.nextCalls + [Some(AuthGate.InvalidAccess)];
    }
  }
}
