/** The backend's request gates: `isLoggedIn`, which turns the access-token
    cookie into `req.user`, and `validateProjectPermission(roles)`, which
    looks up a project-membership record and admits the request when its
    role is one of `roles`. */
module AuthGate {
  import opened Api
  import Seqs
  import UserController

  /** `req.user`: the user document without `password` and `refreshToken`,
      plus the `role` the permission gate writes onto it. */
  datatype SessionUser = SessionUser(
    id: nat,
    email: string,
    username: string,
    fullname: string,
    isEmailVerified: bool,
    emailVerificationToken: Option<string>,
    emailVerificationExpiry: Option<int>,
    role: Option<string>)

  /** `User.findById(id).select("-password -refreshToken")` on an account. */
  function SessionUserOf(id: nat, a: UserController.Account): (u: SessionUser)
    ensures u.id == id && u.email == a.email && u.username == a.username && u.role.None?
  {
    SessionUser(id, a.email, a.username, a.fullname, a.isEmailVerified,
                a.emailVerificationToken, a.emailVerificationExpiry, None)
  }

  /** How the authentication gate ends: an exception thrown out of the
      middleware (before the `try`), `next(error)` from the `catch`, or
      `next()` with `req.user` set. */
  datatype GateOutcome =
    | Thrown(failure: Failure)
    | Forwarded(failure: Failure)
    | Admitted(user: SessionUser)

  const NoAccessCookie := ApiError(405, "Unauthorized user.")
  const InvalidAccess := ApiError(401, "Invalid or expired access token.")

  /** The access token verifies to the id of an existing account. */
  predicate Resolves(cookie: string, verify: string -> Option<nat>, accounts: seq<UserController.Account>) {
    verify(cookie).Some? && verify(cookie).value < |accounts|
  }

  /** `isLoggedIn`: a falsy cookie is thrown as 405 before any verification;
      a token that does not verify, or names no account, reaches the `catch`
      (the 405 thrown inside the `try` included) and is passed to `next` as
      401; otherwise the account, without its secrets, is admitted. */
  function Authenticate(cookie: Option<string>, verify: string -> Option<nat>,
                        accounts: seq<UserController.Account>): (r: GateOutcome)
    ensures r.Thrown? <==> !Truthy(cookie)
    ensures r.Thrown? ==> r.failure == NoAccessCookie
    ensures r.Admitted? <==> Truthy(cookie) && Resolves(cookie.value, verify, accounts)
    ensures r.Admitted? ==> var id := verify(cookie.value).value;
      r.user == SessionUserOf(id, accounts[id])
    ensures r.Forwarded? ==> r.failure == InvalidAccess
  {
    if !Truthy(cookie) then Thrown(NoAccessCookie)
    else
      var decoded := verify(cookie.value);
      if decoded.None? then Forwarded(InvalidAccess)
      else if decoded.value >= |accounts| then Forwarded(InvalidAccess)
      else Admitted(SessionUserOf(decoded.value, accounts[decoded.value]))
  }

  /** A row of the project-membership collection. */
  datatype ProjectMember = ProjectMember(project: nat, user: nat, role: string)

  /** The `$or` filter of the membership lookup: the record is for the
      project, or it is the caller's. */
  predicate MatchesEither(m: ProjectMember, projectId: nat, userId: nat) {
    m.project == projectId || m.user == userId
  }

  /** `ProjectMember.findOne({ $or: [{ project }, { user }] })`. */
  function IndexOfMembership(members: seq<ProjectMember>, projectId: nat, userId: nat): (r: int)
    ensures -1 <= r < |members|
    ensures r >= 0 ==> MatchesEither(members[r], projectId, userId)
                       && forall j :: 0 <= j < r ==> !MatchesEither(members[j], projectId, userId)
    ensures r == -1 ==> forall j :: 0 <= j < |members| ==> !MatchesEither(members[j], projectId, userId)
  {
    Seqs.FirstIndex(members, (m: ProjectMember) => MatchesEither(m, projectId, userId))
  }

  const NoProjectId := ApiError(404, "Project Not Found")
  const NoMembership := ApiError(401, "Project is invalid")
  const RoleNotAllowed := ApiError(402, "You do not have permission to perform this action.")
  const NoSessionUser := RuntimeError("TypeError", "Cannot read properties of undefined (reading '_id')")

  /** What the permission gate decides: the role it writes to `req.user.role`
      (none when it stops before the write) and whether it calls `next()`. */
  datatype Permission = Permission(assignedRole: Option<string>, result: Result<()>)

  /** `validateProjectPermission(roles)`: no project id gives 404; no
      matching membership gives 401; otherwise the found role is written to
      `req.user.role` and the request passes exactly when the role is listed.
      Without `req.user` the lookup dereferences `undefined`. */
  function CheckPermission(roles: seq<string>, projectId: Option<nat>, user: Option<SessionUser>,
                           members: seq<ProjectMember>): (r: Permission)
    ensures projectId.None? ==> r == Permission(None, Err(NoProjectId))
    ensures projectId.Some? && user.None? ==> r == Permission(None, Err(NoSessionUser))
    ensures projectId.Some? && user.Some? && IndexOfMembership(members, projectId.value, user.value.id) < 0
            ==> r == Permission(None, Err(NoMembership))
    ensures r.assignedRole.Some? <==>
      projectId.Some? && user.Some? && IndexOfMembership(members, projectId.value, user.value.id) >= 0
    ensures r.assignedRole.Some? ==>
      r.assignedRole.value == members[IndexOfMembership(members, projectId.value, user.value.id)].role
    ensures r.result.Ok? <==> r.assignedRole.Some? && r.assignedRole.value in roles
    ensures r.assignedRole.Some? && r.result.Err? ==> r.result.failure == RoleNotAllowed
  {
    if projectId.None? then Permission(None, Err(NoProjectId))
    else if user.None? then Permission(None, Err(NoSessionUser))
    else
      var k := IndexOfMembership(members, projectId.value, user.value.id);
      if k < 0 then Permission(None, Err(NoMembership))
      else
        var givenRole := members[k].role;
        if givenRole in roles then Permission(Some(givenRole), Ok(()))
        else Permission(Some(givenRole), Err(RoleNotAllowed))
  }

  /** With the default `roles = []` every request is refused. */
  lemma DefaultRolesRejectAll(projectId: Option<nat>, user: Option<SessionUser>, members: seq<ProjectMember>)
    ensures CheckPermission([], projectId, user, members).result.Err?
  {
  }

  /** The `$or` lookup admits a caller who is not a member of the project at
      all, on the strength of another user's record for that project. */
  lemma ForeignRecordAdmits(roles: seq<string>, projectId: nat, caller: SessionUser, other: nat, role: string)
    requires other != caller.id && role in roles
    ensures CheckPermission(roles, Some(projectId), Some(caller), [ProjectMember(projectId, other, role)])
            == Permission(Some(role), Ok(()))
  {
  }

  /** It also admits a caller into a project on the strength of the caller's
      own record for a different project. */
  lemma OtherProjectRecordAdmits(roles: seq<string>, projectId: nat, otherProject: nat, caller: SessionUser, role: string)
    requires otherProject != projectId && role in roles
    ensures CheckPermission(roles, Some(projectId), Some(caller), [ProjectMember(otherProject, caller.id, role)])
            == Permission(Some(role), Ok(()))
  {
  }

  /** An incoming request as the gates see it, with every call of `next`
      recorded: `None` for `next()`, `Some(e)` for `next(e)`. */
  class Request {
    var accessToken: Option<string>
    var projectId: Option<nat>
    var user: Option<SessionUser>
    var nextCalls: seq<Option<Failure>>

    constructor (accessToken: Option<string>, projectId: Option<nat>)
      ensures this.accessToken == accessToken && this.projectId == projectId
      ensures user.None? && nextCalls == []
    {
      this.accessToken := accessToken;
      this.projectId := projectId;
      user := None;
      nextCalls := [];
    }

    /** `isLoggedIn`; `thrown` is the exception that escapes the middleware. */
    method IsLoggedIn(verify: string -> Option<nat>, accounts: seq<UserController.Account>)
      returns (thrown: Option<Failure>)
      modifies this`user, this`nextCalls
      ensures match Authenticate(accessToken, verify, accounts)
        case Thrown(f) => thrown == Some(f) && user == old(user) && nextCalls == old(nextCalls)
        case Forwarded(f) => thrown.None? && user == old(user) && nextCalls == old(nextCalls) + [Some(f)]
        case Admitted(u) => thrown.None? && user == Some(u) && nextCalls == old(nextCalls) + [None]
    {
      if !Truthy(accessToken) {
        return Some(NoAccessCookie);
      }
      thrown := None;
      var decoded := verify(accessToken.value);
      if decoded.None? || decoded.value >= |accounts| {
        nextCalls := nextCalls + [Some(InvalidAccess)];
        return;
      }
      user := Some(SessionUserOf(decoded.value, accounts[decoded.value]));
      nextCalls := nextCalls + [None];
    }

    /** `validateProjectPermission(roles)`. */
    method ValidateProjectPermission(roles: seq<string>, members: seq<ProjectMember>)
      returns (thrown: Option<Failure>)
      modifies this`user, this`nextCalls
      ensures var p := CheckPermission(roles, projectId, old(user), members);
        && (if p.assignedRole.Some? then user == Some(old(user).value.(role := p.assignedRole))
            else user == old(user))
        && (if p.result.Ok? then thrown.None? && nextCalls == old(nextCalls) + [None]
            else thrown == Some(p.result.failure) && nextCalls == old(nextCalls))
    {
      if projectId.None? {
        return Some(NoProjectId);
      }
      if user.None? {
        return Some(NoSessionUser);
      }
      var k := IndexOfMembership(members, projectId.value, user.value.id);
      if k < 0 {
        return Some(NoMembership);
      }
      var givenRole := members[k].role;
      user := Some(user.value.(role := Some(givenRole)));
      if givenRole !in roles {
        return Some(RoleNotAllowed);
      }
      thrown := None;
      nextCalls := nextCalls + [None];
    }
  }
}
