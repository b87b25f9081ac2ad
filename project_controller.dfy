/** The project handlers of the top-level server: creating and updating a
    project (unique names), and the three member-management handlers, whose
    role guard rejects every caller. */
module ProjectController {
  import opened Api
  import Seqs
  import Strings
  import ProjectModel
  import AuthGate

  /** No two projects share a name. */
  predicate UniqueNames(ps: seq<ProjectModel.Project>) {
    forall i, j :: 0 <= i < j < |ps| ==> ps[i].name != ps[j].name
  }

  /** `Project.findOne({ name })`; the query value passes through the same
      trim setter as the stored names. */
  function IndexOfName(ps: seq<ProjectModel.Project>, name: string): (r: int)
    ensures -1 <= r < |ps|
    ensures r >= 0 ==> ps[r].name == Strings.Trim(name)
    ensures r == -1 <==> forall j :: 0 <= j < |ps| ==> ps[j].name != Strings.Trim(name)
  {
    var key := Strings.Trim(name);
    Seqs.FirstIndex(ps, (p: ProjectModel.Project) => p.name == key)
  }

  const NameTaken := ApiError(401, "Project already created using this credentials")
  const NoProjectId := ApiError(404, "Project not found")
  const UnknownProject := ApiError(401, "Project not found for update.")
  const DuplicateKey := RuntimeError("MongoServerError", "E11000 duplicate key error")

  datatype Change = Change(projects: seq<ProjectModel.Project>, result: Result<ProjectModel.Project>)

  /** `createProject`: a name already in use gives 401 and changes nothing;
      otherwise the created project, owned by the caller, is appended (or
      creation throws a validation error). */
  function CreateProject(ps: seq<ProjectModel.Project>, name: string, description: string,
                         userId: nat, now: int): (c: Change)
    ensures IndexOfName(ps, name) >= 0 ==> c == Change(ps, Err(NameTaken))
    ensures c.result.Err? ==> c.projects == ps
    ensures c.result.Ok? ==>
      && IndexOfName(ps, name) < 0
      && c.projects == ps + [c.result.value]
      && c.result.value.createdBy == userId
      && c.result.value.name == Strings.Trim(name)
      && ProjectModel.SchemaValid(c.result.value)
    ensures UniqueNames(ps) ==> UniqueNames(c.projects)
  {
    if IndexOfName(ps, name) >= 0 then Change(ps, Err(NameTaken))
    else
      var created := ProjectModel.Create(name, description, userId, now);
      if created.Err? then Change(ps, Err(created.failure))
      else
        AppendFreshName(ps, created.value);
        Change(ps + [created.value], created)
  }

  lemma AppendFreshName(ps: seq<ProjectModel.Project>, p: ProjectModel.Project)
    requires forall j :: 0 <= j < |ps| ==> ps[j].name != p.name
    ensures UniqueNames(ps) ==> UniqueNames(ps + [p])
  {
  }

  /** Another project than `id` already carries `name`. */
  predicate NameUsedElsewhere(ps: seq<ProjectModel.Project>, id: nat, name: string) {
    exists j :: 0 <= j < |ps| && j != id && ps[j].name == name
  }

  /** `updateProject`: no id gives 404 and an unknown id 401; otherwise only
      `name` (trimmed by its setter) and `description` of that project are
      set. The unique index refuses a name another project carries. */
  function UpdateProject(ps: seq<ProjectModel.Project>, projectId: Option<nat>,
                         name: string, description: string): (c: Change)
    ensures projectId.None? ==> c == Change(ps, Err(NoProjectId))
    ensures projectId.Some? && projectId.value >= |ps| ==> c == Change(ps, Err(UnknownProject))
    ensures projectId.Some? && projectId.value < |ps| && NameUsedElsewhere(ps, projectId.value, Strings.Trim(name)) ==>
      c == Change(ps, Err(DuplicateKey))
    ensures c.result.Err? ==> c.projects == ps
    ensures c.result.Ok? <==> projectId.Some? && projectId.value < |ps|
                              && !NameUsedElsewhere(ps, projectId.value, Strings.Trim(name))
    ensures c.result.Ok? ==> var id := projectId.value;
      && |c.projects| == |ps|
      && c.result.value == c.projects[id]
      && c.projects[id] == ps[id].(name := Strings.Trim(name), description := description)
      && forall j :: 0 <= j < |ps| && j != id ==> c.projects[j] == ps[j]
    ensures UniqueNames(ps) ==> UniqueNames(c.projects)
  {
    if projectId.None? then Change(ps, Err(NoProjectId))
    else
      var id := projectId.value;
      if id >= |ps| then Change(ps, Err(UnknownProject))
      else
        var key := Strings.Trim(name);
        if NameUsedElsewhere(ps, id, key) then Change(ps, Err(DuplicateKey))
        else
          var updated := ps[id].(name := key, description := description);
          ReplaceWithFreshName(ps, id, updated);
          Change(ps[id := updated], Ok(updated))
  }

  lemma ReplaceWithFreshName(ps: seq<ProjectModel.Project>, id: nat, p: ProjectModel.Project)
    requires id < |ps| && !NameUsedElsewhere(ps, id, p.name)
    ensures UniqueNames(ps) ==> UniqueNames(ps[id := p])
  {
  }

  /** The guard `user.role !== "admin" || user.role !== "project_admin"`
      (`None` is a user without a role). */
  predicate RoleGuardRejects(role: Option<string>) {
    role != Some("admin") || role != Some("project_admin")
  }

  /** The guard is a tautology: no role is both "admin" and "project_admin". */
  lemma RoleGuardAlwaysRejects(role: Option<string>)
    ensures RoleGuardRejects(role)
  {
    assert "admin" != "project_admin" by {
      assert "admin"[0] != "project_admin"[0];
    }
  }

  const NoUserToAdd := ApiError(400, "User not found for this project.")
  const MayNotAdd := ApiError(403, "You are not authorized to add members to this project")
  const MayNotDelete := ApiError(403, "You are not authorized to delete members from this project")
  const MayNotUpdateRole := ApiError(403, "You are not authorized to update role of this member")
  const NullRole := RuntimeError("TypeError", "Cannot read properties of null (reading 'role')")

  /** `User.findById(id)` over the user collection, reduced to the `role`
      field each user carries; `findById(undefined)` finds nothing. */
  function FindUserRole(userRoles: map<nat, Option<string>>, id: Option<nat>): (r: Option<Option<string>>)
    ensures r.Some? <==> id.Some? && id.value in userRoles
    ensures r.Some? ==> r.value == userRoles[id.value]
  {
    if id.Some? && id.value in userRoles then Some(userRoles[id.value]) else None
  }

  /** The project and membership collections the handlers work on. */
  class ProjectStore {
    var projects: seq<ProjectModel.Project>
    var members: seq<AuthGate.ProjectMember>

    constructor ()
      ensures projects == [] && members == []
    {
      projects := [];
      members := [];
    }

    predicate Valid()
      reads this
    {
      UniqueNames(projects)
    }

    method Create(name: string, description: string, caller: AuthGate.SessionUser, now: int)
      returns (r: Result<ProjectModel.Project>)
      requires Valid()
      modifies this`projects
      ensures Valid()
      ensures Change(projects, r) == CreateProject(old(projects), name, description, caller.id, now)
    {
      var userId := caller.id;
      if IndexOfName(projects, name) >= 0 {
        return Err(NameTaken);
      }
      var created := ProjectModel.Create(name, description, userId, now);
      if created.Err? {
        return created;
      }
      AppendFreshName(projects, created.value);
      projects := projects + [created.value];
      r := created;
    }

    method Update(projectId: Option<nat>, name: string, description: string)
      returns (r: Result<ProjectModel.Project>)
      requires Valid()
      modifies this`projects
      ensures Valid()
      ensures Change(projects, r) == UpdateProject(old(projects), projectId, name, description)
    {
      ghost var spec := UpdateProject(projects, projectId, name, description);
      if projectId.None? {
        return Err(NoProjectId);
      }
      var id := projectId.value;
      if id >= |projects| {
        return Err(UnknownProject);
      }
      var key := Strings.Trim(name);
      if NameUsedElsewhere(projects, id, key) {
        return Err(DuplicateKey);
      }
      var updated := projects[id].(name := key, description := description);
      assert spec == Change(projects[id := updated], Ok(updated));
      ReplaceWithFreshName(projects, id, updated);
      projects := projects[id := updated];
      r := Ok(updated);
    }

    /** `addMemberToProject`. `const { userId } = req.user._id` destructures a
        property the id does not have, so the lookup is `findById(undefined)`,
        which finds nothing: every request ends in 400 and no membership is
        created. Behind it, the guard would reject any user found. */
    method AddMemberToProject(projectId: nat, memberId: nat, caller: AuthGate.SessionUser,
                              userRoles: map<nat, Option<string>>) returns (r: Result<AuthGate.ProjectMember>)
      ensures r == Err(NoUserToAdd)
    {
      var userId: Option<nat> := None;
      var user := FindUserRole(userRoles, userId);
      match user {
        case None =>
          r := Err(NoUserToAdd);
        case Some(role) =>
          RoleGuardAlwaysRejects(role);
          r := Err(MayNotAdd);
      }
    }

    /** `deleteMember`: the caller's own user document is looked up; a
        missing one makes `user.role` throw, and every found one is rejected
        by the guard. No membership is ever deleted. */
    method DeleteMember(memberId: nat, caller: AuthGate.SessionUser, userRoles: map<nat, Option<string>>)
      returns (r: Result<AuthGate.ProjectMember>)
      ensures caller.id in userRoles <==> r == Err(MayNotDelete)
      ensures caller.id !in userRoles <==> r == Err(NullRole)
    {
      var user := FindUserRole(userRoles, Some(caller.id));
      if user.None? {
        return Err(NullRole);
      }
      RoleGuardAlwaysRejects(user.value);
      r := Err(MayNotDelete);
    }

    /** `updateMemberRole`: the same undefined `userId` as in
        `addMemberToProject`, so `user` is `null` and `user.role` throws
        before the guard; the role update is never reached. */
    method UpdateMemberRole(memberId: nat, role: string, caller: AuthGate.SessionUser,
                            userRoles: map<nat, Option<string>>) returns (r: Result<AuthGate.ProjectMember>)
      ensures r == Err(NullRole)
    {
      var userId: Option<nat> := None;
      var user := FindUserRole(userRoles, userId);
      match user {
        case None =>
          r := Err(NullRole);
        case Some(role) =>
          RoleGuardAlwaysRejects(role);
          r := Err(MayNotUpdateRole);
      }
    }
  }
}
