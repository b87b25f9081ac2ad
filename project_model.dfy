/** The project schema: required and trimmed fields, the status and
    priority enumerations with their defaults, the default due date, and the
    pre-save hook that keeps `memberCount` in step with `members`. */
module ProjectModel {
  import opened Api
  import Strings

  const Statuses: seq<string> := ["not started", "in progress", "completed", "on hold"]
  const DefaultStatus: string := "not started"
  const Priorities: seq<string> := ["low", "medium", "high", "critical"]
  const DefaultPriority: string := "medium"
  /** Thirty days in milliseconds. */
  const DueDateOffset: int := 30 * 24 * 60 * 60 * 1000

  /** A project document; times are milliseconds since the epoch, user ids
      are account ids. */
  datatype Project = Project(
    name: string,
    description: string,
    createdBy: nat,
    members: seq<nat>,
    memberCount: int,
    dueDate: int,
    status: string,
    priority: string)

  /** What Mongoose's validation accepts: `name` and `description` present
      and non-empty (a required string rejects `""`), `name` already trimmed
      by its setter, and `status` and `priority` inside their enumerations. */
  predicate SchemaValid(p: Project) {
    && p.name != "" && p.name == Strings.Trim(p.name)
    && p.description != ""
    && p.status in Statuses
    && p.priority in Priorities
  }

  /** The document `Project.create({ name, description, createdBy })` builds
      before validation: `name` passes through the trim setter and every
      other field takes its default. */
  function NewProject(name: string, description: string, createdBy: nat, now: int): Project {
    Project(Strings.Trim(name), description, createdBy, [], 0, now + DueDateOffset, DefaultStatus, DefaultPriority)
  }

  /** A created project has no members, its due date thirty days after
      `now`, status "not started" and priority "medium", both inside their
      enumerations. */
  lemma NewProjectDefaults(name: string, description: string, createdBy: nat, now: int)
    ensures var p := NewProject(name, description, createdBy, now);
      && p.members == [] && p.memberCount == 0
      && p.dueDate == now + 2592000000
      && p.status == "not started" && p.status in Statuses
      && p.priority == "medium" && p.priority in Priorities
      && p.createdBy == createdBy
  {
    assert Statuses[0] == DefaultStatus;
    assert Priorities[1] == DefaultPriority;
  }

  /** A created project passes validation exactly when its trimmed name and
      its description are non-empty. */
  lemma NewProjectValidIff(name: string, description: string, createdBy: nat, now: int)
    ensures SchemaValid(NewProject(name, description, createdBy, now)) <==> Strings.Trim(name) != "" && description != ""
  {
    NewProjectDefaults(name, description, createdBy, now);
    Strings.TrimIdempotent(name);
  }

  /** `Project.create`: validation, then the save hook. A document that
      fails validation is not stored and the call throws. */
  function Create(name: string, description: string, createdBy: nat, now: int): (r: Result<Project>)
    ensures r.Ok? <==> Strings.Trim(name) != "" && description != ""
    ensures r.Ok? ==> SchemaValid(r.value) && r.value.memberCount == |r.value.members|
    ensures r.Ok? ==> r.value.name == Strings.Trim(name) && r.value.createdBy == createdBy
    ensures r.Err? ==> r.failure == RuntimeError("ValidationError", "Project validation failed")
  {
    NewProjectValidIff(name, description, createdBy, now);
    var p := NewProject(name, description, createdBy, now);
    if SchemaValid(p) then Ok(p.(memberCount := |p.members|))
    else Err(RuntimeError("ValidationError", "Project validation failed"))
  }

  /** A project document whose save hook runs in place. */
  class ProjectDocument {
    var members: seq<nat>
    var memberCount: int

    constructor (members: seq<nat>, memberCount: int)
      ensures this.members == members && this.memberCount == memberCount
    {
      this.members := members;
      this.memberCount := memberCount;
    }

    /** The pre-save hook: after it, `memberCount` equals the number of
        members, and the members are untouched. */
    method PreSave()
      modifies this`memberCount
      ensures memberCount == |members|
    {
      memberCount := |members|;
    }
  }
}
