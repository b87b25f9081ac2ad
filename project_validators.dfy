/** The project validators of the backend tree: project creation and the
    member-role update. `AvailableUserRoles` comes from a constants file that
    is not part of this model, so it is a parameter. */
module ProjectValidators {
  import Strings
  import opened ValidationChain

  const NameChain := FieldChain("name", true, [
    Check(NotEmpty, "Project name is required.")])

  const DescriptionChain := FieldChain("description", false, [
    Check(NotEmpty, "Project description is required."),
    Check(MinLength(3), "Project description must be at least 3 characters long!"),
    Check(MaxLength(220), "Project description must be at most 220 characters long!")])

  function RoleChain(availableUserRoles: seq<string>): FieldChain {
    FieldChain("role", true, [Check(IsIn(availableUserRoles), "Role must be project_admin or member !")])
  }

  /** `projectCreateValidator()`. */
  const ProjectCreateValidator: seq<FieldChain> := [NameChain, DescriptionChain]

  /** A name passes exactly when it is non-empty after trimming. */
  lemma NameRule(v: string, isEmail: string -> bool)
    ensures Run(NameChain, v, isEmail) == [] <==> Strings.Trim(v) != ""
    ensures Strings.Trim(v) == "" ==> Run(NameChain, v, isEmail) == [FieldError("name", "Project name is required.")]
  {
    FailuresOfOne("name", NameChain.checks[0], Strings.Trim(v), isEmail);
  }

  /** A description passes exactly when its untrimmed length is 3 to 220. */
  lemma DescriptionRule(v: string, isEmail: string -> bool)
    ensures Run(DescriptionChain, v, isEmail) == [] <==> 3 <= CountedLength(v) <= 220
  {
    FailuresOfThree("description", DescriptionChain.checks[0], DescriptionChain.checks[1],
                    DescriptionChain.checks[2], v, isEmail);
  }

  /** Each failing rule reports its own message: an empty description both
      the required and the minimum rule, a short one the minimum only, a long
      one the maximum only. */
  lemma DescriptionMessages(v: string, isEmail: string -> bool)
    ensures v == "" ==>
      (Run(DescriptionChain, v, isEmail) ==
       [FieldError("description", "Project description is required."),
        FieldError("description", "Project description must be at least 3 characters long!")])
    ensures v != "" && CountedLength(v) < 3 ==>
      (Run(DescriptionChain, v, isEmail) ==
       [FieldError("description", "Project description must be at least 3 characters long!")])
    ensures CountedLength(v) > 220 ==>
      (Run(DescriptionChain, v, isEmail) ==
       [FieldError("description", "Project description must be at most 220 characters long!")])
  {
    FailuresOfThree("description", DescriptionChain.checks[0], DescriptionChain.checks[1],
                    DescriptionChain.checks[2], v, isEmail);
  }

  /** The bounds are inclusive: lengths 3 and 220 pass, 2 and 221 fail. */
  lemma DescriptionBoundaries(v: string, isEmail: string -> bool)
    ensures CountedLength(v) == 3 || CountedLength(v) == 220 ==> Run(DescriptionChain, v, isEmail) == []
    ensures CountedLength(v) == 2 || CountedLength(v) == 221 ==> Run(DescriptionChain, v, isEmail) != []
  {
    DescriptionRule(v, isEmail);
  }

  /** A creation body passes exactly when both fields do. */
  lemma CreateRule(body: Body, isEmail: string -> bool)
    ensures RunAll(ProjectCreateValidator, body, isEmail) == [] <==>
      Strings.Trim(Field(body, "name")) != "" && 3 <= CountedLength(Field(body, "description")) <= 220
  {
    NameRule(Field(body, "name"), isEmail);
    DescriptionRule(Field(body, "description"), isEmail);
    RunAllOfTwo(NameChain, DescriptionChain, body, isEmail);
  }

  /** A role passes exactly when its trimmed value is one of the available
      roles. */
  lemma RoleRule(availableUserRoles: seq<string>, v: string, isEmail: string -> bool)
    ensures Run(RoleChain(availableUserRoles), v, isEmail) == [] <==> Strings.Trim(v) in availableUserRoles
    ensures Strings.Trim(v) !in availableUserRoles ==>
      (Run(RoleChain(availableUserRoles), v, isEmail) == [FieldError("role", "Role must be project_admin or member !")])
  {
    FailuresOfOne("role", RoleChain(availableUserRoles).checks[0], Strings.Trim(v), isEmail);
  }
}
