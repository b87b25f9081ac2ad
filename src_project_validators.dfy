/** The project-creation validator of the top-level server tree, which the
    `/new-project` and `/update-project` routes use. Its rules are written
    with `isEmpty()` where `notEmpty()` was meant. */
module SrcProjectValidators {
  import Strings
  import opened ValidationChain

  const NameChain := FieldChain("name", true, [
    Check(IsEmpty, "Project name is required.")])

  const DescriptionChain := FieldChain("description", false, [
    Check(IsEmpty, "Project description is required."),
    Check(MinLength(3), "Project description must be at least 3 characters long!"),
    Check(MaxLength(220), "Project description must be at most 220 characters long!")])

  /** `projectCreateValidator()`. */
  const ProjectCreateValidator: seq<FieldChain> := [NameChain, DescriptionChain]

  /** A name passes only when it is blank: every other name is reported as
      missing. */
  lemma NameRule(v: string, isEmail: string -> bool)
    ensures Run(NameChain, v, isEmail) == [] <==> Strings.Trim(v) == ""
    ensures Strings.Trim(v) != "" ==> Run(NameChain, v, isEmail) == [FieldError("name", "Project name is required.")]
  {
    FailuresOfOne("name", NameChain.checks[0], Strings.Trim(v), isEmail);
  }

  /** No description passes: an empty one fails the minimum, a non-empty one
      fails `isEmpty`, and one over 220 characters fails `isEmpty` and the
      maximum. */
  lemma DescriptionNeverPasses(v: string, isEmail: string -> bool)
    ensures Run(DescriptionChain, v, isEmail) != []
    ensures v == "" ==>
      (Run(DescriptionChain, v, isEmail) ==
       [FieldError("description", "Project description must be at least 3 characters long!")])
    ensures 3 <= CountedLength(v) <= 220 ==>
      (Run(DescriptionChain, v, isEmail) == [FieldError("description", "Project description is required.")])
    ensures CountedLength(v) > 220 ==>
      (Run(DescriptionChain, v, isEmail) ==
       [FieldError("description", "Project description is required."),
        FieldError("description", "Project description must be at most 220 characters long!")])
  {
    FailuresOfThree("description", DescriptionChain.checks[0], DescriptionChain.checks[1],
                    DescriptionChain.checks[2], v, isEmail);
  }

  /** No request body passes the validator, so the handlers behind it are
      never reached through these routes. */
  lemma RejectsEveryBody(body: Body, isEmail: string -> bool)
    ensures RunAll(ProjectCreateValidator, body, isEmail) != []
  {
    DescriptionNeverPasses(Field(body, "description"), isEmail);
    RunAllOfTwo(NameChain, DescriptionChain, body, isEmail);
  }
}
