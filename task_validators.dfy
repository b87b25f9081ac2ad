/** The task and subtask validators of the top-level server tree. The task
    chains start with `isEmpty()` (without a message) before their length
    bounds. */
module TaskValidators {
  import Strings
  import opened ValidationChain

  const TitleChain := FieldChain("title", true, [
    Check(IsEmpty, DefaultMessage),
    Check(MinLength(4), "Task title must be min 4 char."),
    Check(MaxLength(15), "Task title not be more than 15 char.")])

  const DescriptionChain := FieldChain("description", true, [
    Check(IsEmpty, DefaultMessage),
    Check(MinLength(14), "Task title must be min 14 char."),
    Check(MaxLength(115), "Task title not be more than 115 char.")])

  const SubTaskTitleChain := FieldChain("title", true, [
    Check(NotEmpty, "Title is Required !"),
    Check(MinLength(3), "Title must be at least 3 characters long !")])

  const TaskIdChain := FieldChain("taskId", true, [
    Check(NotEmpty, "Task is Required !")])

  /** `createTaskValidator()`. */
  const CreateTaskValidator: seq<FieldChain> := [TitleChain, DescriptionChain]

  /** `subTaskValidator()`. */
  const SubTaskValidator: seq<FieldChain> := [SubTaskTitleChain, TaskIdChain]

  /** No task title passes: a blank one is shorter than 4, any other is not
      empty. */
  lemma TitleNeverPasses(v: string, isEmail: string -> bool)
    ensures Run(TitleChain, v, isEmail) != []
  {
    FailuresOfThree("title", TitleChain.checks[0], TitleChain.checks[1], TitleChain.checks[2],
                    Strings.Trim(v), isEmail);
  }

  /** No task description passes either. */
  lemma DescriptionNeverPasses(v: string, isEmail: string -> bool)
    ensures Run(DescriptionChain, v, isEmail) != []
  {
    FailuresOfThree("description", DescriptionChain.checks[0], DescriptionChain.checks[1],
                    DescriptionChain.checks[2], Strings.Trim(v), isEmail);
  }

  /** So every body is rejected by `createTaskValidator()`. */
  lemma CreateTaskRejectsEveryBody(body: Body, isEmail: string -> bool)
    ensures RunAll(CreateTaskValidator, body, isEmail) != []
  {
    TitleNeverPasses(Field(body, "title"), isEmail);
    RunAllOfTwo(TitleChain, DescriptionChain, body, isEmail);
  }

  /** A subtask title passes exactly when its trimmed length is at least 3. */
  lemma SubTaskTitleRule(v: string, isEmail: string -> bool)
    ensures Run(SubTaskTitleChain, v, isEmail) == [] <==> CountedLength(Strings.Trim(v)) >= 3
  {
    FailuresOfTwo("title", SubTaskTitleChain.checks[0], SubTaskTitleChain.checks[1], Strings.Trim(v), isEmail);
  }

  /** A task id passes exactly when it is non-empty after trimming. */
  lemma TaskIdRule(v: string, isEmail: string -> bool)
    ensures Run(TaskIdChain, v, isEmail) == [] <==> Strings.Trim(v) != ""
  {
    FailuresOfOne("taskId", TaskIdChain.checks[0], Strings.Trim(v), isEmail);
  }

  /** A subtask body passes exactly when both fields do. */
  lemma SubTaskRule(body: Body, isEmail: string -> bool)
    ensures RunAll(SubTaskValidator, body, isEmail) == [] <==>
      CountedLength(Strings.Trim(Field(body, "title"))) >= 3 && Strings.Trim(Field(body, "taskId")) != ""
  {
    SubTaskTitleRule(Field(body, "title"), isEmail);
    TaskIdRule(Field(body, "taskId"), isEmail);
    RunAllOfTwo(SubTaskTitleChain, TaskIdChain, body, isEmail);
  }
}
