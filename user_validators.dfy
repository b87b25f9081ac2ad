/** The registration and login validators of the top-level server. */
module UserValidators {
  import Strings
  import opened ValidationChain

  const EmailChain := FieldChain("email", true, [
    Check(NotEmpty, "Email is required."),
    Check(IsEmail, "Email is Invalid.")])

  const UsernameChain := FieldChain("username", true, [
    Check(NotEmpty, "Username is required."),
    Check(MinLength(3), "Username should be at least minimum 3 length."),
    Check(MaxLength(13), "Username can not be maximum 13 char.")])

  const PasswordChain := FieldChain("password", false, [
    Check(NotEmpty, "Password is required."),
    Check(MinLength(3), "Password should be at least minimum 3 length.")])

  const FullnameChain := FieldChain("fullname", true, [
    Check(NotEmpty, "Fullname is required."),
    Check(MinLength(3), "Fullname should be at least minimum 3 length."),
    Check(MaxLength(23), "Fullname can not be maximum 23 char.")])

  /** `userRegistrationValidator()`. */
  const UserRegistrationValidator: seq<FieldChain> := [EmailChain, UsernameChain, PasswordChain, FullnameChain]

  /** `userLoginValidator()`. */
  const UserLoginValidator: seq<FieldChain> := [EmailChain, PasswordChain]

  /** An e-mail passes exactly when, once trimmed, it is non-empty and has
      e-mail syntax. */
  lemma EmailRule(v: string, isEmail: string -> bool)
    ensures Run(EmailChain, v, isEmail) == [] <==> Strings.Trim(v) != "" && isEmail(Strings.Trim(v))
  {
    FailuresOfTwo("email", EmailChain.checks[0], EmailChain.checks[1], Strings.Trim(v), isEmail);
  }

  /** A user name passes exactly when its trimmed length is 3 to 13. */
  lemma UsernameRule(v: string, isEmail: string -> bool)
    ensures Run(UsernameChain, v, isEmail) == [] <==> 3 <= CountedLength(Strings.Trim(v)) <= 13
  {
    FailuresOfThree("username", UsernameChain.checks[0], UsernameChain.checks[1], UsernameChain.checks[2],
                    Strings.Trim(v), isEmail);
  }

  /** A password passes exactly when it has at least 3 characters; it is not
      trimmed (three blanks pass) and has no maximum. */
  lemma PasswordRule(v: string, isEmail: string -> bool)
    ensures Run(PasswordChain, v, isEmail) == [] <==> CountedLength(v) >= 3
  {
    FailuresOfTwo("password", PasswordChain.checks[0], PasswordChain.checks[1], v, isEmail);
  }

  /** A full name passes exactly when its trimmed length is 3 to 23. */
  lemma FullnameRule(v: string, isEmail: string -> bool)
    ensures Run(FullnameChain, v, isEmail) == [] <==> 3 <= CountedLength(Strings.Trim(v)) <= 23
  {
    FailuresOfThree("fullname", FullnameChain.checks[0], FullnameChain.checks[1], FullnameChain.checks[2],
                    Strings.Trim(v), isEmail);
  }

  /** Every failing rule reports its own message: a blank user name fails
      both the required and the minimum-length rule, a long one only the
      maximum. */
  lemma UsernameMessages(v: string, isEmail: string -> bool)
    ensures Strings.Trim(v) == "" ==>
      (Run(UsernameChain, v, isEmail) ==
       [FieldError("username", "Username is required."),
        FieldError("username", "Username should be at least minimum 3 length.")])
    ensures CountedLength(Strings.Trim(v)) > 13 ==>
      (Run(UsernameChain, v, isEmail) == [FieldError("username", "Username can not be maximum 13 char.")])
  {
    FailuresOfThree("username", UsernameChain.checks[0], UsernameChain.checks[1], UsernameChain.checks[2],
                    Strings.Trim(v), isEmail);
  }

  /** A registration body is let through exactly when all four fields pass. */
  lemma RegistrationRule(body: Body, isEmail: string -> bool)
    ensures RunAll(UserRegistrationValidator, body, isEmail) == [] <==>
      && Strings.Trim(Field(body, "email")) != "" && isEmail(Strings.Trim(Field(body, "email")))
      && 3 <= CountedLength(Strings.Trim(Field(body, "username"))) <= 13
      && CountedLength(Field(body, "password")) >= 3
      && 3 <= CountedLength(Strings.Trim(Field(body, "fullname"))) <= 23
  {
    EmailRule(Field(body, "email"), isEmail);
    UsernameRule(Field(body, "username"), isEmail);
    PasswordRule(Field(body, "password"), isEmail);
    FullnameRule(Field(body, "fullname"), isEmail);
    RunAllOfFour(EmailChain, UsernameChain, PasswordChain, FullnameChain, body, isEmail);
  }

  /** A login body applies the same e-mail rules and the same password
      minimum. */
  lemma LoginRule(body: Body, isEmail: string -> bool)
    ensures RunAll(UserLoginValidator, body, isEmail) == [] <==>
      && Strings.Trim(Field(body, "email")) != "" && isEmail(Strings.Trim(Field(body, "email")))
      && CountedLength(Field(body, "password")) >= 3
  {
    EmailRule(Field(body, "email"), isEmail);
    PasswordRule(Field(body, "password"), isEmail);
    RunAllOfTwo(EmailChain, PasswordChain, body, isEmail);
  }
}
