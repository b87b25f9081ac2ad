/** The part of express-validator that the request validators use. A field
    chain names a body field, optionally trims it, and lists checks, each
    with the message `withMessage` gave it. Every check of a chain runs on
    the sanitized value (no chain uses `bail`), and each failing check adds
    one error, in chain order. A missing field reads as `""`. */
module ValidationChain {
  import Strings
  import Seqs

  datatype Rule =
    | NotEmpty
    | IsEmpty
    | MinLength(min: nat)
    | MaxLength(max: nat)
    | IsEmail
    | IsIn(values: seq<string>)

  datatype Check = Check(rule: Rule, message: string)

  datatype FieldChain = FieldChain(path: string, trim: bool, checks: seq<Check>)

  /** One entry of `validationResult(req).array()`. */
  datatype FieldError = FieldError(path: string, msg: string)

  /** The message of a check that has no `withMessage`. */
  const DefaultMessage: string := "Invalid value"

  /** The request body: field name to submitted text. */
  type Body = map<string, string>

  function Field(body: Body, path: string): string {
    if path in body then body[path] else ""
  }

  /** The variation selectors U+FE0E and U+FE0F, which `isLength` leaves
      out of its count. */
  predicate IsVariationSelector(c: char) {
    c == '\U{FE0E}' || c == '\U{FE0F}'
  }

  /** The length `isLength` compares with its bounds: the characters of the
      value other than variation selectors. A character here is a Unicode
      scalar value, so a surrogate pair, which `isLength` also counts once,
      is one character. `notEmpty` and `isEmpty` use the plain length. */
  function CountedLength(v: string): (n: nat)
    ensures n <= |v|
    ensures (forall i :: 0 <= i < |v| ==> !IsVariationSelector(v[i])) ==> n == |v|
  {
    if v == [] then 0
    else
      assert forall i :: 0 <= i < |v[1..]| ==> v[1..][i] == v[i + 1];
      (if IsVariationSelector(v[0]) then 0 else 1) + CountedLength(v[1..])
  }

  /** A trailing variation selector does not count: "ab" followed by U+FE0F
      has three characters and counted length 2. */
  lemma CountedLengthSkipsSelector()
    ensures |"ab\U{FE0F}"| == 3 && CountedLength("ab\U{FE0F}") == 2
  {
    var s := "ab\U{FE0F}";
    assert s[1..] == "b\U{FE0F}" && s[1..][1..] == "\U{FE0F}" && s[1..][1..][1..] == "";
  }

  /** Whether a check accepts the (sanitized) value; `isEmail` is the
      validator library's e-mail syntax test. */
  predicate Holds(rule: Rule, v: string, isEmail: string -> bool) {
    match rule
    case NotEmpty => v != ""
    case IsEmpty => v == ""
    case MinLength(n) => CountedLength(v) >= n
    case MaxLength(n) => CountedLength(v) <= n
    case IsEmail => isEmail(v)
    case IsIn(values) => v in values
  }

  /** The predicate "this check rejects the value". */
  function FailsOn(v: string, isEmail: string -> bool): Check -> bool {
    (c: Check) => !Holds(c.rule, v, isEmail)
  }

  /** The errors of the failing checks, in order. */
  function Failures(path: string, checks: seq<Check>, v: string, isEmail: string -> bool): (r: seq<FieldError>)
    ensures |r| <= |checks|
    ensures forall k :: 0 <= k < |r| ==> r[k].path == path
    ensures r == [] <==> forall i :: 0 <= i < |checks| ==> Holds(checks[i].rule, v, isEmail)
  {
    if checks == [] then []
    else
      var head := if Holds(checks[0].rule, v, isEmail) then [] else [FieldError(path, checks[0].message)];
      head + Failures(path, checks[1..], v, isEmail)
  }

  /** One error per failing check, in chain order: the k-th error carries the
      field's path and the message of the k-th failing check. */
  lemma {:induction false} FailuresAreFailingChecks(path: string, checks: seq<Check>, v: string, isEmail: string -> bool)
    ensures var r := Failures(path, checks, v, isEmail);
      var failing := Seqs.Filter(checks, FailsOn(v, isEmail));
      |r| == |failing| && forall k :: 0 <= k < |r| ==> r[k] == FieldError(path, failing[k].message)
  {
    if checks != [] {
      FailuresAreFailingChecks(path, checks[1..], v, isEmail);
      var failing := Seqs.Filter(checks, FailsOn(v, isEmail));
      assert failing == (if Holds(checks[0].rule, v, isEmail) then [] else [checks[0]])
                        + Seqs.Filter(checks[1..], FailsOn(v, isEmail));
    }
  }

  /** The value the checks see: trimmed when the chain starts with `trim()`. */
  function Sanitized(c: FieldChain, v: string): string {
    if c.trim then Strings.Trim(v) else v
  }

  /** The errors one chain reports for a field value. */
  function Run(c: FieldChain, v: string, isEmail: string -> bool): (r: seq<FieldError>)
    ensures r == [] <==> forall i :: 0 <= i < |c.checks| ==> Holds(c.checks[i].rule, Sanitized(c, v), isEmail)
    ensures forall k :: 0 <= k < |r| ==> r[k].path == c.path
  {
    Failures(c.path, c.checks, Sanitized(c, v), isEmail)
  }

  /** The errors of a validator (an array of chains) on a body, chain by
      chain. */
  function RunAll(chains: seq<FieldChain>, body: Body, isEmail: string -> bool): (r: seq<FieldError>)
    ensures r == [] <==> forall i :: 0 <= i < |chains| ==> Run(chains[i], Field(body, chains[i].path), isEmail) == []
  {
    if chains == [] then []
    else Run(chains[0], Field(body, chains[0].path), isEmail) + RunAll(chains[1..], body, isEmail)
  }

  /** The errors of three checks, spelled out. */
  lemma {:induction false} FailuresOfThree(path: string, a: Check, b: Check, c: Check, v: string, isEmail: string -> bool)
    ensures Failures(path, [a, b, c], v, isEmail) ==
      (if Holds(a.rule, v, isEmail) then [] else [FieldError(path, a.message)])
      + (if Holds(b.rule, v, isEmail) then [] else [FieldError(path, b.message)])
      + (if Holds(c.rule, v, isEmail) then [] else [FieldError(path, c.message)])
  {
    assert [a, b, c][1..] == [b, c];
    FailuresOfTwo(path, b, c, v, isEmail);
  }

  /** The errors of two checks, spelled out. */
  lemma {:induction false} FailuresOfTwo(path: string, a: Check, b: Check, v: string, isEmail: string -> bool)
    ensures Failures(path, [a, b], v, isEmail) ==
      (if Holds(a.rule, v, isEmail) then [] else [FieldError(path, a.message)])
      + (if Holds(b.rule, v, isEmail) then [] else [FieldError(path, b.message)])
  {
    assert [a, b][1..] == [b];
    assert [b][1..] == [];
  }

  /** The errors of a single check. */
  lemma {:induction false} FailuresOfOne(path: string, a: Check, v: string, isEmail: string -> bool)
    ensures Failures(path, [a], v, isEmail) ==
      (if Holds(a.rule, v, isEmail) then [] else [FieldError(path, a.message)])
  {
    assert [a][1..] == [];
  }

  /** A validator of two chains passes exactly when both do. */
  lemma RunAllOfTwo(a: FieldChain, b: FieldChain, body: Body, isEmail: string -> bool)
    ensures RunAll([a, b], body, isEmail) == [] <==>
      Run(a, Field(body, a.path), isEmail) == [] && Run(b, Field(body, b.path), isEmail) == []
  {
    assert [a, b][1..] == [b];
    assert [b][1..] == [];
  }

  /** A validator of four chains passes exactly when all four do. */
  lemma RunAllOfFour(a: FieldChain, b: FieldChain, c: FieldChain, d: FieldChain, body: Body, isEmail: string -> bool)
    ensures RunAll([a, b, c, d], body, isEmail) == [] <==>
      && Run(a, Field(body, a.path), isEmail) == [] && Run(b, Field(body, b.path), isEmail) == []
      && Run(c, Field(body, c.path), isEmail) == [] && Run(d, Field(body, d.path), isEmail) == []
  {
    assert [a, b, c, d][1..] == [b, c, d];
    assert [b, c, d][1..] == [c, d];
    RunAllOfTwo(c, d, body, isEmail);
  }
}
