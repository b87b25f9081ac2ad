/** The `validate` middleware: it lets a request through when the chains
    reported nothing, and otherwise throws 422 with one `{ path: msg }`
    object per reported error. */
module ValidateMiddleware {
  import opened ValidationChain

  /** `next()`, or the thrown `ApiError(422, message, extractedError)`. */
  datatype Outcome =
    | CallNext
    | Reject(statusCode: int, message: string, errors: seq<map<string, string>>)

  const InvalidData: string := "Recieved data is not valid"

  /** `validate(req, res, next)` on `validationResult(req).array()`. */
  method Validate(errors: seq<FieldError>) returns (o: Outcome)
    ensures errors == [] <==> o == CallNext
    ensures errors != [] ==> o.Reject? && o.statusCode == 422 && o.message == InvalidData
    ensures o.Reject? ==> |o.errors| == |errors|
    ensures o.Reject? ==> forall k :: 0 <= k < |errors| ==> o.errors[k] == map[errors[k].path := errors[k].msg]
  {
    if errors == [] {
      return CallNext;
    }
    var extractedError: seq<map<string, string>> := [];
    var i := 0;
    while i < |errors|
      invariant 0 <= i <= |errors|
      invariant |extractedError| == i
      invariant forall k :: 0 <= k < i ==> extractedError[k] == map[errors[k].path := errors[k].msg]
    {
      extractedError := extractedError + [map[errors[i].path := errors[i].msg]];
      i := i + 1;
    }
    o := Reject(422, InvalidData, extractedError);
  }

  /** Each entry of the payload has exactly one key, the error's field. */
  lemma EntryHasOneKey(e: FieldError)
    ensures map[e.path := e.msg].Keys == {e.path}
    ensures map[e.path := e.msg][e.path] == e.msg
  {
  }
}
