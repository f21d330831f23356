/** Values as the services see them: optional schema fields, JavaScript
    truthiness, and the errors a turn can end with. */
module Values {

  datatype Option<+T> = None | Some(value: T)

  /** What a JavaScript promise can be rejected with in the modelled code. */
  datatype JsError =
    | NotFound(message: string)   // thrown by the orchestrator when a lookup fails
    | TypeError(message: string)  // a call of, or a property read on, `undefined`
    | Rejected                    // the text-generation client itself threw

  datatype Result<+T> = Ok(value: T) | Err(error: JsError)

  /** A string-valued field is truthy when it is set and not empty. */
  predicate TruthyStr(s: Option<string>) {
    s.Some? && s.value != ""
  }

  /** A number-valued field is truthy when it is set and not zero. */
  predicate TruthyNum(n: Option<int>) {
    n.Some? && n.value != 0
  }

  /** `a || b` on string-valued fields. */
  function OrStr(a: Option<string>, b: Option<string>): (r: Option<string>)
    ensures TruthyStr(a) ==> r == a
    ensures !TruthyStr(a) ==> r == b
  {
    if TruthyStr(a) then a else b
  }
}
