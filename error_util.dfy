/** `safeErrorMessage`: turn any thrown value into a log line. */
module ErrorUtil {
  import opened Base
  import opened Js

  const UNKNOWN_ERROR := "Unknown error"

  /** The message for a thrown value. Falsy values (the empty string included) give "Unknown error",
      a non-empty string is returned as it is, an `Error` gives its message, and anything else its
      JSON text, or "Unknown error" when `JSON.stringify` throws (the catch makes the function
      total). A function or a symbol stringifies to `undefined`, so for those the result is `None`
      even though the declared return type is `string`. */
  function SafeErrorMessage(err: JsValue): (r: Option<string>)
    ensures !Truthy(err) ==> r == Some(UNKNOWN_ERROR)
    ensures Truthy(err) && err.Str? ==> r == Some(err.s)
    ensures err.ErrorObject? ==> r == Some(err.message)
    ensures Truthy(err) && !err.Str? && !err.ErrorObject? && Stringify(err).Json? ==> r == Some(Stringify(err).text)
    ensures Stringify(err) == Throws ==> r == Some(UNKNOWN_ERROR)
    ensures r.None? <==> err == Other(NoJson)
  {
    if !Truthy(err) then Some(UNKNOWN_ERROR)
    else if err.Str? then Some(err.s)
    else if err.ErrorObject? then Some(err.message)
    else
      match Stringify(err)
      case Json(text) => Some(text)
      case Throws => Some(UNKNOWN_ERROR)
      case NoJson => None
  }

  /** A message travels unchanged whether it was thrown as a string or inside an `Error`. */
  lemma MessageSurvivesEitherWay(m: string)
    requires m != ""
    ensures SafeErrorMessage(Str(m)) == SafeErrorMessage(ErrorObject(m)) == Some(m)
  {
  }
}
