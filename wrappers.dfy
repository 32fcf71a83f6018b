/** Optional values and the error-or-value outcome every service call produces. */
module Wrappers {

  datatype Option<+T> = None | Some(value: T) {
    function GetOr(default: T): T {
      match this
      case Some(v) => v
      case None => default
    }
  }

  /** An awaited call either resolves with a value or rejects with an error message. */
  datatype Result<+T> = Success(value: T) | Failure(error: string)

  /** JavaScript truthiness of an optional string: absent and "" are both falsy. */
  predicate Given(o: Option<string>) {
    o.Some? && o.value != ""
  }

  /** `x || fallback` on an optional string. */
  function OrElse(o: Option<string>, fallback: string): (r: string)
    ensures Given(o) ==> r == o.value
    ensures !Given(o) ==> r == fallback
  {
    if Given(o) then o.value else fallback
  }

  /** `x || undefined` on an optional string: "" collapses to absent. */
  function Truthy(o: Option<string>): (r: Option<string>)
    ensures r.Some? <==> Given(o)
    ensures r.Some? ==> r == o
  {
    if Given(o) then o else None
  }
}
