/** Small shared datatypes: an optional value (a JavaScript value that may be
    `null`) and the outcome of one HTTP request made through axios. */
module Wrappers {

  datatype Option<+T> = None | Some(value: T) {
    predicate IsFailure() { None? }

    function PropagateFailure<U>(): Option<U>
      requires None?
    {
      None
    }

    function Extract(): T
      requires Some?
    {
      value
    }
  }

  /** The outcome of one request: the response body, or a rejected promise whose
      `err.response?.data?.detail` is `detail` (None when the server sent no
      detail, or when no response was received at all). */
  datatype Response<+T> = Ok(body: T) | Err(detail: Option<string>)

  /** JavaScript truthiness of an optional string (`null` and `""` are falsy). */
  predicate Truthy(s: Option<string>)
  {
    s.Some? && s.value != ""
  }

  /** `detail || fallback`: the server's detail when it is truthy, else the fallback. */
  function DetailOr(detail: Option<string>, fallback: string): (r: string)
    ensures Truthy(detail) ==> r == detail.value
    ensures !Truthy(detail) ==> r == fallback
    ensures r == "" ==> fallback == ""
  {
    if Truthy(detail) then detail.value else fallback
  }
}
