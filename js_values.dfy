/** The few rules of JavaScript values that the client's decisions rest on:
    a property that may be null or undefined, the truthiness of a string,
    the `||` chain that picks the first truthy value, and the shape of a
    rejected HTTP call as a `catch` block sees it. */
module JsValues {

  /** A value that may be missing: `None` stands for both null and undefined. */
  datatype Option<+T> = None | Some(value: T)

  /** `!!v` for a property that is either missing or a string: only a
      non-empty string is truthy. */
  predicate Truthy(v: Option<string>) {
    v.Some? && v.value != ""
  }

  /** `a || fallback`: the first truthy of the two, as a string. */
  function OrElse(a: Option<string>, fallback: string): (r: string)
    ensures Truthy(a) ==> r == a.value
    ensures !Truthy(a) ==> r == fallback
  {
    if Truthy(a) then a.value else fallback
  }

  /** What a `catch (e)` block can read of a rejected call:
      `e.response.status`, `e.response.data.message` and `e.message`. */
  datatype JsError = JsError(status: Option<int>, responseMessage: Option<string>, message: Option<string>)

  /** A plain `new Error(message)`: no HTTP response attached. */
  function PlainError(message: string): JsError {
    JsError(None, None, Some(message))
  }

  /** `e?.response?.data?.message || e?.message || fallback`. */
  function ErrorText(e: JsError, fallback: string): (r: string)
    ensures Truthy(e.responseMessage) ==> r == e.responseMessage.value
    ensures !Truthy(e.responseMessage) && Truthy(e.message) ==> r == e.message.value
    ensures !Truthy(e.responseMessage) && !Truthy(e.message) ==> r == fallback
    ensures fallback != "" ==> r != ""
  {
    OrElse(e.responseMessage, OrElse(e.message, fallback))
  }
}
