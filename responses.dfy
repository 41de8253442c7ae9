/** Values that come back from the remote services, as the Python code sees them.
    A decoded JSON object is a map from field name to string; a field that is
    absent and a field that holds JSON null look the same to `dict.get`. */
module Responses {

  datatype Option<+T> = None | Some(value: T)

  /** A decoded JSON object body. */
  type Json = map<string, string>

  /** `body.get(key)`: the field's value, or None when it is absent. */
  function Get(body: Json, key: string): (r: Option<string>)
    ensures r.Some? <==> key in body
    ensures r.Some? ==> r.value == body[key]
  {
    if key in body then Some(body[key]) else None
  }

  /** Python truthiness of an optional string: None and "" are false. */
  predicate Truthy(v: Option<string>) {
    v.Some? && v.value != ""
  }

  /** Python's `a or b`: the first operand if it is truthy, else the second. */
  function Or(a: Option<string>, b: Option<string>): (r: Option<string>)
    ensures Truthy(r) <==> Truthy(a) || Truthy(b)
    ensures Truthy(a) ==> r == a
  {
    if Truthy(a) then a else b
  }

  /** The answer to one JSON request: a status with a decoded body, or an
      exception (connection error, timeout, a body that is not JSON). */
  datatype HttpResponse = Response(status: int, body: Json) | Raised

  /** The answer to one GET of a file: a status with the raw bytes, or an exception. */
  datatype Fetch = Fetched(status: int, bytes: seq<bv8>) | FetchRaised
}
