/** Values shared by every controller and store of the model. */
module Common {

  /** A field that may be absent (JavaScript `undefined` / `null`). */
  datatype Option<+T> = None | Some(value: T)

  /** The outcome of one call into a foreign service (the billing provider,
      the database): it either returns a value or throws. */
  datatype Call<+T> = Returned(value: T) | Threw

  /** Document and provider identifiers. */
  type Id = string

  /** The HTTP status codes the handlers answer with. */
  datatype Code = Ok | Created | BadRequest | NotFound | ServerError
  {
    function Number(): (n: int)
      ensures 200 <= n < 600
      ensures (n < 300) == (this == Ok || this == Created)
    {
      match this
      case Ok => 200
      case Created => 201
      case BadRequest => 400
      case NotFound => 404
      case ServerError => 500
    }
  }

  /** JavaScript truthiness of an optional string: `undefined`, `null` and
      `''` are all falsy. */
  predicate Truthy(s: Option<string>)
  {
    s.Some? && s.value != ""
  }

  /** Reading a key of a plain JSON object. */
  function FieldOf(m: map<string, string>, key: string): (r: Option<string>)
    ensures r.Some? <==> key in m
    ensures r.Some? ==> r.value == m[key]
  {
    if key in m then Some(m[key]) else None
  }
}
