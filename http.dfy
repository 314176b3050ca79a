/**
 * What a handler hands back to the HTTP framework: a status with a body,
 * and what request binding (decode, then validate the binding tags) yields.
 */
module Http {
  import opened Wrappers
  import opened Models

  /** Why binding a request body failed: undecodable JSON, or failed binding tags. */
  datatype BindError = Malformed(message: string) | Invalid(errors: seq<FieldError>)

  /** A handler's reply. The error variants carry the text of the `{"error": ...}` body. */
  datatype Response<+T> =
    | Ok(value: T)               // 200
    | Created(value: T)          // 201
    | BadRequest(bind: BindError) // 400, body rejected
    | InvalidState(error: string) // 400, request well-formed but not allowed now
    | Unauthorized(error: string) // 401
    | NotFound(error: string)     // 404
    | Conflict(error: string)     // 409
    | ServerError(error: string)  // 500

  /** A Go slice as JSON sees it: a nil slice encodes as `null`, any other as an array. */
  datatype Slice<+T> = Nil | NonNil(elems: seq<T>)
  {
    function Elems(): seq<T>
    {
      match this
      case Nil => []
      case NonNil(s) => s
    }
  }

  /** The `{"<items>": [...], "count": n}` body of the list endpoints. */
  datatype Listing<+T> = Listing(items: Slice<T>, count: int)

  /** A request body as the JSON decoder left it. */
  datatype Payload<+T> = Undecodable(message: string) | Decoded(value: T)

  /** `ShouldBindJSON`: decode, then check the binding tags (given by `validate`). */
  function ShouldBind<T>(body: Payload<T>, validate: T -> seq<FieldError>): (r: Result<T, BindError>)
    ensures r.Success? <==> body.Decoded? && validate(body.value) == []
    ensures r.Success? ==> r.value == body.value
  {
    match body
    case Undecodable(msg) => Failure(Malformed(msg))
    case Decoded(v) =>
      var errs := validate(v);
      if errs == [] then Success(v) else Failure(Invalid(errs))
  }
}
