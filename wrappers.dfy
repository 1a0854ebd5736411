/** Option and the HTTP outcome of an endpoint. */
module Wrappers {

  datatype Option<+T> = None | Some(value: T)

  /** The status class an action returns. `Ok` stands for every 2xx result
      (200 Ok, 201 CreatedAtAction, 204 NoContent) and carries the payload;
      `ServerError` is a 500, whether returned by a catch block or raised by
      an exception the action does not catch. Message texts are not modelled. */
  datatype Response<+T> =
    | Ok(value: T)
    | NotFound
    | BadRequest
    | Forbidden
    | Unauthorized
    | ServerError
  {
    /** The same failure, as the answer of an action with another payload. */
    function Failure<U>(): (r: Response<U>)
      requires !Ok?
      ensures !r.Ok?
    {
      match this
      case NotFound => NotFound
      case BadRequest => BadRequest
      case Forbidden => Forbidden
      case Unauthorized => Unauthorized
      case ServerError => ServerError
    }
  }
}
