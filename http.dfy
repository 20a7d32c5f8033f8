/** What a request handler sees of a request and what it answers. */
module Http {

  datatype Method = Get | Post | Put | Patch | Delete | OtherMethod

  /** A JSON answer with its status, an `{ error }` answer, or an empty 204. */
  datatype Reply<T> = Json(code: nat, value: T) | Error(code: nat, message: string) | NoContent
  {
    function Status(): nat
    {
      match this
      case Json(c, _) => c
      case Error(c, _) => c
      case NoContent => 204
    }
  }

  /** 201, the status of a successful insert. */
  const Created: nat := 201

  const InternalError := "Internal server error"
  const MethodNotAllowed := "Method not allowed"

  /** A handler's `catch`: any exception thrown by a statement becomes a 500. */
  function ServerError<T>(): (r: Reply<T>)
    ensures r.Status() == 500
  {
    Error(500, InternalError)
  }

  function NotAllowed<T>(): (r: Reply<T>)
    ensures r.Status() == 405
  {
    Error(405, MethodNotAllowed)
  }
}
