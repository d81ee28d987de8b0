/** What a route handler answers: `NextResponse.json(...)`, or an exception that escapes it. */
module Http {

  datatype Response<T> =
    | Json(status: nat, value: T)          // NextResponse.json(value, { status })
    | Message(status: nat, text: string)   // NextResponse.json({ message: text }, { status })
    | Uncaught                             // the handler throws; the framework answers 500
  {
    /** The HTTP status the client sees. */
    function Status(): nat {
      match this
      case Json(s, _) => s
      case Message(s, _) => s
      case Uncaught => 500
    }
  }
}
