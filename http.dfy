/** The part of Express's response object the handlers use: a status code
    and one JSON body, plus the uniform error envelope `{ errors: [...] }`. */
module Http {
  import opened Js

  /** One entry of an `errors` array: `{ msg }` written by a handler, or a
      field error produced by express-validator (`param` is the field). */
  datatype ErrorItem = Msg(msg: string) | FieldError(param: string, msg: string)

  /** A JSON body: the error envelope, `{ token }`, or a route's own value. */
  datatype Body<T> = Errors(errors: seq<ErrorItem>) | TokenJson(token: string) | Json(value: T)

  /** What a response holds: its status and the body sent, if any. */
  datatype Sent<T> = Sent(status: int, body: Option<Body<T>>)

  /** `res.status(code).json({ errors: [{ msg }] })`. */
  function ErrorReply<T>(code: int, msg: string): Sent<T>
  {
    Sent(code, Some(Errors([Msg(msg)])))
  }

  /** `res.json(value)` on a fresh response. */
  function JsonReply<T>(value: T): Sent<T>
  {
    Sent(200, Some(Json(value)))
  }

  /** A response nothing was written to. */
  function NoReply<T>(): Sent<T>
  {
    Sent(200, None)
  }

  class Response<T> {
    var status: int
    var body: Option<Body<T>>

    /** Express starts every response at status 200 with nothing sent. */
    constructor ()
      ensures status == 200 && body == None
    {
      status := 200;
      body := None;
    }

    function Snapshot(): Sent<T>
      reads this
    {
      Sent(status, body)
    }

    /** Nothing has been written yet (Express refuses a second body). */
    predicate Fresh()
      reads this
    {
      status == 200 && body.None?
    }

    /** `res.status(code)` */
    method SetStatus(code: int)
      modifies this
      ensures status == code && body == old(body)
    {
      status := code;
    }

    /** `res.json(b)`: the status is left as it was. */
    method Json(b: Body<T>)
      modifies this
      ensures status == old(status) && body == Some(b)
    {
      body := Some(b);
    }
  }
}
