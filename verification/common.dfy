/** Result shapes shared by the backend's controllers and the frontend's state. */
module Common {

  /** Some value, or the JavaScript `undefined`/`null` in its place. */
  datatype Option<+T> = None | Some(value: T) {

    /** `x || d` for an optional value: the value when present, else `d`. */
    function GetOr(default: T): T {
      match this
      case Some(v) => v
      case None => default
    }
  }

  /** What a controller hands to Express.
      - `Success`: a JSON reply with its status code;
      - `Failure`: an HttpError passed to `next`, whose code becomes the status;
      - `Crash`: an exception the handler does not catch (a TypeError on a
        missing value), after which no response is written. */
  datatype Reply<+T> = Success(status: int, value: T) | Failure(code: int, message: string) | Crash {

    /** The same reply with its success value converted. */
    function Map<U>(f: T -> U): (r: Reply<U>)
      ensures r.Success? <==> Success?
      ensures r.Failure? <==> Failure?
      ensures Success? ==> r.status == status && r.value == f(value)
      ensures Failure? ==> r.code == code && r.message == message
    {
      match this
      case Success(s, v) => Success(s, f(v))
      case Failure(c, m) => Failure(c, m)
      case Crash => Crash
    }
  }

  const StatusOk := 200
  const StatusCreated := 201
  const StatusUnauthorized := 401
  const StatusForbidden := 403
  const StatusNotFound := 404
  const StatusUnprocessable := 422
  const StatusServerError := 500
}
