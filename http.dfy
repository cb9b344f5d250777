/**
 * The request wrapper `asyncHandler`: it runs a route handler and, when the
 * handler throws, turns the error into an HTTP response chosen by the kind of
 * the error.
 */
module Http {
  import opened Wrappers

  /** The kinds of error a handler can throw, as the wrapper tells them apart. */
  datatype Error =
    | StructError(message: string)                   // superstruct `assert` failed (e.name === 'StructError')
    | ValidationError(message: string)               // Prisma.PrismaClientValidationError
    | KnownRequestError(code: string, message: string) // Prisma.PrismaClientKnownRequestError
    | PlainError(message: string)                    // any other thrown Error

  /** What a response carries: the status text (`sendStatus`), `{ message }`, or a result object. */
  datatype Body<+T> = StatusText(text: string) | MessageBody(message: string) | Payload(value: T)

  datatype Response<+T> = Response(status: int, body: Body<T>)

  /** The Prisma code for "record to update / find was not found". */
  const RecordNotFound: string := "P2025"

  /**
   * The catch branch of the wrapper: validation failures are client errors,
   * a missing record is 404 with the status text as body, and everything else is a server error
   * that passes its message through.
   */
  function Classify<T>(e: Error): (resp: Response<T>)
    ensures resp.status == 400 <==> (e.StructError? || e.ValidationError?)
    ensures resp.status == 404 <==> (e.KnownRequestError? && e.code == RecordNotFound)
    ensures resp.status in {400, 404, 500}
    ensures resp.body == if resp.status == 404 then StatusText("Not Found") else MessageBody(e.message)
  {
    if e.StructError? || e.ValidationError? then
      Response(400, MessageBody(e.message))
    else if e.KnownRequestError? && e.code == RecordNotFound then
      Response(404, StatusText("Not Found"))
    else
      Response(500, MessageBody(e.message))
  }

  /** A whole wrapped handler: its own success status and value, or the classified error. */
  function Respond<T>(outcome: Result<T, Error>, okStatus: int): (resp: Response<T>)
    ensures outcome.Success? ==> resp == Response(okStatus, Payload(outcome.value))
    ensures outcome.Failure? ==> resp == Classify(outcome.error)
    ensures outcome.Failure? ==> !resp.body.Payload? && resp.status in {400, 404, 500}
  {
    match outcome
    case Success(v) => Response(okStatus, Payload(v))
    case Failure(e) => Classify(e)
  }

  /** Only a known request error with code P2025 gives 404: other Prisma codes are server errors. */
  lemma OtherPrismaCodesAreServerErrors<T>(code: string, message: string)
    requires code != RecordNotFound
    ensures Classify<T>(KnownRequestError(code, message)) == Response(500, MessageBody(message))
  {
  }
}
