/** Shared vocabulary: optional values, results, Go-style errors and byte strings. */
module Base {

  /** A byte (Go's `byte`). */
  newtype byte = x: int | 0 <= x < 256

  type Bytes = seq<byte>

  /** The byte `'\n'`. */
  const Newline: byte := 10

  /** HTTP status codes the core compares against (section 15 of RFC 9110). */
  const StatusOK: int := 200
  const StatusCreated: int := 201
  const StatusNoContent: int := 204
  const StatusFound: int := 302
  const StatusNotFound: int := 404
  const StatusGone: int := 410

  datatype Option<+T> = None | Some(value: T)

  /** A value or the error that replaced it (Go's `(T, error)` pair when exactly one is meaningful). */
  datatype Result<+T> = Ok(value: T) | Err(error: Error)

  /** A Go `error` result: `Pass` is `nil`. */
  datatype Outcome = Pass | Fail(error: Error)

  /** The shapes of error value the core builds. Errors that come from outside the core
      (the network, JSON, the token exchange) are supplied to the model as `Error` values. */
  datatype Error =
    | Message(text: string)
      // errors.New or fmt.Errorf with no error operand
    | Wrap(context: string, cause: Error)
      // fmt.Errorf("<context>: %w", cause): the cause stays reachable by errors.Is/As
    | Describe(context: string, cause: Error)
      // fmt.Errorf("<context>: %v", cause): the cause's text only
    | Status(context: string, err: Option<Error>, code: int)
      // fmt.Errorf("<context>: %w %v", err, resp.Status) and "<context>: %d"
    | WithBody(context: string, body: Bytes)
      // fmt.Errorf("<context>, %s", string(body))
}
