/** The wire shapes of the Forq HTTP API and its error codes. */
module Api {

  /** Go's int64. */
  newtype Int64 = x: int | -0x8000_0000_0000_0000 <= x < 0x8000_0000_0000_0000

  // Error codes the server puts in the `code` field of an error body.
  const ErrCodeBadRequestContentExceedsLimit: string := "bad_request.body.content.exceeds_limit"
  const ErrCodeBadRequestProcessAfterInPast: string := "bad_request.body.processAfter.in_past"
  const ErrCodeBadRequestProcessAfterTooFar: string := "bad_request.body.processAfter.too_far"
  const ErrCodeBadRequestInvalidBody: string := "bad_request.body.invalid"
  const ErrCodeBadRequestDlqOnlyOp: string := "bad_request.dlq_only_operation"
  const ErrCodeUnauthorized: string := "unauthorized"
  const ErrCodeNotFoundMessage: string := "not_found.message"
  const ErrCodeInternal: string := "internal"

  /** A message to produce; `processAfter` is a Unix time in milliseconds, 0 meaning "not set". */
  datatype NewMessageRequest = NewMessageRequest(content: string, processAfter: Int64)

  /** A message handed out by the server. */
  datatype MessageResponse = MessageResponse(id: string, content: string)

  /** The body of a non-success response. */
  datatype ErrorResponse = ErrorResponse(code: string) {
    /** The text of the error value: the code itself. */
    function Error(): string { code }
  }
}
