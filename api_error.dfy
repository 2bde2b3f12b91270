/** The error value every flow raises: `ApiError` of src/utils/ApiError.js. */
module ApiErrors {
  import opened Wrappers

  const DefaultMessage := "Something went wrong"

  /** A stack trace passed in by the caller, or one captured at construction. */
  datatype Stack = Provided(trace: string) | Captured

  /**
   * The fields an `ApiError` carries. `data` is the (always null) payload
   * slot and `error` the detailed-errors slot; `None` is JavaScript's
   * null/undefined.
   */
  datatype ApiError = ApiError(
    statusCode: int,
    message: string,
    data: Option<string>,
    success: bool,
    error: Option<seq<string>>,
    stack: Stack)

  /** What every constructed `ApiError` looks like: a failure with no data and no error details. */
  predicate Conforms(e: ApiError) {
    e.data == None && !e.success && e.error == None
  }

  /**
   * `new ApiError(statusCode, message, error, stack)`, with the same
   * defaults. The `errors` argument is accepted and dropped: the constructor
   * copies `this.errors`, which nothing has assigned.
   */
  function NewApiError(statusCode: int, message: Option<string> := None, errors: seq<string> := [], stack: string := ""): (e: ApiError)
    ensures Conforms(e)
    ensures e.statusCode == statusCode
    ensures e.message == if message.Some? then message.value else DefaultMessage
    ensures e.stack == if stack != "" then Provided(stack) else Captured
  {
    ApiError(statusCode, if message.Some? then message.value else DefaultMessage, None, false, None,
             if stack != "" then Provided(stack) else Captured)
  }

  /** Whatever error list is passed, the constructed error is the same. */
  lemma ErrorsArgumentIgnored(statusCode: int, message: Option<string>, errors: seq<string>, errors': seq<string>, stack: string)
    ensures NewApiError(statusCode, message, errors, stack) == NewApiError(statusCode, message, errors', stack)
  {
  }

  /** A shorthand for the flows: an error with an explicit message and no stack. */
  function Raise(statusCode: int, message: string): (e: ApiError)
    ensures Conforms(e) && e.statusCode == statusCode && e.message == message && e.stack == Captured
  {
    NewApiError(statusCode, Some(message))
  }
}
