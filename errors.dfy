/** The error raised across the core (communicator/errors.py). */
module Errors {

  /** CommError's code is an int everywhere except in the Ivy adapter, which passes the string "100". */
  datatype ErrorCode = Numeric(n: int) | Textual(s: string)

  datatype CommError = CommError(code: ErrorCode, title: string, detail: string)

  /** An exception a call raises: a CommError, or another exception known by its class name. */
  datatype Raised = Comm(error: CommError) | Other(name: string)
}
