/** The failures a collection pass can meet. */
module Errors {

  datatype Error =
    /** An offset override or default that the duration parser rejects. */
    | InvalidDuration(offset: string)
    /** A resolved end offset (nanoseconds) greater than a nonzero start offset. */
    | EndAfterStart(end: int, start: int)
    /** The transport or the JSON decoder failed; both are outside the model. */
    | FetchFailed(message: string)
    /** The telemetry SDK refused the point with this name. */
    | SinkRejected(name: string)
}
