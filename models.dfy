/** Values exchanged between the middleware, the handlers and the pipeline. */
module Models {

  datatype Option<T> = None | Some(value: T)

  /** A publish body after JSON binding: binding failed, or a SpeedData whose
      pointer field `speed` may be nil. */
  datatype SpeedBinding = SpeedBindError(reason: string) | SpeedBody(speed: Option<int>)

  /** A token-request body after JSON binding. A missing field binds to "". */
  datatype EmailBinding = EmailBindError(reason: string) | EmailBody(email: string)

  /** The error record every failure response and pipeline error carries. */
  datatype PipelineError = PipelineError(trace: string, code: int, message: string)

  /** A JSON response body: the error record, a one-entry object, or nothing
      (the handler wrote only a status line). */
  datatype Body = ErrorBody(error: PipelineError) | Fields(key: string, value: string) | NoBody

  datatype Response = Response(status: int, body: Body)

  /** What a middleware does with the request: hand it to the next handler,
      or abort the chain with a response. */
  datatype Outcome = Next | Abort(response: Response)

  /** Header lookup: the value stored under `key`, or "" when there is none. */
  function HeaderGet(header: map<string, string>, key: string): string {
    if key in header then header[key] else ""
  }
}
