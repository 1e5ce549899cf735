// The request record of the work pool (work_pool/struct.go).

module Requests {

  /** The payload of a request. The pool never looks inside it; it is only
      handed to the handler. */
  type Payload = string

  /** The identity of a registered handler function. What a handler does is
      outside the pool: its effect is seen only through the outcome of each
      attempt (see module Processing). */
  datatype Handler = Handler(name: string)

  /** The handler registry: request type code to handler. Read-only. */
  type Registry = map<int, Handler>

  /** One unit of work. `timeOut` is a duration in nanoseconds, as Go's
      time.Duration; the fields Handler and Retries of the Go struct are never
      read on the processing path and are not modelled. */
  datatype WorkerRequest = WorkerRequest(
    reqType: int,
    data: Payload,
    timeOut: int,
    maxRetries: int
  )
}
