/** Results and errors shared by the cache and the lock.
    The Java code throws; here every operation returns a `Result` whose
    failure names the exception the source raises (most of them wrapped in
    a RuntimeException there). */
module Outcomes {

  datatype Option<+T> = None | Some(value: T)

  /** What the memcached client library can throw on a data operation:
      TimeoutException, InterruptedException or MemcachedException. */
  datatype Fault = Timeout | Interrupted | ServerFailure

  /** The network as seen by one client call: either the servers answer,
      or the call fails with a fault and the servers' keys are not touched. */
  datatype Link = Up | Down(fault: Fault)

  const NO_CONNECTION: string := "NO_CONNECTION"
  const NOT_OPENED: string := "NOT_OPENED"

  datatype Error =
    | ConfigError(code: string)        // ConfigException
    | InvalidStateError(code: string)  // InvalidStateException
    | IoError                          // IOException from creating, connecting or shutting down a client
    | StoreFailure(fault: Fault)       // a failed get/set/add/delete
    | SerializationError               // JsonProcessingException
    | NullPointer                      // a call on an unbound client

  datatype Result<+T> = Success(value: T) | Failure(error: Error)
}
