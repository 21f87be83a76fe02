/** The exceptions the stream can raise or record, and the outcome of an operation that may throw. */
module Failures {

  /** The kinds of exception the stream deals in. Messages are not modelled; a `WriteFailed`
      carries the ordered list of the failures of every attempt. */
  datatype Exception =
    | ConnectException          // the connection was refused or the host could not be reached
    | EOFException              // the peer closed the connection (a write or read reported -1)
    | IOFailure                 // any other failure of a call into the socket layer
    | SelectFailed              // `select()` returned without any selected key
    | InterruptedIOException    // the thread was interrupted during the one-second back-off
    | WriteFailed(causes: seq<Exception>)  // every attempt of a write failed
    | IllegalStateException     // `connect` while a channel is present
    | IllegalArgumentException  // the constructor was given a try count below one
    | IndexOutOfBoundsException // `write(bytes, off, len)` with a range outside the array

  /** The checked exceptions: those a `catch (IOException e)` catches. */
  predicate IsIOException(e: Exception)
  {
    !(e.IllegalStateException? || e.IllegalArgumentException? || e.IndexOutOfBoundsException?)
  }

  /** `getCause()` of a failure: the aggregated error of a write names its first attempt's failure. */
  function Cause(e: Exception): (c: Option<Exception>)
    ensures c.Some? <==> e.WriteFailed? && |e.causes| > 0
    ensures c.Some? ==> c.value == e.causes[0]
  {
    if e.WriteFailed? && |e.causes| > 0 then Some(e.causes[0]) else None
  }

  datatype Option<T> = None | Some(value: T)

  /** The outcome of a `void` operation. */
  datatype Status = Normal | Threw(error: Exception)

  /** The outcome of an operation that returns a value. */
  datatype Result<T> = Ok(value: T) | Err(error: Exception)
}
