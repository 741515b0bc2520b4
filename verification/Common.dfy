/** Identifiers, errors and the two failure-carrying datatypes shared by every model. */
module Common {

  datatype Option<+T> = None | Some(value: T)

  datatype Result<+T, +E> = Ok(value: T) | Err(error: E) {
    predicate IsFailure() {
      Err?
    }

    function PropagateFailure<U>(): Result<U, E>
      requires Err?
    {
      Err(error)
    }

    function Extract(): T
      requires Ok?
    {
      value
    }
  }

  /** The success value of a `Result` that carries nothing. */
  datatype Unit = Unit

  /** The error identifiers the modelled code raises itself. */
  datatype ErrorId =
    | PeerUnavailable
    | ConnectionLost
    | ProtocolViolation
    | UnsupportedVersion
    | DecodeFailure
    | SendTimeout
    | BlobAckWindowExceeded
    | BlobStreamMissingChunk
    | BlobBufferFull
    | BlobStreamNotFound
    | BlobStreamIdleTimeout
    | OtherError(code: nat)

  type PeerMessageId = nat
  type CallisId = nat
  type MessageType = nat
  type Instant = int
  type Byte = b: nat | b < 256
  type Bytes = seq<Byte>
}
