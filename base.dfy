// Shared vocabulary: bytes, optional values, results, and the errors the
// request pipeline can produce or pass along.

module Base {

  /** A Go `byte`. */
  type byte = x: int | 0 <= x < 256

  /** A Go `[]byte`; also the bytes of a Go `string`. */
  type Bytes = seq<byte>

  /** A value that may be missing (a Go nil interface or nil pointer). */
  datatype Option<+T> = None | Some(value: T)

  /** The outcome of an operation that may fail with an error. */
  datatype Result<+T, +E> = Success(value: T) | Failure(error: E)

  /** The errors that reach the request pipeline. */
  datatype Error =
      /** The body is not JSON text (encoding/json's SyntaxError). */
    | SyntaxError
      /** Unmarshalling the empty string ("unexpected end of JSON input"). */
    | UnexpectedEnd
      /** A JSON value of the wrong kind for a typed Go destination (UnmarshalTypeError). */
    | UnmarshalType
      /** A failed unchecked type assertion `x.(T)` on the value under `key`: a Go panic. */
    | TypeAssertion(key: string)
      /** hex.InvalidByteError: a byte that is not a hexadecimal digit. */
    | InvalidByte(b: byte)
      /** hex.ErrLength: an odd number of hexadecimal digits. */
    | OddLength
      /** json.Marshal refusing a value (a channel, a function, a NaN inside an `any`). */
    | UnsupportedValue
      /** An error made outside the modelled code: a command handler, the HTTP call. */
    | Failed(message: string)
  {
    /** A panic unwinds the whole invocation instead of being returned as an error. */
    predicate IsPanic() {
      TypeAssertion?
    }
  }
}
