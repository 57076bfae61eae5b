/** Option and Result values standing for Go's `(value, error)` return pairs,
    and the kinds of error the PayPal client can return. */
module Wrappers {

  datatype Option<+T> = None | Some(value: T)

  /** A Go error value. The client builds most of its errors with
      `errors.New` from a text; the JSON decoder and the HTTP transport
      produce their own, whose text is not part of this model. */
  datatype Error =
    | Failure(text: string)     // errors.New(text) or a panic with that text
    | Decode                    // the JSON decoder rejected the body
    | Transport(reason: string) // building, sending or reading the HTTP exchange failed
    | IndexOutOfRange           // Go's runtime panic on indexing an empty slice
    | NilDereference            // Go's runtime panic on reading a field through a nil pointer

  /** `Ok(v)` is Go's `(v, nil)`; `Err(e)` is Go's `(zero value, e)`:
      whenever the error is not nil the caller gets no usable value. */
  datatype Result<+T> = Ok(value: T) | Err(error: Error)
}
