/** Small shared vocabulary: raw bytes and an optional value. */
module Base {

  /** One octet of an attachment's payload. */
  newtype byte = x: int | 0 <= x < 256

  /** A value that may be absent, used for the outcome of decoding an image. */
  datatype Option<+T> = None | Some(value: T)
}
