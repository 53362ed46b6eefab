/** The format-level vocabulary shared by the Code 128 decoders: the
    failure cases of src/barcode/format.rs and the two wrappers the
    decoders return. */
module Format {

  /** The conventional Some/None wrapper (Rust's `Option`). */
  datatype Option<+T> = None | Some(value: T)

  /** `format::Result<T>`: a value, or one of the format errors. */
  datatype Result<+T> = Ok(value: T) | Err(error: Error)

  /** Failure cases for encoding and decoding barcodes. The source builds
      message strings with `format!`; the model keeps only the variant and,
      for a decode failure, the offending symbol value. */
  datatype Error =
    | InvalidLength(length: nat)
    | BadFormat
    | EncodeErr
    | DecodeErr(symbol: nat)
}
