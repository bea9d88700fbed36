/** Values shared by the loaders, the signal processor and the reporter:
    the scalars a parsed configuration document holds (and that the result
    record echoes as JSON), and the failures the pipeline raises on purpose. */
module Values {

  datatype Option<+T> = None | Some(value: T)

  /** A scalar of the configuration document, or of the JSON result record. */
  datatype Value =
    | Null
    | Bool(b: bool)
    | Int(i: int)
    | Real(x: real)
    | Str(s: string)

  /** A `ValueError` raised by one of the loaders; `message` is what `str(e)` yields. */
  datatype Error = ValueError(message: string)

  datatype Result<+T> = Ok(value: T) | Err(error: Error)
}
