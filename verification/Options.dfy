// The two shapes of partial result the project uses: Go's "value or nil" and
// "value or error".
module Options {
  datatype Option<+T> = None | Some(value: T)

  datatype Result<+T> = Ok(value: T) | Err(reason: string)
}
