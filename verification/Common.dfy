/** Types shared by every component. */
module Common {

  datatype Option<+T> = None | Some(value: T)

  datatype Result<+T, +E> = Ok(value: T) | Err(error: E)

  /** A row id. The runtime draws UUIDs; the model numbers rows from one counter, so ids are never reused. */
  type Id = nat
}
