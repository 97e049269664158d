/** Values shared by every module of the model. */
module Common {

  /** Rust's `Option<T>`. */
  datatype Option<+T> = None | Some(value: T)

  /** Rust's `anyhow::Result<()>`: the core only ever returns `Ok(())`. */
  datatype Outcome = Ok | Err(message: string)
}
