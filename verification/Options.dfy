/** Option and reply types shared by every component. */
module Options {
  datatype Option<+T> = None | Some(value: T)

  /** The answer of a store call: a value, or an error reply that the caller turns into "unavailable". */
  datatype Reply<+T> = Ok(value: T) | Err
}
