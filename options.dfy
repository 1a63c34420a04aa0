/** Optional values and results: a Java reference that may be null, or a
    step that either yields a value or names why it gave up. */
module Options {

  datatype Option<+T> = None | Some(value: T)

  datatype Result<+T, +E> = Ok(value: T) | Err(error: E)
}
