/** Failure-compatible values shared by every configurator, and the JSON
    configuration files the configurators read once and rewrite on every change. */
module Common {

  datatype Option<+T> = None | Some(value: T)

  /** The two exceptions the configurators can raise: a missing dictionary key
      (`KeyNotFoundException`) and a dereferenced null node or delegate
      (`NullReferenceException`). */
  datatype Error = KeyNotFound | NullReference

  /** Result of a lookup that may throw. */
  datatype Result<+T> = Ok(value: T) | Err(error: Error)

  /** Result of an operation that may throw part-way. */
  datatype Outcome = Pass | Fail(error: Error)

  /** A configuration file on disk, seen through its parsed JSON content.
      Every save overwrites the whole content; serialisation is not modelled. */
  class ConfigFile<T> {
    var content: T

    constructor (initial: T)
      ensures content == initial
    {
      content := initial;
    }
  }
}
