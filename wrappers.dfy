/** Small wrapper datatypes shared by the whole model. */
module Wrappers {

  /** A value that may be absent: a TypeScript optional field (`x?: T`) or a `T | null`. */
  datatype Option<+T> = None | Some(value: T) {

    /** The wrapped value, or `default` when there is none. */
    function GetOr(default: T): T
    {
      match this
      case Some(v) => v
      case None => default
    }
  }

  /**
   * What one awaited call into the evaluation service produced: the value it
   * resolved to, or `Failed` when it threw (network error, malformed JSON, ...).
   * The model never runs the service; every handler receives its answer as one
   * of these.
   */
  datatype Outcome<+T> = Ok(value: T) | Failed
}
