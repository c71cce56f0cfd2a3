/** Value wrappers shared by every module of the model. */
module Base {

  /** A value that may be missing: `null`/`undefined` in the source. */
  datatype Option<+T> = None | Some(value: T) {

    /** The value, or `default` when it is missing. */
    function GetOr(default: T): T {
      match this
      case Some(v) => v
      case None => default
    }
  }

  /** The outcome of awaiting a backend call: it either resolves with a value
      or rejects (a transport failure, an unparsable body, a thrown error). */
  datatype Call<+T> = Returned(value: T) | Threw
}
