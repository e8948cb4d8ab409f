/** Values shared by every module: optional values, results, and the exceptions the
    Python code can raise, carried next to the state that was reached before raising. */
module Outcomes {

  datatype Option<T> = None | Some(value: T)

  /** The Python exceptions the modelled code can raise. */
  datatype Fault =
    | IndexError      // list index out of range, or too few pieces after a split
    | ValueError      // int() of a non-numeral, or unpacking a split with too few pieces
    | AttributeError  // attribute lookup on None (no regex match, no socket yet)
    | KeyError        // dictionary lookup of a missing key
    | OSError         // sendto() on a closed socket

  datatype Result<T> = Ok(value: T) | Err(fault: Fault)

  /** The state an operation leaves behind, and the exception it raised, if any.
      An operation that raises part-way keeps the changes made before the raise. */
  datatype Effect<S> = Effect(state: S, raised: Option<Fault>)
}
