/** Results of the metadata resolver: a value, or the error that the resolver
    propagates to its caller instead of guessing a value. */
module Outcomes {

  /** Why no metadata could be produced.
      - StructuralError(key): the raw record lacks `key`, or `key` holds a value
        of the wrong shape (a parent matching neither encoding, a page without
        exactly one title-typed property).
      - UnsupportedTitle: a title made of zero or several rich-text fragments;
        only single-fragment titles are defined by this model.
      - UserLookupFailed: the user directory did not answer. */
  datatype Error = StructuralError(key: string) | UnsupportedTitle | UserLookupFailed

  datatype Option<+T> = None | Some(value: T)

  datatype Result<+T> = Ok(value: T) | Err(error: Error)
  {
    predicate IsFailure() {
      Err?
    }

    function PropagateFailure<U>(): Result<U>
      requires Err?
    {
      Err(error)
    }

    function Extract(): T
      requires Ok?
    {
      value
    }
  }
}
