/** Failure-carrying datatypes shared by the whole model.

    The Go code ends the process in two ways: `log.Fatal`/`log.Fatalf`
    (exit status 1 after logging) and `os.Exit(res)` with the resolver's
    own status. Both become explicit outcomes here, so every function of
    the model is total and its callers can see how it ended. */
module Wrappers {

  datatype Option<+T> = None | Some(value: T)

  /** Why a `log.Fatal` fired. The message text is not modelled, only the
      condition that triggered it and the path it names. */
  datatype FatalReason =
    | JreNotFound
    | ConfigLoaderJarNotFound
    | StatFailed(path: string)
    | AbsFailed(path: string)
    | RemoveFailed(path: string)
    | MkdirFailed(path: string)
    | WriteFailed(path: string)
    | EffectiveWithoutConfigJson
    | LocalWithoutEffective

  /** How a step of the resolution ended: normally with a value, through
      `log.Fatal`, or through `os.Exit(code)`. Usable with `:-`. */
  datatype Outcome<+T> = Ok(value: T) | Fatal(reason: FatalReason) | Exit(code: int) {

    predicate IsFailure() {
      !Ok?
    }

    function PropagateFailure<U>(): Outcome<U>
      requires !Ok?
    {
      if Fatal? then Fatal(reason) else Exit(code)
    }

    function Extract(): T
      requires Ok?
    {
      value
    }
  }
}
