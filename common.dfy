/** Values shared by the modules of the benchmark client model: optional values,
    results that carry a Python exception instead of a value, and the exceptions
    the modelled code can raise. */
module Common {

  datatype Option<T> = None | Some(value: T)

  datatype Result<T, E> = Success(value: T) | Failure(error: E)

  /** The Python exceptions raised along the modelled paths. */
  datatype PyError =
    | ValueError(message: string)   // unknown backend, oversized sample, negative exponential scale
    | KeyError(key: string)         // missing dictionary key
    | IndexError                    // `[0]` on an empty list
    | ZeroDivisionError             // `1.0 / request_rate` with a zero rate
}
