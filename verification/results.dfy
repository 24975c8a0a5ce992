/** Option and Result wrappers, and the exceptions the modelled code raises. */
module Results {

  /** A value that may be absent, such as an unset environment variable. */
  datatype Option<+T> = None | Some(value: T)

  /** The outcome of an operation that may raise. */
  datatype Result<+T, +E> = Ok(value: T) | Err(error: E)

  /** The Python exceptions the modelled code can raise. */
  datatype Failure =
    | NoWeatherData   // a parser got an empty (falsy) API section
    | IndexError      // a requested field has no variable in the API response
    | KeyError        // a daily series has no entry for the requested date
    | NotAMapping     // a value used as a dict is not one: AttributeError from .items(), TypeError from [...]
    | ValueError      // an invalid logger severity
}
