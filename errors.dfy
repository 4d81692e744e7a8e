/**
 * The exception classes the core raises or catches, as one error datatype:
 * Python's own `ValueError` and `ConnectionError`, the application's
 * `ValidationError`, `ServiceUnavailableError` and its subclass
 * `TooManyRequestsError`, `ConfigurationError`, and the Braket server's
 * `CircuitCreationError`. `Other` stands for any exception no handler names.
 */
module Errors {

  datatype Exc =
    | ValueError(msg: string)
    | ConnectionError(msg: string)
    | ValidationError(msg: string)
    | ServiceUnavailable(msg: string)
    | TooManyRequests(msg: string)
    | ConfigurationError(msg: string)
    | CircuitCreationError(msg: string)
    | Other(msg: string)
  {
    /** `isinstance(e, ServiceUnavailableError)`: the rate limiter's error is a subclass. */
    predicate IsServiceUnavailable() { ServiceUnavailable? || TooManyRequests? }
  }
}
