/** Failure-carrying values shared by every module of the model. */
module Wrappers {

  datatype Option<+T> = None | Some(value: T)

  /** What a JavaScript `throw` carries: an `Error` object with its message, or any other value. */
  datatype Thrown = Error(message: string) | NonError

  /** The settled state of a promise: resolved with a value, or rejected with what was thrown. */
  datatype Result<+T> = Ok(value: T) | Err(thrown: Thrown)

  /** `err instanceof Error ? err.message : fallback`, the idiom of every catch block. */
  function MessageOr(t: Thrown, fallback: string): string
  {
    match t
    case Error(m) => m
    case NonError => fallback
  }

  /** `message || fallback` on an optional string: absent and empty both give the fallback. */
  function TruthyOr(message: Option<string>, fallback: string): string
  {
    if message.Some? && message.value != "" then message.value else fallback
  }

  /** JavaScript truthiness of an optional string. */
  predicate IsTruthy(s: Option<string>)
  {
    s.Some? && s.value != ""
  }
}
