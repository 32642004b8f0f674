/** The configuration errors the spinner reports, one constructor per message. */
module Errors {

  datatype Error =
    | UnknownColorLevel(level: int)
    | UnsupportedColorLevel(level: int)
    | OrderNotThreeUnique(given: seq<int>)
    | OrderWrongIdentifiers(given: seq<int>)
    | UnknownVariant(variant: int)
    | CharSetTooBig(size: nat)
    | AmbiguousWidths(chars: seq<string>, widths: seq<nat>)
    | IntervalTooSmall(interval: int)
    | IntervalTooBig(interval: int)
    | PrefixTooLong(width: nat)
    | EllipsisTooLong(width: nat)

  /** A value, or the error that prevented it (Go's `(T, error)` pair). */
  datatype Result<+T> = Ok(value: T) | Err(error: Error)

  /** A check that passed, or the error it reports (Go's bare `error`). */
  datatype Outcome = Pass | Fail(error: Error)
}
