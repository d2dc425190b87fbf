/**
 * The interface of the identifier library the extension calls
 * (`validateJMBG`, `decodeJMBG`). Its algorithm is not part of this model:
 * an `Oracle` is any pair of functions with these types.
 */
module Jmbg {
  import opened Wrappers

  /** The library's `InvalidReason` enumeration. */
  datatype InvalidReason =
    | NotString
    | MustContainExactly13Digits
    | InvalidDate
    | InvalidControlNumber

  /** `ValidationResult`: valid, or invalid with a reason. */
  datatype ValidationResult = Passed | Failed(reason: InvalidReason)

  /** `PersonData` as the decoder returns it; `place` may be missing or empty. */
  datatype PersonData = PersonData(
    day: int, month: int, year: int,
    place: Option<string>, region: string, gender: string)

  datatype Oracle = Oracle(validate: string -> ValidationResult, decode: string -> PersonData)
}
