/** The crate-level error of the save library, restricted to the variants its core produces. */
module Errors {
  import opened Binary

  datatype Error =
    | DeserializationFailed(cause: DecodeError)
    | LevelIdOutOfRange
    | LevelNameNotFound
    | ScarfMaxLength
    | ScarfMinLength
    | ScarfTooLong
    | SymbolIdOutOfRange
}
