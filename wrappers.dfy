/** Option and Result, the failure-carrying types used throughout the model. */
module Wrappers {

  datatype Option<+T> = None | Some(value: T)

  datatype Result<+T, +E> = Success(value: T) | Failure(error: E)

  /** Every way the modelled Python code raises instead of returning. */
  datatype Error =
    | UnknownFileType(name: string)  // analyze_data / calculate_score: no rule for the file name
    | MissingField(key: string)      // row[key] on a row without that column (KeyError)
    | MalformedDate(text: string)    // parse_date / fromisoformat found no matching format
    | MalformedInt(text: string)     // int() on a non-integer string
    | MissingSetting(key: string)    // a profile or configuration key read without a default
    | UnboundDateRange               // `date_range_days` read before it was assigned
    | DivisionByZero                 // average over an empty sample
    | LengthMismatch                 // pack_scores: the two lists differ in length
    | MetadataOutOfRange             // pack_scores: a metadata score outside 0..255
    | ValidationOutOfRange           // pack_scores: a validation score outside 0..255
    | NotHex(text: string)           // unpack_scores: int(text, 16) failed
}
