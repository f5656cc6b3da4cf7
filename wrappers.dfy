/** Option and Result, the failure-carrying values used throughout the model. */
module Wrappers {

  datatype Option<+T> = None | Some(value: T)

  datatype Result<+T, +E> = Ok(value: T) | Err(error: E)
}

/** The exceptions the script raises instead of returning a value. Any of them
    propagates out of `run` and ends the process before anything is saved. */
module Faults {

  datatype Fault =
      /** pandas refuses to build the filings table from arrays of different lengths */
    | ColumnLengthMismatch
      /** a label cell was found but `find_next_sibling('td')` gave None, so `.get_text` fails */
    | MissingValueCell(caption: string)
      /** no "Item C.2" heading follows a Part C heading, so `c2.find_next` fails */
    | MissingAmountHeading
}
