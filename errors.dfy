/** Outcomes of the clock's operations: a value, or the Python exception
    that the source would raise at that point. */
module Errors {

  datatype Option<+T> = None | Some(value: T)

  /** The exceptions main.py can raise inside its core. Each one ends
      `draw_clock`, because nothing in the source catches them. */
  datatype Failure =
    | MalformedDate     // ValueError from split/unpack/int() in date_to_timestamp
    | UnpackMismatch    // ValueError: three values unpacked into four names
    | ZeroDivision      // ZeroDivisionError from `/` or `%` by zero
    | FloatRange        // TypeError: range() given a float
    | NoComponents      // IndexError: config['components'][0] of an empty list
    | MissingPosition   // KeyError: the first component has no 'position'
    | FormatSpec        // ValueError: a negative precision in an f-string

  datatype Result<+T> = Ok(value: T) | Err(failure: Failure)
}
