/** Option and Result, and the failures of the vector and line code that the model covers. */
module Wrappers {

  datatype Option<+T> = None | Some(value: T)

  /** One constructor per modelled failure, each named after its cause and commented with the Python exception. */
  datatype Error =
    | EmptyCoordinates   // ValueError('The coordinates must be nonempty') from the Vector constructor
    | NotIterable        // TypeError: an argument that is not a list with a length
    | UnpackMismatch     // ValueError: unpacking coordinates into the wrong number of names
    | NoNonzeroElements  // Exception('No nonzero elements found') from first_nonzero_index
    | IndexOutOfRange    // IndexError: list assignment index out of range
    | NoAttribute        // AttributeError: a method called on None or on a plain list
    | DivisionByZero     // decimal.DivisionByZero: a non-zero number divided by zero
    | DivisionUndefined  // decimal.InvalidOperation: zero divided by zero

  datatype Result<+T> = Ok(value: T) | Err(error: Error)
}
