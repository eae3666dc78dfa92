/** The Python exceptions the modelled code can raise, and a result type that
    carries either a value or the exception that replaced it. */
module Results {

  datatype PyError =
    | UnboundLocalError   // a local read before any assignment reached it
    | IndexError          // subscript of an empty list
    | NameError           // reference to a name that is not defined
    | ZeroDivisionError   // integer floor division by zero
    | AssertionError      // a failed `assert` statement
    | ValueError          // numpy refused a reshape
    | RuntimeError        // torch refused to allocate a tensor of negative size

  datatype Result<+T> = Ok(value: T) | Err(error: PyError)
}
