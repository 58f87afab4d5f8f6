/** Small datatypes shared by every module of the model. */
module Common {

  /** Python's `None`-or-value. */
  datatype Option<+T> = None | Some(value: T)

  /** The outcome of an operation that either completes or raises an exception. */
  datatype Outcome<+T> = Done(value: T) | Raised(error: PyError)

  /** The Python exceptions the modelled code raises itself. */
  datatype PyError =
    | AssertionError(message: string)
    | ValueError
    | KeyError(key: string)
    | AttributeError(name: string)
    | IndexError
    | TypeError

  /** A byte, as Python's `bytes` holds them. */
  type Byte = bv8
  type Bytes = seq<Byte>
}
