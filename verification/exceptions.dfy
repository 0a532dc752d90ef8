/** Outcomes of the generator's operations: a value, or the Python exception
    the operation raises. */
module Exceptions {

  datatype Option<T> = None | Some(value: T)

  /** The exceptions the modelled code can raise on its own account. */
  datatype Exception =
    | ZeroDivisionError  // `len(data) / batch_size` with a zero batch size
    | IndexError         // `labels[ID]` for an ID past the end of the labels
    | TypeError          // iterating over an `aug_list` that is None
    | AxisError          // `np.flip` with an axis outside the buffer's dimensions

  datatype Result<T> = Ok(value: T) | Raise(exception: Exception)
}
