/** Option and Result values: the model's stand-in for Python's `None`
    defaults and for the exceptions the bot raises and catches. */
module Results {

  datatype Option<+T> = None | Some(value: T)

  datatype Result<+R, +E> = Success(value: R) | Failure(error: E)
}
