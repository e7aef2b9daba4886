/** A missing JavaScript value (null) and a thrown JavaScript error, as values. */
module Options {

  datatype Option<T> = None | Some(value: T)

  datatype Result<T> = Success(value: T) | Failure(error: string)
}
