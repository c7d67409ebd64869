/** Option and Result values: absent results and thrown exceptions of the PHP code. */
module Results {
  datatype Option<T> = None | Some(value: T)

  /** `Err` carries the message of the exception the PHP code throws. */
  datatype Result<T> = Ok(value: T) | Err(error: string)
}
