/** Outcome types for the two Python exceptions the domino code can raise. */
module Results {

  /** The exceptions the source raises: a dictionary lookup that misses
      (unknown symbol or unknown mode) and a list index out of range. */
  datatype Error = KeyError(key: string) | IndexError(index: int)

  datatype Result<+T> = Ok(value: T) | Err(error: Error)
}
