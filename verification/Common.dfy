/** Small types that several modules share. */
module Common {

  datatype Option<T> = None | Some(value: T)

  /** The two docstring delimiters. */
  datatype Quote = Double | Single

  const DOUBLE_QUOTES := "\"\"\""
  const SINGLE_QUOTES := "'''"
}
