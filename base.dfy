/** Values shared by every module: an optional value, and the host's Math
    functions the generator reads. */
module Base {
  datatype Option<T> = None | Some(value: T)

  /** The three functions of the host's Math object the generator calls.
      Their values are not modelled: every result holds for whatever
      functions these are, unless a lemma says what it assumes of them. */
  datatype MathLib = MathLib(sin: real -> real, cos: real -> real, sqrt: real -> real)
}
