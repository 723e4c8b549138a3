/** Values that may be missing: a nullable column, an optional object, `NaN`. */
module Common {

  datatype Option<+T> = None | Some(value: T)
}
