/** A value that may be missing (`null` / `undefined` on the JavaScript side). */
module Options {

  datatype Option<+T> = None | Some(value: T)
}
