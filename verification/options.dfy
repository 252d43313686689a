/** The absent-or-present value used for JavaScript `undefined`, SQL NULL and JSON null in replies. */
module Options {

  datatype Option<+T> = None | Some(value: T)
}
