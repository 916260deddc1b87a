/** The optional value used wherever the source has `string | null`. */
module Options {

  datatype Option<+T> = None | Some(value: T)
}
