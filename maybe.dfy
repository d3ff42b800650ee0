/** The optional value used for "index of the element a scan stopped at". */
module Maybe {
  datatype Option<T> = None | Some(value: T)
}
