/** An optional value: Python's `Optional[...]` and JavaScript's `null`
    both become `None`. */
module Options {

  datatype Option<+T> = None | Some(value: T)
}
