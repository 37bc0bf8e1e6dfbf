/** The conventional Some/None datatype, standing for a Go pointer that may be
    nil and for a Python argument that may be None. */
module Optional {

  datatype Option<+T> = None | Some(value: T)
}
