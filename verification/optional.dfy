/** The optional value used by the parsers and by the handler's record of
    what it sent upstream. */
module Optional {

  datatype Option<+T> = None | Some(value: T)
}
