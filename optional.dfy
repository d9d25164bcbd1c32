/** The usual optional value, standing for a JavaScript field or result that
    may be `undefined`. */
module Optional {

  datatype Option<+T> = None | Some(value: T)
}
