/** A value that may be absent, standing for JavaScript's `undefined`: a reducer handed no
    prior state, or a selector that falls off its `switch`. */
module Optional {

  datatype Option<T> = None | Some(value: T)
}
