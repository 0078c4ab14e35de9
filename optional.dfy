/** The usual optional value, standing for a JavaScript `null` or an absent animation. */
module Optional {

  datatype Option<+T> = None | Some(value: T)
}
