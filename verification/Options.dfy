// The optional value the other modules share: a value that may be nil, a
// lookup that may miss.
module Options {
  datatype Option<+T> = None | Some(value: T)
}
