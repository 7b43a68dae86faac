/** The optional value the TypeScript code writes as `T | undefined`. */
module Optional {
  datatype Option<+T> = None | Some(value: T)
}
