/** The optional value used where the stores return `undefined` or hold `null`. */
module Options {
  datatype Option<T> = None | Some(value: T)
}
