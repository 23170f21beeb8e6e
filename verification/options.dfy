/** Optional values: the model's stand-in for a Python attribute that may be `None`. */
module Options {

  datatype Option<+T> = None | Some(value: T)
}
