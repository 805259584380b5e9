/** Optional values, used wherever the source returns NULL for "nothing there". */
module Options {

  datatype Option<+T> = None | Some(value: T)
}
