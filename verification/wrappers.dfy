/** Optional values, standing for the nullable references and failable initialisers of the source. */
module Wrappers {

  datatype Option<+T> = None | Some(value: T)
}
