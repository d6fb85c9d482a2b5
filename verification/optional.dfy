/** A value that may be missing: a key absent from storage, a null id. */
module Optional {

  datatype Option<T> = None | Some(value: T)

}
