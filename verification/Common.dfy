/** Types shared by every component. */
module Common {

  /** File content. */
  type Bytes = seq<bv8>

  datatype Option<+T> = None | Some(value: T)
}
