/** Small failure-carrying datatypes shared by the lobes. */
module Wrappers {

  datatype Option<+T> = None | Some(value: T)

  /** The `cortical::Result<()>` of a lobe step: it either succeeds or fails with an error. */
  datatype Outcome<+E> = Pass | Fail(error: E)
}
