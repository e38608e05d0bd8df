/** The optional value used wherever the application may or may not hold data. */
module Wrappers {

  /** `None` stands for JavaScript's `null`/`undefined`, or for "nothing happened". */
  datatype Option<+T> = None | Some(value: T)
}
