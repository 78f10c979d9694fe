/** The optional-value datatype shared by the other modules (JavaScript's
    `null`/`undefined` versus a present value). */
module Wrappers {

  datatype Option<+T> = None | Some(value: T)

}
