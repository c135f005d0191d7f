/** The optional-value datatype used throughout the model: `None` stands for a
    JavaScript `null`/`undefined`, `Some(v)` for a present value. */
module Wrappers {

  datatype Option<+T> = None | Some(value: T)
}
