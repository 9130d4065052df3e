/** The one optional-value type the model needs: `undefined`, `null` and NaN results become None. */
module Wrappers {

  datatype Option<+T> = None | Some(value: T)
}
