/** The optional value used for the handle's unset fields and for the
    outcome of a chain of guards. */
module Wrappers {

  datatype Option<+T> = None | Some(value: T)

}
