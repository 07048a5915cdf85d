/** A nullable value, used where the engine passes `Card?` (a possibly absent card). */
module Wrappers {
  datatype Option<+T> = None | Some(value: T)
}
