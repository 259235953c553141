/** The conventional optional value, used for keys that a PHP argument array may or may not hold. */
module Wrappers {

  datatype Option<+T> = None | Some(value: T)
}
