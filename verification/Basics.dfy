/** Small types shared by the modules. */
module Basics {
  datatype Option<+T> = None | Some(value: T)
}
