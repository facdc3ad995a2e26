/** The optional value returned where the PHP code returns `?object` (null or an object). */
module Wrappers {

  datatype Option<+T> = None | Some(value: T)

}
