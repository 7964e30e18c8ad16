/** An optional value: what `document.querySelector` and `Array.prototype.find` give back
    when nothing may match. */
module Wrappers {

  datatype Option<+T> = None | Some(value: T)
}
