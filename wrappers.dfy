/** The optional value used wherever the rule reads a property that may be absent
    (`x?.y` in JavaScript). */
module Wrappers {

  datatype Option<+T> = None | Some(value: T)
}
