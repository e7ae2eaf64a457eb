/** The optional value used for modal outcomes that may be absent
    (no current selection, no colour handed back by the picker) and for
    a store file that may not exist. */
module Wrappers {
  datatype Option<+T> = None | Some(value: T)
}
