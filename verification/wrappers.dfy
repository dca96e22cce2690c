/** The optional value used for a note's pattern tag and a template's empty slot. */
module Wrappers {

  /** `None` stands for TypeScript's `undefined`/`null`. */
  datatype Option<+T> = None | Some(value: T)
}
