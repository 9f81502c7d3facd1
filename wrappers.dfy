/** Optional values: a missing snapshot, a number that did not parse,
    a date that did not parse, a record that is not there. */
module Wrappers {

  datatype Option<+T> = None | Some(value: T)
}
