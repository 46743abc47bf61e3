/** The optional value used wherever pandas or peewee can hold "no value" (NaN, NaT, None). */
module Wrappers {

  datatype Option<+T> = None | Some(value: T)
}
