/** A Java reference that may be null: `None` stands for null. */
module Nullable {

  datatype Option<T> = None | Some(value: T)
}
