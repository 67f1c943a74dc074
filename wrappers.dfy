/** An optional value: the model of a C# nullable value or a null reference. */
module Wrappers {
  datatype Option<+T> = None | Some(value: T)
}
