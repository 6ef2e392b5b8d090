/** A value that may be absent: the widget's "nothing chosen yet" (JavaScript null)
    and a number box whose text does not parse (NaN). */
module Wrappers {

  datatype Option<+T> = None | Some(value: T)
}
