/** Option and Result, the shapes used for Python's None and for raised exceptions. */
module Wrappers {

  datatype Option<+T> = None | Some(value: T)

  datatype Result<+R, +E> = Success(value: R) | Failure(error: E)
}

/** The values a raw source record may hold: a string, an integer or null. */
module Values {

  datatype Value = Str(s: string) | Int(i: int) | Null

  /** A raw record: source-specific field names to scalar values. */
  type Record = map<string, Value>
}
