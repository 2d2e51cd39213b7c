/** Values that flow through a template: PHP scalars and arrays, the data
    context of a render, and the optional/outcome wrappers used for PHP's
    `null` and `false` sentinels and for thrown exceptions. */
module Values {

  /** A PHP value as far as the template executor passes it around. */
  datatype Value =
    | Str(s: string)
    | Int(i: int)
    | Bool(b: bool)
    | Arr(entries: seq<(string, Value)>)

  /** The data context of a render: an ordered PHP array, key to value. */
  type Data = seq<(string, Value)>

  type Name = string
  type Path = string

  /** `null` (or `false`) versus a real value. */
  datatype Option<T> = None | Some(value: T)

  /** A call that returns a value or throws. */
  datatype Result<T, E> = Success(value: T) | Failure(error: E)

  /** A call that returns nothing or throws. */
  datatype Outcome<E> = Pass | Fail(error: E)
}
