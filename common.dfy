/** Shared vocabulary: optional values, results, and the Python values that flow through
    task declarations, ambient contexts and run records. */
module Common {

  datatype Option<+T> = None | Some(value: T)

  /** The outcome of an operation that may raise: `Err` carries the exception. */
  datatype Result<+T, +E> = Ok(value: T) | Err(error: E)

  /** A `datetime.timedelta`, kept exactly as a number of microseconds. */
  datatype Duration = Duration(microseconds: int)

  /** `timedelta(minutes=1)`. */
  const OneMinute: Duration := Duration(60 * 1000 * 1000)

  /** A Python function object (a trigger, for instance), known by its qualified name. */
  datatype Callable = Callable(qualifiedName: string)

  /** A UUID, known by its canonical text, which is what `str()` returns for it. */
  datatype Uuid = Uuid(text: string)

  /** The Python values that reach the model: task descriptions and defaults, parameter values,
      the entries of a serialized task. */
  datatype Value =
    | NoneValue
    | BoolValue(b: bool)
    | IntValue(i: int)
    | StrValue(s: string)
    | DeltaValue(d: Duration)
    | CallableValue(f: Callable)
    | ListValue(items: seq<Value>)
    | DictValue(entries: map<string, Value>)
}
