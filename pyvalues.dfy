/**
 * Python-side values shared by the whole model: the objects an evaluator can
 * produce, their `type(...)`, and the exceptions the modelled code raises.
 */
module PyValues {

  datatype Option<+T> = None | Some(value: T)

  /** The exceptions the modelled code raises, with the data their messages carry. */
  datatype Exception =
    | ValueError(message: string)
    | IndexError(message: string)
    /** `AssertionError` whose message lists the missing template variables. */
    | AssertionError(missing: seq<string>)
    /** `ValueError("Model not found. Please choose the model from : <list>")`. */
    | ModelNotFound(allModels: seq<string>)
    /** An exception raised inside a collaborator this model treats as opaque. */
    | Raised(description: string)

  /** A computation that returns a value or raises. */
  datatype Result<+T> = Success(value: T) | Failure(error: Exception)

  /** The shapes of Python objects the parser and the prompt classes handle. */
  datatype PyValue =
    | PyNone
    | PyBool(b: bool)
    | PyInt(i: int)
    | PyStr(s: string)
    | PyList(items: seq<PyValue>)
    | PyTuple(items: seq<PyValue>)
    | PySet(items: seq<PyValue>)
    | PyDict(entries: seq<(PyValue, PyValue)>)
    /** Any other object (a float, a class instance, ...), known by its type name. */
    | PyObject(typeName: string, id: nat)

  /** What `type(x)` reports. */
  datatype TypeTag =
    | NoneType | BoolType | IntType | StrType | ListType | TupleType | SetType | DictType
    | OtherType(name: string)

  function TypeOf(v: PyValue): TypeTag
  {
    match v
    case PyNone => NoneType
    case PyBool(_) => BoolType
    case PyInt(_) => IntType
    case PyStr(_) => StrType
    case PyList(_) => ListType
    case PyTuple(_) => TupleType
    case PySet(_) => SetType
    case PyDict(_) => DictType
    case PyObject(name, _) => OtherType(name)
  }
}
