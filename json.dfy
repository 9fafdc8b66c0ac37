/** JSON values as Python's json module hands them to the pipeline, with the
    few Python behaviours of those values that the pipeline relies on. */
module Json {

  import opened Wrappers

  /** A decoded JSON document. Python keeps `int` and `float` apart, so the
      model does too; an object is a dict from keys to values. */
  datatype Json =
    | JNull
    | JBool(b: bool)
    | JInt(i: int)
    | JFloat(x: real)
    | JStr(s: string)
    | JArr(items: seq<Json>)
    | JObj(fields: map<string, Json>)

  /** The empty list, the default of every `data.get(key, [])`. */
  const EmptyList: Json := JArr([])

  /** Python truthiness (`if not companies`): None, False, zero, and the empty
      string, list and dict are false; everything else is true. */
  predicate Truthy(v: Json) {
    match v
    case JNull => false
    case JBool(b) => b
    case JInt(i) => i != 0
    case JFloat(x) => x != 0.0
    case JStr(s) => s != []
    case JArr(items) => items != []
    case JObj(fields) => fields != map[]
  }

  /** The Python classes of decoded values. */
  datatype PyType = NoneType | BoolType | IntType | FloatType | StrType | ListType | DictType

  /** `type(v)` */
  function TypeOf(v: Json): PyType {
    match v
    case JNull => NoneType
    case JBool(_) => BoolType
    case JInt(_) => IntType
    case JFloat(_) => FloatType
    case JStr(_) => StrType
    case JArr(_) => ListType
    case JObj(_) => DictType
  }

  /** The class name, as it appears in the text of AttributeError and
      TypeError. */
  function TypeName(t: PyType): string {
    match t
    case NoneType => "NoneType"
    case BoolType => "bool"
    case IntType => "int"
    case FloatType => "float"
    case StrType => "str"
    case ListType => "list"
    case DictType => "dict"
  }

  /** The exceptions the pipeline can raise. */
  datatype Failure =
      /** the ValueError raised when every JSON extraction strategy fails */
    | MalformedOutput(message: string)
      /** an exception raised by the text-generation service call itself */
    | ServiceRaised(message: string)
      /** AttributeError: `.get` called on a value that is not a dict */
    | NoAttributeGet(receiver: PyType)
      /** TypeError: slicing `v[:n]` a number, a boolean or None */
    | NotSubscriptable(receiver: PyType)
      /** TypeError: slicing a dict, which looks the slice up as a key */
    | UnhashableSlice
      /** TypeError: `for x in v` over a value that cannot be iterated */
    | NotIterable(receiver: PyType)

  /** `str(e)` for each failure. */
  function Message(f: Failure): string {
    match f
    case MalformedOutput(m) => m
    case ServiceRaised(m) => m
    case NoAttributeGet(t) => "'" + TypeName(t) + "' object has no attribute 'get'"
    case NotSubscriptable(t) => "'" + TypeName(t) + "' object is not subscriptable"
    case UnhashableSlice => "unhashable type: 'slice'"
    case NotIterable(t) => "'" + TypeName(t) + "' object is not iterable"
  }

  /** `data.get(key, [])`: a dict yields the key's value or the empty list;
      any other value has no `get` and raises. */
  function GetOrEmpty(data: Json, key: string): (r: Result<Json, Failure>)
    ensures r.Ok? <==> data.JObj?
    ensures r.Ok? && key !in data.fields ==> r.value == EmptyList
    ensures r.Ok? && key in data.fields ==> r.value == data.fields[key]
  {
    match data
    case JObj(fields) => Ok(if key in fields then fields[key] else EmptyList)
    case _ => Err(NoAttributeGet(TypeOf(data)))
  }

  /** Python's `s[:n]` on a sequence, negative `n` included. */
  function PyPrefix<T>(s: seq<T>, n: int): (r: seq<T>)
    ensures r <= s
    ensures n >= 0 ==> |r| == Min(n, |s|)
    ensures n < 0 ==> |r| == Max(0, |s| + n)
  {
    if n >= 0 then s[..Min(n, |s|)] else s[..Max(0, |s| + n)]
  }

  /** `v[:n]`: lists and strings are cut to a prefix; a dict takes the
      slice for a key, which cannot be hashed; a number, a boolean or None
      cannot be subscripted at all. */
  function SlicePrefix(v: Json, n: int): (r: Result<Json, Failure>)
    ensures r.Ok? <==> v.JArr? || v.JStr?
  {
    match v
    case JArr(items) => Ok(JArr(PyPrefix(items, n)))
    case JStr(s) => Ok(JStr(PyPrefix(s, n)))
    case JObj(_) => Err(UnhashableSlice)
    case _ => Err(NotSubscriptable(TypeOf(v)))
  }

  /** The error each unsliceable value raises, with its text: a dict
      rejects the slice as a key, anything else is not subscriptable. */
  lemma SliceFailures(v: Json, n: int)
    ensures v.JObj? ==>
              && SlicePrefix(v, n) == Err(UnhashableSlice)
              && Message(SlicePrefix(v, n).error) == "unhashable type: 'slice'"
    ensures !v.JArr? && !v.JStr? && !v.JObj? ==>
              && SlicePrefix(v, n) == Err(NotSubscriptable(TypeOf(v)))
              && Message(SlicePrefix(v, n).error) == "'" + TypeName(TypeOf(v)) + "' object is not subscriptable"
  {
  }
}
