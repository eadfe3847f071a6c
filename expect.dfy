/**
 * The `expect` guard: a value is returned unchanged when it is an instance of
 * the expected type (or of any type in a tuple of types), and otherwise an
 * ExpectationError is raised that is built from the received value twice.
 */
module Expect {
  import opened Wrappers
  import opened Json
  import opened Errors

  /** The Python classes the core passes to `isinstance`. */
  datatype PyType =
    | StrType | IntType | BoolType | FloatType | BytesType | BufferedIOBaseType
    | ListType | TupleType | DictType | RecordType(kind: RecordKind)

  /** The second argument of `isinstance`: a class, a tuple of classes, or something else (such as `None`). */
  datatype Expected = OneType(t: PyType) | TypeTuple(ts: seq<PyType>) | NotAType

  /** `isinstance(v, t)`; `bool` is a subclass of `int`. */
  predicate IsInstance(v: Value, t: PyType)
  {
    match t
    case StrType => v.Str?
    case IntType => v.Int? || v.Bool?
    case BoolType => v.Bool?
    case FloatType => v.Float?
    case BytesType => v.Bytes?
    case BufferedIOBaseType => v.Stream?
    case ListType => v.List?
    case TupleType => v.Tuple?
    case DictType => v.Dict?
    case RecordType(k) => v.Record? && v.kind == k
  }

  /** `expect(expected, v)`; `isinstance` itself raises TypeError when `expected` is not a class or tuple of classes. */
  function ExpectValue(expected: Expected, v: Value): (r: Res<Value>)
    ensures expected.NotAType? ==> r == Err(TypeError)
    ensures expected.OneType? ==> (r.Ok? <==> IsInstance(v, expected.t))
    ensures expected.TypeTuple? ==> (r.Ok? <==> exists i :: 0 <= i < |expected.ts| && IsInstance(v, expected.ts[i]))
    ensures r.Ok? ==> r.value == v
    ensures r.Err? && !expected.NotAType? ==> r.error == Expectation(v, v)
  {
    match expected
    case NotAType => Err(TypeError)
    case OneType(t) => if IsInstance(v, t) then Ok(v) else Err(Expectation(v, v))
    case TypeTuple(ts) =>
      if exists i :: 0 <= i < |ts| && IsInstance(v, ts[i]) then Ok(v) else Err(Expectation(v, v))
  }

  /** A tuple of one class behaves as the class itself. */
  lemma SingletonTupleIsTheType(t: PyType, v: Value)
    ensures ExpectValue(TypeTuple([t]), v) == ExpectValue(OneType(t), v)
  {
    if IsInstance(v, t) {
      assert IsInstance(v, [t][0]);
    }
  }
}
