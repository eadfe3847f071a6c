/**
 * The exceptions the core raises, as one closed datatype. Python's built-in
 * exceptions (TypeError, AttributeError, ...) appear under their own names; the
 * library's own exceptions carry the data their constructors keep.
 */
module Errors {
  import opened Wrappers
  import opened Json

  datatype Error =
    | WrongNumberOfTypeArgs(typeName: string, passed: nat, required: nat)
    | IsNotSubtype                              // its constructor keeps neither argument
    | UnknownTypeName(name: string)
    | TypeParsing(text: string)
    | NotInitialised
    | Expectation(expectedSlot: Value, received: Value)
    | SchemaInvalid                             // jsonschema's SchemaError
    | ValidationFailed(value: Value)            // jsonschema's ValidationError
    | NoUniqueValue                             // "Couldn't get unique value ..."
    | NoVName(name: string)                     // "Couldn't extract name/version from V-name ..."
    | UnicodeDecode
    | TypeError
    | AttributeError
    | KeyError
    | IndexError
    | ValueError
    | NotImplemented
    | RecursionError                            // a property that reads itself

  type Res<T> = Result<T, Error>

  /** Apply `f` to each element in order; the first failure is raised. */
  function MapAll<A, B>(f: A -> Res<B>, xs: seq<A>): (r: Res<seq<B>>)
    ensures r.Ok? <==> forall i :: 0 <= i < |xs| ==> f(xs[i]).Ok?
    ensures r.Ok? ==> |r.value| == |xs| && forall i :: 0 <= i < |xs| ==> r.value[i] == f(xs[i]).value
    ensures r.Err? ==> exists i :: 0 <= i < |xs| && f(xs[i]).Err? && r.error == f(xs[i]).error
                                   && forall j :: 0 <= j < i ==> f(xs[j]).Ok?
  {
    if |xs| == 0 then Ok([])
    else
      match f(xs[0])
      case Err(e) => Err(e)
      case Ok(y) =>
        var rest := MapAll(f, xs[1..]);
        assert forall i :: 0 < i < |xs| ==> xs[i] == xs[1..][i - 1];
        match rest
        case Err(e) => Err(e)
        case Ok(ys) => Ok([y] + ys)
  }
}
