/**
 * The simple types: raw `str`, `int`, `float` and `bool` values used as
 * literal types, and those four classes themselves. Their JSON schemas,
 * JSON parsing and formatting, and binary parsing and formatting.
 */
module Simple {
  import opened Wrappers
  import opened Json
  import opened Errors
  import opened Classes
  import opened Context
  import Utf8
  import Text

  /** `validate_with_schema`: the value passes the schema, or ValidationError is raised. */
  function ValidateWithSchema(s: Schema, v: Value): (r: Res<()>)
    ensures r.Ok? <==> Validates(s, v)
    ensures r.Err? ==> r.error == ValidationFailed(v)
  {
    if Validates(s, v) then Ok(()) else Err(ValidationFailed(v))
  }

  /** `is_simple_type`: a raw literal of a simple kind, or one of the four classes. */
  predicate IsSimpleType(t: TypeArg)
  {
    t.Lit? || (t.Cls? && t.obj.BuiltinClass?)
  }

  /** The schema of each kind class: any string, an integer-only number, any number, a boolean. */
  function KindSchema(k: Kind): Schema
  {
    match k
    case KStr => StringS(None)
    case KInt => NumberS(true, None)
    case KFloat => NumberS(false, None)
    case KBool => BoolS
  }

  /** `get_simple_schema`: the constant schema for a literal, the kind's schema for a class. */
  function SimpleSchema(t: TypeArg): (s: Schema)
    requires IsSimpleType(t)
    ensures t.Lit? ==> forall v :: Validates(s, v) <==> JsonEqual(v, LiteralValue(t.lit))
    ensures t.Cls? ==> s == KindSchema(t.obj.k)
  {
    if t.Lit? then ConstS(LiteralValue(t.lit)) else KindSchema(t.obj.k)
  }

  /** `parse_simple_json_value`: validation against the simple schema, and the value unchanged. */
  function ParseSimpleJson(t: TypeArg, v: Value): (r: Res<Value>)
    requires IsSimpleType(t)
    ensures r.Ok? <==> Validates(SimpleSchema(t), v)
    ensures r.Ok? ==> r.value == v
    ensures r.Err? ==> r.error == ValidationFailed(v)
  {
    var _ :- ValidateWithSchema(SimpleSchema(t), v);
    Ok(v)
  }

  /**
   * `format_json_value` validates against the type object itself rather than
   * its schema. jsonschema reads a `bool` as the boolean schema (`True`
   * accepts everything, `False` nothing). For a string, `validator_for` asks
   * whether `"$schema"` occurs in it: if so it indexes the string with a
   * string (TypeError), otherwise `check_schema` rejects the string as an
   * invalid schema. An int, a float or a class cannot even be inspected.
   */
  function FormatSimpleJson(t: TypeArg, v: Value): (r: Res<Value>)
    requires IsSimpleType(t)
    ensures r.Ok? <==> t == Lit(LBool(true))
    ensures r.Ok? ==> r.value == v
    ensures t == Lit(LBool(false)) ==> r == Err(ValidationFailed(v))
    ensures t.Lit? && t.lit.LStr? ==> r == Err(if Text.Occurs("$schema", t.lit.s) then TypeError else SchemaInvalid)
    ensures !t.Lit? || t.lit.LInt? || t.lit.LFloat? ==> r == Err(TypeError)
  {
    match t
    case Lit(LBool(b)) => if b then Ok(v) else Err(ValidationFailed(v))
    case Lit(LStr(s)) => if Text.Occurs("$schema", s) then Err(TypeError) else Err(SchemaInvalid)
    case _ => Err(TypeError)
  }

  /** A string literal that mentions `$schema`, such as `"$schema"` itself, makes formatting raise TypeError. */
  lemma SchemaKeyLiteralFormatIsTypeError(v: Value)
    ensures FormatSimpleJson(Lit(LStr("$schema")), v) == Err(TypeError)
  {
    assert Text.SliceAt("$schema", 0, "$schema");
  }

  /** The empty string literal is rejected as an invalid schema. */
  lemma EmptyLiteralFormatIsSchemaInvalid(v: Value)
    ensures FormatSimpleJson(Lit(LStr("")), v) == Err(SchemaInvalid)
  {
  }

  /** The number a Python value stands for in `==`: ints, floats and bools compare as numbers. */
  function NumericValue(v: Value): Option<real>
  {
    match v
    case Int(i) => Some(i as real)
    case Bool(b) => Some(if b then 1.0 else 0.0)
    case Float(f) => Some(f)
    case _ => None
  }

  /** Python's `value == literal`. */
  predicate PyEquals(v: Value, l: Literal)
  {
    match l
    case LStr(s) => v == Str(s)
    case LInt(i) => NumericValue(v) == Some(i as real)
    case LFloat(f) => NumericValue(v) == Some(f)
    case LBool(b) => NumericValue(v) == Some(if b then 1.0 else 0.0)
  }

  /**
   * The error raised for a value that differs from its literal type: the
   * message formats both with `format_type`, which itself raises TypeError for
   * a float and for anything that is not a str, int or bool.
   */
  function MismatchError(l: Literal, v: Value): Error
  {
    if l.LFloat? || !(v.Str? || v.Int? || v.Bool?) then TypeError else ValueError
  }

  /**
   * `parse_simple_binary_value`. For a literal type the bytes themselves are
   * validated against the kind's JSON schema, which bytes never pass; `str`
   * decodes UTF-8 strictly; the other classes use their serialiser.
   */
  function ParseSimpleBinary(f: Foreign, t: TypeArg, data: seq<byte>): (r: Res<Value>)
    requires IsSimpleType(t)
    ensures t.Lit? ==> r == Err(ValidationFailed(Bytes(data)))
    ensures t == Cls(BuiltinClass(KStr)) ==> (r.Ok? <==> Utf8.Decode(data).Some?)
  {
    match t
    case Lit(l) =>
      (match ParseSimpleJson(Cls(BuiltinClass(KindOf(l))), Bytes(data))
       case Err(e) => Err(e)
       case Ok(v) => if PyEquals(v, l) then Ok(v) else Err(MismatchError(l, v)))
    case Cls(BuiltinClass(KStr)) =>
      (match Utf8.Decode(data)
       case None => Err(UnicodeDecode)
       case Some(s) => Ok(Str(s)))
    case Cls(BuiltinClass(k)) => f.deserialise(k, data)
  }

  /**
   * `format_simple_binary_value`. A literal type accepts only a value equal
   * to the literal and encodes it as the literal's kind; `str` requires a
   * string and encodes it as UTF-8; the other classes use their serialiser.
   */
  function FormatSimpleBinary(f: Foreign, t: TypeArg, v: Value): (r: Res<seq<byte>>)
    requires IsSimpleType(t)
    ensures t.Lit? && !PyEquals(v, t.lit) ==> r == Err(MismatchError(t.lit, v))
    ensures t.Lit? && PyEquals(v, t.lit) ==> r == FormatSimpleBinary(f, Cls(BuiltinClass(KindOf(t.lit))), v)
    ensures t == Cls(BuiltinClass(KStr)) ==> (r.Ok? <==> v.Str?)
    ensures t == Cls(BuiltinClass(KStr)) && v.Str? ==> r == Ok(Utf8.Encode(v.s))
    decreases t.Lit?
  {
    match t
    case Lit(l) =>
      if !PyEquals(v, l) then Err(MismatchError(l, v))
      else FormatSimpleBinary(f, Cls(BuiltinClass(KindOf(l))), v)
    case Cls(BuiltinClass(KStr)) =>
      if !v.Str? then Err(ValueError) else Ok(Utf8.Encode(v.s))
    case Cls(BuiltinClass(k)) => f.serialise(k, v)
  }

  // ---- properties ----

  /** Strings survive the binary encoding of `str`, for every string. */
  lemma StringBinaryRoundTrip(f: Foreign, s: string)
    ensures FormatSimpleBinary(f, Cls(BuiltinClass(KStr)), Str(s)).Ok?
    ensures ParseSimpleBinary(f, Cls(BuiltinClass(KStr)), FormatSimpleBinary(f, Cls(BuiltinClass(KStr)), Str(s)).value) == Ok(Str(s))
  {
    Utf8.DecodeEncode(s);
  }

  /** A string literal type encodes exactly its own string, as that string's UTF-8 bytes. */
  lemma StringLiteralBinary(f: Foreign, lit: string, v: Value)
    ensures FormatSimpleBinary(f, Lit(LStr(lit)), v) == if v == Str(lit) then Ok(Utf8.Encode(lit)) else Err(MismatchError(LStr(lit), v))
  {
  }

  /** Simple JSON parsing and the simple schema agree: a value parses iff it is valid, and comes back unchanged. */
  lemma LiteralJsonParse(l: Literal, v: Value)
    ensures ParseSimpleJson(Lit(l), v) == if JsonEqual(v, LiteralValue(l)) then Ok(v) else Err(ValidationFailed(v))
  {
  }

  /** `True` is not the integer 1 as JSON: the literal `1` rejects `true` although Python calls them equal. */
  lemma OneRejectsTrueAsJson()
    ensures ParseSimpleJson(Lit(LInt(1)), Bool(true)).Err?
    ensures PyEquals(Bool(true), LInt(1))
  {
  }

  /** The literal `1` accepts the JSON number `1.0`: jsonschema compares numbers by value. */
  lemma IntLiteralAcceptsEqualFloat(i: int)
    ensures ParseSimpleJson(Lit(LInt(i)), Float(i as real)) == Ok(Float(i as real))
    ensures ParseSimpleJson(Lit(LFloat(i as real)), Int(i)) == Ok(Int(i))
  {
    LiteralJsonParse(LInt(i), Float(i as real));
    LiteralJsonParse(LFloat(i as real), Int(i));
  }

  /** Integer-valued floats are JSON integers, so the `int` class accepts `2.0`; booleans are not numbers. */
  lemma IntClassJson(x: real, b: bool)
    ensures ParseSimpleJson(Cls(BuiltinClass(KInt)), Float(x)).Ok? <==> IsIntegral(x)
    ensures ParseSimpleJson(Cls(BuiltinClass(KInt)), Bool(b)).Err?
  {
  }
}
