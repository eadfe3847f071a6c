/**
 * The value encodings of the concrete type classes: each instance's JSON
 * schema, its JSON parsing and formatting, its binary parsing and formatting,
 * the finite types' enumerations and the server-resident types' listing.
 *
 * The functions dispatch on the instance's class as Python's method lookup
 * does; a class that neither defines nor inherits a method raises
 * AttributeError, and the abstract bases' methods raise NotImplementedError.
 * The `json_schema` property of the abstract JSON bases, of Domain and of
 * DockerImage names itself in its own error message (`self.json_schema`
 * inside the property), so reading it recurses until Python raises
 * RecursionError; the model returns that error.
 * `self.validate_with_schema(value)` is taken to validate the value against
 * the instance's own `json_schema`.
 */
module Protocol {
  import opened Wrappers
  import opened Json
  import opened Errors
  import opened Classes
  import opened Registry
  import opened Context
  import opened Expect
  import Simple
  import Servers
  import Engine
  import Utf8

  /**
   * `PretrainedModel.instance_class` as written: it indexes the domain and
   * framework arguments and reads the framework's `instance_class`. Only
   * PretrainedModel defines that attribute, and a framework argument is never
   * a PretrainedModel, so the specialised class is never built.
   */
  function SpecialisedInstanceClass(args: seq<TypeArg>): (r: Res<InstanceClass>)
    ensures |args| < 2 ==> r == Err(IndexError)
    ensures |args| >= 2 && !(args[1].Inst? && args[1].cls == PretrainedModelC) ==> r == Err(AttributeError)
  {
    if |args| < 2 then Err(IndexError) else Err(AttributeError)
  }

  /**
   * What reaching a type method through something other than a type instance
   * raises: a bare UFDL class gives an unbound call that lacks its argument,
   * and raw values and builtin classes have no such method at all.
   */
  function NotAnInstance(t: TypeArg): Error
  {
    if t.Cls? && t.obj.UfdlClass? then TypeError else AttributeError
  }

  predicate IsJobOutput(t: TypeArg)
  {
    t.Inst? && t.cls == JobOutputC
  }

  // ---- schemas that do not depend on type arguments ----

  /** `ValueType.json_schema`: any string, number or boolean. */
  const ValueTypeSchema := AnyOfS([StringS(None), NumberS(false, None), BoolS])

  /** `Framework.json_schema`: a strict object of two strings of at most 32 characters. */
  const FrameworkSchema :=
    ObjectS([Property("name", StringS(Some(32))), Property("version", StringS(Some(32)))], ["name", "version"], FalseS)

  /** The validation schemas of the two strict record classes. */
  function RecordSchema(kind: RecordKind): (s: Schema)
    ensures s.ObjectS? && s.additional == FalseS
  {
    var pk := Property("pk", NumberS(true, Some(1)));
    match kind
    case CUDAVersionInstance =>
      ObjectS([pk, Property("version", NumberS(false, None)), Property("full_version", StringS(Some(16))),
               Property("min_driver_version", StringS(Some(16)))],
              ["version", "full_version", "min_driver_version"], FalseS)
    case HardwareInstance =>
      ObjectS([pk, Property("generation", StringS(None)), Property("min_compute_capability", NumberS(false, None)),
               Property("max_compute_capability", NumberS(false, None))],
              ["generation", "min_compute_capability", "max_compute_capability"], FalseS)
  }

  /**
   * `isinstance(size_type.value(), int)`: the size an array's size argument
   * fixes, if any; `True` and `False` are 1 and 0. The `LBool` case is
   * unreachable from a constructed `Array`, whose size bound `Integer()`
   * admits no boolean literal; it is kept so the function mirrors `isinstance`.
   */
  function FixedSize(attr: Engine.ValueAttr): Option<int>
  {
    match attr
    case LiteralValue(LInt(n)) => Some(n)
    case LiteralValue(LBool(b)) => Some(if b then 1 else 0)
    case _ => None
  }

  /** `regular_array(items)`, with `min_elements` and `max_elements` both `n` for a fixed size; a negative count is not a valid schema. */
  function ArraySchema(items: Schema, size: Option<int>): (r: Res<Schema>)
    ensures r.Ok? <==> size.None? || size.value >= 0
    ensures r.Ok? ==> r.value.ArrayS? && r.value.items == items
  {
    match size
    case None => Ok(ArrayS(items, None, None))
    case Some(n) => if n < 0 then Err(SchemaInvalid) else Ok(ArrayS(items, Some(n), Some(n)))
  }

  /** `self.validate_with_schema(value); return value`. */
  function Validated(schema: Res<Schema>, v: Value): (r: Res<Value>)
    ensures r.Ok? <==> schema.Ok? && Validates(schema.value, v)
    ensures r.Ok? ==> r.value == v
    ensures schema.Err? ==> r == Err(schema.error)
    ensures schema.Ok? && !Validates(schema.value, v) ==> r == Err(ValidationFailed(v))
  {
    var s :- schema;
    var _ :- Simple.ValidateWithSchema(s, v);
    Ok(v)
  }

  // ---- the finite types' enumerations ----

  /** `extract_name_from_json` called on the sub-type of a `Name`. */
  function ExtractNameOf(sub: TypeArg, row: Value): Res<Value>
  {
    if sub.Inst? then Servers.ExtractName(sub.cls, row) else Err(NotAnInstance(sub))
  }

  /**
   * `list_all_json_values()`: the `pk` field of each of the sub-type's rows for
   * `PK`, their extracted names for `Name`, and just `None` for `Nothing`. The
   * sub-type's own rows come from code outside this model.
   */
  function ListAllJsonValues(cx: Ctx, t: TypeArg): Res<seq<Value>>
  {
    match t
    case Inst(PKC, args) =>
      var sub :- Servers.Arg(args, 0);
      var rows :- cx.foreign.listAllJson(sub);
      MapAll((row: Value) => Servers.Field(row, "pk"), rows)
    case Inst(NameC, args) =>
      var sub :- Servers.Arg(args, 0);
      var rows :- cx.foreign.listAllJson(sub);
      MapAll((row: Value) => ExtractNameOf(sub, row), rows)
    case Inst(NothingC, _) => Ok([Null])
    case Inst(FiniteJSONC, _) => Err(NotImplemented)
    case Inst(_, _) => Err(AttributeError)
    case _ => Err(NotAnInstance(t))
  }

  // ---- schemas, JSON, binary and listing, which call one another ----

  /** `json_schema` of a type instance. */
  function JsonSchemaOf(cx: Ctx, t: TypeArg): (r: Res<Schema>)
    decreases t, if IsJobOutput(t) then 4 else 0
    ensures r.Ok? && t.Inst? && t.cls == ArrayC ==> r.value.ArrayS?
    ensures r.Ok? && t.Inst? && t.cls == MapC ==> r.value.ObjectS?
  {
    match t
    case Inst(c, args) =>
      (match c
       case ValueTypeC => Ok(ValueTypeSchema)
       case KindC(k) => Ok(Simple.KindSchema(k))
       case LitC(l) => Ok(ConstS(LiteralValue(l)))
       case IntegerC => Ok(NumberS(true, None))
       case BooleanC => Ok(BoolS)
       case StringC => Ok(StringS(None))
       case ArrayC =>
         var (element, size) :- Servers.Pair(args);
         var attr :- Engine.ValueOf(size);
         var items :- JsonSchemaOf(cx, element);
         ArraySchema(items, FixedSize(attr))
       case MapC =>
         var element :- Servers.Arg(args, 0);
         var additional :- JsonSchemaOf(cx, element);
         Ok(ObjectS([], [], additional))
       case PKC =>
         var values :- ListAllJsonValues(cx, t);
         Ok(EnumS(values))
       case NameC =>
         var values :- ListAllJsonValues(cx, t);
         Ok(EnumS(values))
       case NothingC => Ok(NullS)
       case JobOutputC =>
         var outputs :- ListAllValues(cx, t);
         var pks :- MapAll((o: Value) => Servers.Field(o, "pk"), outputs);
         Ok(EnumS(pks))
       case FrameworkC => Ok(FrameworkSchema)
       case CUDAVersionC => Ok(RecordSchema(CUDAVersionInstance))
       case HardwareC => Ok(RecordSchema(HardwareInstance))
       case PretrainedModelC =>
         var ic :- SpecialisedInstanceClass(args);
         ic.schema(t)
       case UFDLTypeC => Err(AttributeError)
       case UFDLBinaryC => Err(AttributeError)
       case BLOBC => Err(AttributeError)
       case ModelC => Err(AttributeError)
       case _ => Err(RecursionError))         // the abstract JSON bases, DockerImage and Domain: see above
    case _ => Err(NotAnInstance(t))
  }

  /** `parse_json_value` of a type instance. */
  function ParseJson(cx: Ctx, t: TypeArg, v: Value): (r: Res<Value>)
    decreases t, 2
  {
    match t
    case Inst(c, args) =>
      (match c
       case ValueTypeC => Validated(JsonSchemaOf(cx, t), v)
       case KindC(_) => Validated(JsonSchemaOf(cx, t), v)
       case LitC(_) => Validated(JsonSchemaOf(cx, t), v)
       case IntegerC => if IsInstance(v, IntType) then Ok(v) else Err(ValueError)
       case BooleanC => if IsInstance(v, BoolType) then Ok(v) else Err(ValueError)
       case StringC => if IsInstance(v, StrType) then Ok(v) else Err(ValueError)
       case ArrayC =>
         var _ :- Validated(JsonSchemaOf(cx, t), v);
         var element :- Servers.Arg(args, 0);
         var elems :- MapAll((x: Value) => ParseJson(cx, element, x), v.items);
         Ok(Tuple(elems))
       case MapC =>
         var _ :- Validated(JsonSchemaOf(cx, t), v);
         var entries :- MapAll((e: Entry) => ParseEntry(cx, t, e), v.entries);
         Ok(Dict(entries))
       case PKC =>
         var _ :- ExpectValue(OneType(IntType), v);
         var sub :- Servers.Arg(args, 0);
         var results :- cx.foreign.filteredJson(sub, Exact("pk", v));
         if |results| != 1 then Err(NoUniqueValue)
         else Err(TypeError)                  // `value[0]` on the int itself
       case NameC =>
         var _ :- ExpectValue(OneType(StrType), v);
         var sub :- Servers.Arg(args, 0);
         cx.foreign.valueByName(sub, v.s)
       case NothingC => Validated(JsonSchemaOf(cx, t), v)
       case JobOutputC =>
         if !IsInstance(v, IntType) then Err(ValueError)
         else
           var output :- Servers.Arg(args, 0);
           if output.Lit? || (output.Cls? && output.obj.BuiltinClass?) then Err(AttributeError)
           else
             var data :- cx.backend.download("JobOutput", IntValue(v));
             ParseBinary(cx, output, data)
       case DockerImageC => Validated(JsonSchemaOf(cx, t), v)
       case FrameworkC => Validated(JsonSchemaOf(cx, t), v)
       case CUDAVersionC => FromRawJson(CUDAVersionInstance, v)
       case HardwareC => FromRawJson(HardwareInstance, v)
       case PretrainedModelC =>
         var ic :- SpecialisedInstanceClass(t.args);
         ic.fromRaw(t, v)
       case UFDLTypeC => Err(AttributeError)
       case UFDLBinaryC => Err(AttributeError)
       case BLOBC => Err(AttributeError)
       case ModelC => Err(AttributeError)
       case _ => Err(NotImplemented))         // `UFDLJSONType.parse_json_value`: the abstract bases and Domain
    case _ => Err(NotAnInstance(t))
  }

  /** One `key: self.type_args[0].parse_json_value(sub_value)` of a map's dict comprehension. */
  function ParseEntry(cx: Ctx, t: TypeArg, e: Entry): (r: Res<Entry>)
    requires t.Inst?
    decreases t, 1
    ensures r.Ok? ==> r.value.key == e.key
  {
    var element :- Servers.Arg(t.args, 0);
    var x :- ParseJson(cx, element, e.val);
    Ok(Entry(e.key, x))
  }

  /** `format_python_value_to_json` of a type instance. */
  function FormatJson(cx: Ctx, t: TypeArg, v: Value): (r: Res<Value>)
    decreases t, 2
  {
    match t
    case Inst(c, args) =>
      (match c
       case ValueTypeC => Validated(JsonSchemaOf(cx, t), v)
       case KindC(_) => Validated(JsonSchemaOf(cx, t), v)
       case LitC(_) => Validated(JsonSchemaOf(cx, t), v)
       case IntegerC => Ok(v)
       case BooleanC => Ok(v)
       case StringC => Ok(v)
       case ArrayC =>
         var _ :- ExpectValue(OneType(TupleType), v);
         var (element, size) :- Servers.Pair(args);
         var attr :- Engine.ValueOf(size);
         var n := FixedSize(attr);
         if n.Some? && |v.elems| != n.value then Err(ValueError)
         else
           var items :- MapAll((x: Value) => FormatJson(cx, element, x), v.elems);
           Ok(List(items))
       case MapC =>
         var _ :- ExpectValue(OneType(DictType), v);
         var _ :- MapAll((e: Entry) => ExpectValue(OneType(StrType), e.key), v.entries);
         var pairs :- MapAll((e: Entry) => FormatKey(cx, t, e.key), v.entries);
         Ok(Dict(DictOf(pairs)))
       case PKC => Validated(JsonSchemaOf(cx, t), v)
       case NameC => Validated(JsonSchemaOf(cx, t), v)
       case NothingC =>
         var _ :- ExpectValue(NotAType, v);   // `expect(None, value)`: `isinstance(value, None)` raises
         Ok(v)
       case JobOutputC => Err(NotImplemented)
       case DockerImageC => Validated(JsonSchemaOf(cx, t), v)
       case FrameworkC => Ok(v)
       case CUDAVersionC => ToRawJson(CUDAVersionInstance, v)
       case HardwareC => ToRawJson(HardwareInstance, v)
       case PretrainedModelC =>
         var ic :- SpecialisedInstanceClass(t.args);
         ic.toRaw(t, v)
       case _ => Err(AttributeError))         // no class on the way up defines it
    case _ => Err(NotAnInstance(t))
  }

  /**
   * One step of `{key: ... for key, sub_value in value}` in `Map`'s formatting:
   * iterating a dict yields its keys, so each key string is unpacked into two
   * characters, the first becoming the key and the second the value formatted.
   */
  function FormatKey(cx: Ctx, t: TypeArg, key: Value): (r: Res<Entry>)
    requires t.Inst?
    decreases t, 1
    ensures r.Ok? ==> key.Str? && |key.s| == 2 && r.value.key == Str([key.s[0]])
  {
    if !(key.Str? && |key.s| == 2) then Err(ValueError)
    else
      var element :- Servers.Arg(t.args, 0);
      var x :- FormatJson(cx, element, Str([key.s[1]]));
      Ok(Entry(Str([key.s[0]]), x))
  }

  /** `parse_binary_value` of a type instance: JSON types decode UTF-8 text and parse the JSON it holds. */
  function ParseBinary(cx: Ctx, t: TypeArg, data: seq<byte>): (r: Res<Value>)
    decreases t, 3
  {
    match t
    case Inst(c, _) =>
      if c == BLOBC then Ok(Bytes(data))
      else if c == ModelC then ExpectValue(TypeTuple([BytesType, BufferedIOBaseType]), Bytes(data))
      else if Descends(c, UFDLJSONC) then
        match Utf8.Decode(data)
        case None => Err(UnicodeDecode)
        case Some(text) =>
          var loaded :- cx.foreign.jsonLoads(text);
          ParseJson(cx, t, loaded)
      else Err(NotImplemented)
    case _ => Err(NotAnInstance(t))
  }

  /** `ServerResidentType.list_all_values`: one backend listing, each row parsed by the type itself. */
  function ListAllValues(cx: Ctx, t: TypeArg): (r: Res<seq<Value>>)
    decreases t, 3
  {
    if !t.Inst? then Err(NotAnInstance(t))
    else
      var table :- Servers.TableName(t.cls);
      var rules :- Servers.FilterRules(cx.tables, t.cls, t.args);
      var rows :- cx.backend.list(table, rules);
      MapAll((row: Value) => ParseJson(cx, t, row), rows)
  }

  // ---- helpers of the encodings above ----

  /** The int a value passes as when `isinstance(value, int)` holds. */
  function IntValue(v: Value): int
  {
    match v
    case Bool(b) => if b then 1 else 0
    case Int(i) => i
    case _ => 0
  }

  /** `from_raw_json` of a strict record class: the raw JSON validated, kept inside the record. */
  function FromRawJson(kind: RecordKind, v: Value): (r: Res<Value>)
    ensures r.Ok? <==> Validates(RecordSchema(kind), v)
    ensures r.Ok? ==> r.value == Record(kind, v)
  {
    var _ :- Simple.ValidateWithSchema(RecordSchema(kind), v);
    Ok(Record(kind, v))
  }

  /** `expect(RecordClass, value); return value.to_raw_json()`. */
  function ToRawJson(kind: RecordKind, v: Value): (r: Res<Value>)
    ensures r.Ok? <==> v.Record? && v.kind == kind
    ensures r.Ok? ==> r.value == v.raw
    ensures r.Err? ==> r.error == Expectation(v, v)
  {
    var _ :- ExpectValue(OneType(RecordType(kind)), v);
    Ok(v.raw)
  }

  /** `d[k] = x` on a dict given as its entries: an existing key keeps its place and takes the new value. */
  function DictSet(entries: seq<Entry>, e: Entry): (r: seq<Entry>)
    ensures Lookup(r, e.key) == Some(e.val)
    ensures forall k :: k != e.key ==> Lookup(r, k) == Lookup(entries, k)
  {
    if |entries| == 0 then [e]
    else if entries[0].key == e.key then [e] + entries[1..]
    else [entries[0]] + DictSet(entries[1..], e)
  }

  /** The dict a comprehension builds from its key-value pairs, later pairs overwriting earlier ones. */
  function DictOf(pairs: seq<Entry>): (r: seq<Entry>)
    ensures forall k :: Lookup(r, k).Some? <==> exists i :: 0 <= i < |pairs| && pairs[i].key == k
  {
    if |pairs| == 0 then []
    else
      var init := pairs[..|pairs| - 1];
      assert forall i :: 0 <= i < |init| ==> init[i] == pairs[i];
      DictSet(DictOf(init), pairs[|pairs| - 1])
  }

  /** `format_python_value` (to binary): only BLOB and Model define it. */
  function FormatBinary(t: TypeArg, v: Value): (r: Res<Value>)
    ensures r.Ok? ==> r.value == v
  {
    match t
    case Inst(BLOBC, _) => Ok(v)
    case Inst(ModelC, _) => ExpectValue(TypeTuple([BytesType, BufferedIOBaseType]), v)
    case Inst(_, _) => Err(NotImplemented)
    case _ => Err(NotAnInstance(t))
  }
}
