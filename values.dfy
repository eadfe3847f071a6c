/**
 * What the concrete value-carrying classes promise: the value types and the
 * standard `Integer`, `Boolean` and `String` classes, the `Framework` record,
 * the strict CUDA-version and hardware records, the binary-only `BLOB` and
 * `Model`, JSON carried as UTF-8 bytes, the classes that encode nothing, and
 * which instances are abstract.
 */
module Values {
  import opened Wrappers
  import opened Json
  import opened Errors
  import opened Classes
  import opened Context
  import opened Expect
  import opened Protocol
  import Engine
  import Utf8
  import Containers

  // ---- validation against a strict object schema ----

  /** Some property of `props` names the entry's key, and the entry's value passes that property's schema. */
  predicate Conforms(props: seq<Property>, e: Entry)
  {
    exists j :: 0 <= j < |props| && e.key == Str(props[j].name) && Validates(props[j].schema, e.val)
  }

  /**
   * An object schema that admits no additional properties, and whose property
   * names are distinct, accepts exactly the dicts that hold every required key
   * and whose every entry is one of the listed properties with a valid value.
   */
  lemma StrictObjectValidates(props: seq<Property>, required: seq<string>, v: Value)
    requires forall j, k :: 0 <= j < k < |props| ==> props[j].name != props[k].name
    ensures Validates(ObjectS(props, required, FalseS), v) <==>
      && v.Dict?
      && (forall n :: n in required ==> Lookup(v.entries, Str(n)).Some?)
      && forall i :: 0 <= i < |v.entries| ==> Conforms(props, v.entries[i])
  {
    if v.Dict? && Validates(ObjectS(props, required, FalseS), v) {
      forall i | 0 <= i < |v.entries| ensures Conforms(props, v.entries[i]) {
        assert !Validates(FalseS, v.entries[i].val);
        assert !(forall j :: 0 <= j < |props| ==> v.entries[i].key != Str(props[j].name));
        var j :| 0 <= j < |props| && v.entries[i].key == Str(props[j].name);
        assert Validates(props[j].schema, v.entries[i].val);
      }
    }
    if v.Dict? && (forall i :: 0 <= i < |v.entries| ==> Conforms(props, v.entries[i])) {
      forall i, j | 0 <= i < |v.entries| && 0 <= j < |props| && v.entries[i].key == Str(props[j].name)
        ensures Validates(props[j].schema, v.entries[i].val)
      {
        var k :| 0 <= k < |props| && v.entries[i].key == Str(props[k].name) && Validates(props[k].schema, v.entries[i].val);
        assert props[k].name == props[j].name;
      }
    }
  }

  /** In a strict object whose property names are distinct, an entry named after property `j` passes property `j`'s schema. */
  lemma ConformsNamed(props: seq<Property>, e: Entry, j: int)
    requires forall j, k :: 0 <= j < k < |props| ==> props[j].name != props[k].name
    requires 0 <= j < |props| && e.key == Str(props[j].name) && Conforms(props, e)
    ensures Validates(props[j].schema, e.val)
  {
    var k :| 0 <= k < |props| && e.key == Str(props[k].name) && Validates(props[k].schema, e.val);
    assert props[k].name == props[j].name;
  }

  /** A strict object's entry named after property `j` passes that property's schema. */
  lemma StrictObjectField(props: seq<Property>, required: seq<string>, v: Value, i: int, j: int)
    requires Validates(ObjectS(props, required, FalseS), v)
    requires v.Dict? && 0 <= i < |v.entries| && 0 <= j < |props| && v.entries[i].key == Str(props[j].name)
    ensures Validates(props[j].schema, v.entries[i].val)
  {
  }

  /** A strict object holds every required key. */
  lemma StrictObjectRequired(props: seq<Property>, required: seq<string>, v: Value, n: string)
    requires Validates(ObjectS(props, required, FalseS), v) && n in required
    ensures v.Dict? && Lookup(v.entries, Str(n)).Some?
  {
  }

  /** A dict with a key that names none of the properties is not a strict object. */
  lemma StrictObjectUnlisted(props: seq<Property>, required: seq<string>, v: Value, i: int)
    requires v.Dict? && 0 <= i < |v.entries|
    requires forall j :: 0 <= j < |props| ==> v.entries[i].key != Str(props[j].name)
    ensures !Validates(ObjectS(props, required, FalseS), v)
  {
    assert !Validates(FalseS, v.entries[i].val);
  }

  /** The classes whose JSON parsing is `validate_with_schema` followed by returning the value. */
  lemma ParseIsValidation(cx: Ctx, c: ClassId, args: seq<TypeArg>, v: Value)
    requires c.ValueTypeC? || c.KindC? || c.LitC? || c in {NothingC, FrameworkC, DockerImageC}
    ensures ParseJson(cx, Inst(c, args), v) == Validated(JsonSchemaOf(cx, Inst(c, args)), v)
  {
  }

  /** The record classes parse with `from_raw_json`. */
  lemma ParseIsFromRaw(cx: Ctx, c: ClassId, kind: RecordKind, args: seq<TypeArg>, v: Value)
    requires (c == CUDAVersionC && kind == CUDAVersionInstance) || (c == HardwareC && kind == HardwareInstance)
    ensures ParseJson(cx, Inst(c, args), v) == FromRawJson(kind, v)
  {
  }

  // ---- value types ----

  /** Value types parse and format alike: both validate against the instance's schema and return the value unchanged. */
  lemma ValueTypeParseIsFormat(cx: Ctx, c: ClassId, args: seq<TypeArg>, v: Value)
    requires c.ValueTypeC? || c.KindC? || c.LitC?
    ensures ParseJson(cx, Inst(c, args), v) == FormatJson(cx, Inst(c, args), v)
    ensures ParseJson(cx, Inst(c, args), v).Ok? <==> Validates(JsonSchemaOf(cx, Inst(c, args)).value, v)
    ensures ParseJson(cx, Inst(c, args), v).Ok? ==> ParseJson(cx, Inst(c, args), v).value == v
  {
  }

  /** The unconstrained value type takes any string, number or boolean, and nothing else. */
  lemma ValueTypeAcceptsScalars(cx: Ctx, v: Value)
    ensures ParseJson(cx, Inst(ValueTypeC, []), v).Ok? <==> v.Str? || v.Int? || v.Float? || v.Bool?
  {
    ParseIsValidation(cx, ValueTypeC, [], v);
    var alts := [StringS(None), NumberS(false, None), BoolS];
    if v.Str? { assert Validates(alts[0], v); }
    if v.Int? || v.Float? { assert Validates(alts[1], v); }
    if v.Bool? { assert Validates(alts[2], v); }
  }

  /** A literal value type accepts exactly the values jsonschema counts as equal to its literal. */
  lemma LiteralAcceptsEqualValues(cx: Ctx, l: Literal, v: Value)
    ensures ParseJson(cx, Inst(LitC(l), []), v).Ok? <==> JsonEqual(v, LiteralValue(l))
  {
  }

  /** The `int` kind accepts ints and integral floats but not booleans. */
  lemma IntKindParse(cx: Ctx, v: Value)
    ensures ParseJson(cx, Inst(KindC(KInt), []), v).Ok? <==> v.Int? || (v.Float? && IsIntegral(v.f))
  {
    ParseIsValidation(cx, KindC(KInt), [], v);
  }

  /** The `float` kind accepts every number, integral or not, but not booleans. */
  lemma FloatKindParse(cx: Ctx, v: Value)
    ensures ParseJson(cx, Inst(KindC(KFloat), []), v).Ok? <==> v.Int? || v.Float?
  {
    ParseIsValidation(cx, KindC(KFloat), [], v);
  }

  // ---- Integer, Boolean and String ----

  /** `Integer` accepts exactly the Python ints (booleans included), and raises ValueError otherwise. */
  lemma IntegerParse(cx: Ctx, args: seq<TypeArg>, v: Value)
    ensures ParseJson(cx, Inst(IntegerC, args), v) == if v.Int? || v.Bool? then Ok(v) else Err(ValueError)
  {
  }

  /** `Boolean` accepts exactly the booleans, and raises ValueError otherwise. */
  lemma BooleanParse(cx: Ctx, args: seq<TypeArg>, v: Value)
    ensures ParseJson(cx, Inst(BooleanC, args), v) == if v.Bool? then Ok(v) else Err(ValueError)
  {
  }

  /** `String` accepts exactly the strings, and raises ValueError otherwise. */
  lemma StringParse(cx: Ctx, args: seq<TypeArg>, v: Value)
    ensures ParseJson(cx, Inst(StringC, args), v) == if v.Str? then Ok(v) else Err(ValueError)
  {
  }

  /** They format any value unchanged, checking nothing. */
  lemma StandardFormatIsIdentity(cx: Ctx, c: ClassId, args: seq<TypeArg>, v: Value)
    requires c == IntegerC || c == BooleanC || c == StringC
    ensures FormatJson(cx, Inst(c, args), v) == Ok(v)
  {
  }

  /**
   * As written, `Integer` parses by `isinstance(value, int)` while its schema is
   * an integer-only number: `true` parses but fails the schema, and `2.0`
   * passes the schema but does not parse.
   */
  lemma IntegerParseDisagreesWithSchema(cx: Ctx, args: seq<TypeArg>)
    ensures JsonSchemaOf(cx, Inst(IntegerC, args)) == Ok(NumberS(true, None))
    ensures ParseJson(cx, Inst(IntegerC, args), Bool(true)).Ok? && !Validates(NumberS(true, None), Bool(true))
    ensures ParseJson(cx, Inst(IntegerC, args), Float(2.0)).Err? && Validates(NumberS(true, None), Float(2.0))
  {
    assert IsIntegral(2.0) by { assert (2.0).Floor == 2; }
  }

  /**
   * Wherever parsing is validation (value types, `Boolean`, `String`,
   * `Nothing`, `Framework` and the two records) a value parses exactly when it
   * passes the instance's own schema.
   */
  lemma ParseAcceptsExactlyTheSchema(cx: Ctx, c: ClassId, args: seq<TypeArg>, v: Value)
    requires c.ValueTypeC? || c.KindC? || c.LitC? || c in {BooleanC, StringC, NothingC, FrameworkC, CUDAVersionC, HardwareC}
    ensures JsonSchemaOf(cx, Inst(c, args)).Ok?
    ensures ParseJson(cx, Inst(c, args), v).Ok? <==> Validates(JsonSchemaOf(cx, Inst(c, args)).value, v)
  {
    if c.ValueTypeC? || c.KindC? || c.LitC? || c in {NothingC, FrameworkC} {
      ValidatingParseAcceptsSchema(cx, c, args, v);
    } else if c == BooleanC || c == StringC {
      ScalarParseAcceptsSchema(cx, c, args, v);
    } else {
      RecordParseAcceptsSchema(cx, c, args, v);
    }
  }

  lemma ValidatingParseAcceptsSchema(cx: Ctx, c: ClassId, args: seq<TypeArg>, v: Value)
    requires c.ValueTypeC? || c.KindC? || c.LitC? || c in {NothingC, FrameworkC}
    ensures JsonSchemaOf(cx, Inst(c, args)).Ok?
    ensures ParseJson(cx, Inst(c, args), v).Ok? <==> Validates(JsonSchemaOf(cx, Inst(c, args)).value, v)
  {
    ParseIsValidation(cx, c, args, v);
  }

  lemma ScalarParseAcceptsSchema(cx: Ctx, c: ClassId, args: seq<TypeArg>, v: Value)
    requires c == BooleanC || c == StringC
    ensures JsonSchemaOf(cx, Inst(c, args)).Ok?
    ensures ParseJson(cx, Inst(c, args), v).Ok? <==> Validates(JsonSchemaOf(cx, Inst(c, args)).value, v)
  {
    if c == BooleanC {
      BooleanParse(cx, args, v);
    } else {
      StringParse(cx, args, v);
    }
  }

  lemma RecordParseAcceptsSchema(cx: Ctx, c: ClassId, args: seq<TypeArg>, v: Value)
    requires c == CUDAVersionC || c == HardwareC
    ensures JsonSchemaOf(cx, Inst(c, args)).Ok?
    ensures ParseJson(cx, Inst(c, args), v).Ok? <==> Validates(JsonSchemaOf(cx, Inst(c, args)).value, v)
  {
    if c == CUDAVersionC {
      ParseIsFromRaw(cx, c, CUDAVersionInstance, args, v);
    } else {
      ParseIsFromRaw(cx, c, HardwareInstance, args, v);
    }
  }

  // ---- Framework ----

  /** One entry of a framework record: the key `name` or `version`, and a string of at most 32 characters. */
  predicate IsFrameworkEntry(e: Entry)
  {
    (e.key == Str("name") || e.key == Str("version")) && e.val.Str? && |e.val.s| <= 32
  }

  /** A framework in JSON: both keys present and nothing but framework entries. */
  predicate IsFrameworkJson(v: Value)
  {
    && v.Dict?
    && Lookup(v.entries, Str("name")).Some?
    && Lookup(v.entries, Str("version")).Some?
    && forall i :: 0 <= i < |v.entries| ==> IsFrameworkEntry(v.entries[i])
  }

  lemma FrameworkEntry(e: Entry)
    ensures Conforms(FrameworkSchema.properties, e) <==> IsFrameworkEntry(e)
  {
    var props := FrameworkSchema.properties;
    if e.key == Str("name") { assert e.key == Str(props[0].name); }
    if e.key == Str("version") { assert e.key == Str(props[1].name); }
  }

  lemma FrameworkEntries(entries: seq<Entry>)
    ensures (forall i :: 0 <= i < |entries| ==> Conforms(FrameworkSchema.properties, entries[i])) <==>
            (forall i :: 0 <= i < |entries| ==> IsFrameworkEntry(entries[i]))
  {
    forall i | 0 <= i < |entries| {
      FrameworkEntry(entries[i]);
    }
  }

  lemma FrameworkSchemaShape(v: Value)
    ensures Validates(FrameworkSchema, v) <==>
      && v.Dict?
      && (forall n :: n in FrameworkSchema.required ==> Lookup(v.entries, Str(n)).Some?)
      && forall i :: 0 <= i < |v.entries| ==> Conforms(FrameworkSchema.properties, v.entries[i])
  {
    StrictObjectValidates(FrameworkSchema.properties, FrameworkSchema.required, v);
  }

  lemma FrameworkRequired(v: Value)
    requires v.Dict?
    ensures (forall n :: n in FrameworkSchema.required ==> Lookup(v.entries, Str(n)).Some?) <==>
             Lookup(v.entries, Str("name")).Some? && Lookup(v.entries, Str("version")).Some?
  {
  }

  /** The framework schema accepts exactly the framework records. */
  lemma FrameworkSchemaMeaning(v: Value)
    ensures Validates(FrameworkSchema, v) <==> IsFrameworkJson(v)
  {
    FrameworkSchemaShape(v);
    if v.Dict? {
      FrameworkRequired(v);
      FrameworkEntries(v.entries);
    }
  }

  /** Parsing a framework accepts exactly the framework records, unchanged. */
  lemma FrameworkParse(cx: Ctx, args: seq<TypeArg>, v: Value)
    ensures ParseJson(cx, Inst(FrameworkC, args), v).Ok? <==> IsFrameworkJson(v)
    ensures ParseJson(cx, Inst(FrameworkC, args), v).Ok? ==> ParseJson(cx, Inst(FrameworkC, args), v).value == v
    ensures !IsFrameworkJson(v) ==> ParseJson(cx, Inst(FrameworkC, args), v) == Err(ValidationFailed(v))
  {
    ParseIsValidation(cx, FrameworkC, args, v);
    FrameworkSchemaMeaning(v);
  }

  /** As written, formatting a framework checks nothing: even a non-record comes back unchanged. */
  lemma FrameworkFormatIsIdentity(cx: Ctx, args: seq<TypeArg>, v: Value)
    ensures FormatJson(cx, Inst(FrameworkC, args), v) == Ok(v)
  {
  }

  /** A framework's name longer than 32 characters is rejected. */
  lemma FrameworkNameTooLong(cx: Ctx, args: seq<TypeArg>, name: string)
    requires |name| > 32
    ensures ParseJson(cx, Inst(FrameworkC, args), Dict([Entry(Str("name"), Str(name)), Entry(Str("version"), Str("1"))])).Err?
  {
    var v := Dict([Entry(Str("name"), Str(name)), Entry(Str("version"), Str("1"))]);
    FrameworkParse(cx, args, v);
    assert v.entries[0].val == Str(name);
  }

  // ---- CUDA-version and hardware records ----

  /** Parsing builds the record from raw JSON that passes the record's schema, and formatting gives that raw JSON back. */
  lemma RecordRoundTrip(cx: Ctx, c: ClassId, args: seq<TypeArg>)
    requires c == CUDAVersionC || c == HardwareC
    ensures Containers.RoundTrips(cx, Inst(c, args))
  {
    var t := Inst(c, args);
    var kind := if c == CUDAVersionC then CUDAVersionInstance else HardwareInstance;
    forall x | ParseJson(cx, t, x).Ok? ensures FormatJson(cx, t, ParseJson(cx, t, x).value) == Ok(x) {
      assert ParseJson(cx, t, x) == Ok(Record(kind, x));
    }
  }

  /** Formatting accepts only a record of the class's own kind, and parsing what it gives yields the record again. */
  lemma RecordFormatThenParse(cx: Ctx, c: ClassId, args: seq<TypeArg>, v: Value)
    requires c == CUDAVersionC || c == HardwareC
    ensures var kind := if c == CUDAVersionC then CUDAVersionInstance else HardwareInstance;
      && (FormatJson(cx, Inst(c, args), v).Ok? <==> v.Record? && v.kind == kind)
      && (FormatJson(cx, Inst(c, args), v).Err? ==> FormatJson(cx, Inst(c, args), v) == Err(Expectation(v, v)))
      && (FormatJson(cx, Inst(c, args), v).Ok? && Validates(RecordSchema(kind), v.raw) ==>
            ParseJson(cx, Inst(c, args), FormatJson(cx, Inst(c, args), v).value) == Ok(v))
  {
  }

  /** A CUDA version's schema demands its version number, full version and minimum driver version. */
  lemma CUDAVersionSchemaRequired(v: Value)
    requires Validates(RecordSchema(CUDAVersionInstance), v)
    ensures v.Dict?
    ensures Lookup(v.entries, Str("version")).Some? && Lookup(v.entries, Str("full_version")).Some?
    ensures Lookup(v.entries, Str("min_driver_version")).Some?
  {
    var schema := RecordSchema(CUDAVersionInstance);
    StrictObjectRequired(schema.properties, schema.required, v, "version");
    StrictObjectRequired(schema.properties, schema.required, v, "full_version");
    StrictObjectRequired(schema.properties, schema.required, v, "min_driver_version");
  }

  /** A CUDA version's pk, when present, is a number of at least 1. */
  lemma CUDAVersionSchemaPk(v: Value)
    requires Validates(RecordSchema(CUDAVersionInstance), v)
    ensures v.Dict?
    ensures forall i :: 0 <= i < |v.entries| && v.entries[i].key == Str("pk") ==>
      (v.entries[i].val.Int? && v.entries[i].val.i >= 1) || (v.entries[i].val.Float? && v.entries[i].val.f >= 1.0)
  {
    var schema := RecordSchema(CUDAVersionInstance);
    forall i | 0 <= i < |v.entries| && v.entries[i].key == Str("pk")
      ensures (v.entries[i].val.Int? && v.entries[i].val.i >= 1) || (v.entries[i].val.Float? && v.entries[i].val.f >= 1.0)
    {
      StrictObjectField(schema.properties, schema.required, v, i, 0);
    }
  }

  /** A CUDA version's full version is a string of at most 16 characters. */
  lemma CUDAVersionSchemaFullVersion(v: Value)
    requires Validates(RecordSchema(CUDAVersionInstance), v)
    ensures v.Dict?
    ensures forall i :: 0 <= i < |v.entries| && v.entries[i].key == Str("full_version") ==>
      v.entries[i].val.Str? && |v.entries[i].val.s| <= 16
  {
    var schema := RecordSchema(CUDAVersionInstance);
    forall i | 0 <= i < |v.entries| && v.entries[i].key == Str("full_version")
      ensures v.entries[i].val.Str? && |v.entries[i].val.s| <= 16
    {
      StrictObjectField(schema.properties, schema.required, v, i, 2);
    }
  }

  /** A CUDA version parses only from JSON that has those fields. */
  lemma CUDAVersionFields(cx: Ctx, args: seq<TypeArg>, v: Value)
    requires ParseJson(cx, Inst(CUDAVersionC, args), v).Ok?
    ensures v.Dict?
    ensures Lookup(v.entries, Str("version")).Some? && Lookup(v.entries, Str("full_version")).Some?
    ensures Lookup(v.entries, Str("min_driver_version")).Some?
  {
    ParseIsFromRaw(cx, CUDAVersionC, CUDAVersionInstance, args, v);
    CUDAVersionSchemaRequired(v);
  }

  /** The hardware schema rejects any entry outside the four hardware properties. */
  lemma HardwareSchemaRejectsUnknownKeys(v: Value, i: int)
    requires v.Dict? && 0 <= i < |v.entries|
    requires v.entries[i].key !in {Str("pk"), Str("generation"), Str("min_compute_capability"), Str("max_compute_capability")}
    ensures !Validates(RecordSchema(HardwareInstance), v)
  {
    var schema := RecordSchema(HardwareInstance);
    forall j | 0 <= j < |schema.properties| ensures v.entries[i].key != Str(schema.properties[j].name) {
      assert j == 0 || j == 1 || j == 2 || j == 3;
    }
    StrictObjectUnlisted(schema.properties, schema.required, v, i);
  }

  /** So a hardware generation with such an entry does not parse. */
  lemma HardwareRejectsUnknownKeys(cx: Ctx, args: seq<TypeArg>, v: Value, i: int)
    requires v.Dict? && 0 <= i < |v.entries|
    requires v.entries[i].key !in {Str("pk"), Str("generation"), Str("min_compute_capability"), Str("max_compute_capability")}
    ensures ParseJson(cx, Inst(HardwareC, args), v) == Err(ValidationFailed(v))
  {
    ParseIsFromRaw(cx, HardwareC, HardwareInstance, args, v);
    HardwareSchemaRejectsUnknownKeys(v, i);
  }

  // ---- BLOB and Model ----

  /** A BLOB parses its bytes as they are and formats any value unchanged, so bytes round-trip. */
  lemma BlobBinaryRoundTrip(cx: Ctx, args: seq<TypeArg>, data: seq<byte>)
    ensures ParseBinary(cx, Inst(BLOBC, args), data) == Ok(Bytes(data))
    ensures FormatBinary(Inst(BLOBC, args), ParseBinary(cx, Inst(BLOBC, args), data).value) == Ok(Bytes(data))
  {
  }

  /** A model parses its bytes as they are, and formats exactly bytes and byte streams, unchanged. */
  lemma ModelBinary(cx: Ctx, args: seq<TypeArg>, data: seq<byte>, v: Value)
    ensures ParseBinary(cx, Inst(ModelC, args), data) == Ok(Bytes(data))
    ensures FormatBinary(Inst(ModelC, args), v).Ok? <==> v.Bytes? || v.Stream?
    ensures FormatBinary(Inst(ModelC, args), v).Err? ==> FormatBinary(Inst(ModelC, args), v) == Err(Expectation(v, v))
  {
    assert IsInstance(Bytes(data), [BytesType, BufferedIOBaseType][0]);
    if v.Bytes? { assert IsInstance(v, [BytesType, BufferedIOBaseType][0]); }
    if v.Stream? { assert IsInstance(v, [BytesType, BufferedIOBaseType][1]); }
  }

  /** BLOB and Model define no JSON encoding at all. */
  lemma BinaryTypesHaveNoJson(cx: Ctx, c: ClassId, args: seq<TypeArg>, v: Value)
    requires c == BLOBC || c == ModelC
    ensures JsonSchemaOf(cx, Inst(c, args)) == Err(AttributeError)
    ensures ParseJson(cx, Inst(c, args), v) == Err(AttributeError)
    ensures FormatJson(cx, Inst(c, args), v) == Err(AttributeError)
  {
  }

  /** The JSON types format nothing to binary. */
  lemma JsonTypesFormatNoBinary(c: ClassId, args: seq<TypeArg>, v: Value)
    requires Descends(c, UFDLJSONC)
    ensures FormatBinary(Inst(c, args), v) == Err(NotImplemented)
  {
  }

  // ---- JSON carried as bytes ----

  /** A JSON type reads bytes as UTF-8 text, loads the JSON it holds and parses that; bytes that are not UTF-8 raise. */
  lemma JsonBinaryParse(cx: Ctx, t: TypeArg, data: seq<byte>)
    requires t.Inst? && Descends(t.cls, UFDLJSONC)
    ensures Utf8.Decode(data).None? ==> ParseBinary(cx, t, data) == Err(UnicodeDecode)
    ensures Utf8.Decode(data).Some? && cx.foreign.jsonLoads(Utf8.Decode(data).value).Err? ==>
      ParseBinary(cx, t, data) == Err(cx.foreign.jsonLoads(Utf8.Decode(data).value).error)
    ensures Utf8.Decode(data).Some? && cx.foreign.jsonLoads(Utf8.Decode(data).value).Ok? ==>
      ParseBinary(cx, t, data) == ParseJson(cx, t, cx.foreign.jsonLoads(Utf8.Decode(data).value).value)
  {
    assert t.cls != BLOBC && t.cls != ModelC;
  }

  /** The UTF-8 encoding of JSON text parses as the value the text loads to. */
  lemma JsonBinaryOfText(cx: Ctx, t: TypeArg, text: string, loaded: Value)
    requires t.Inst? && Descends(t.cls, UFDLJSONC)
    requires cx.foreign.jsonLoads(text) == Ok(loaded)
    ensures ParseBinary(cx, t, Utf8.Encode(text)) == ParseJson(cx, t, loaded)
  {
    Utf8.DecodeEncode(text);
    JsonBinaryParse(cx, t, Utf8.Encode(text));
  }

  /** The bare binary bases parse no bytes. */
  lemma AbstractBinaryBases(cx: Ctx, c: ClassId, args: seq<TypeArg>, data: seq<byte>)
    requires c == UFDLTypeC || c == UFDLBinaryC
    ensures ParseBinary(cx, Inst(c, args), data) == Err(NotImplemented)
  {
  }

  // ---- classes that encode nothing ----

  /**
   * The `json_schema` property of the abstract JSON bases, of Domain and of
   * DockerImage reads itself while building its error message, so it raises
   * RecursionError rather than NotImplementedError.
   */
  lemma SelfReadingSchemasRecurse(cx: Ctx, c: ClassId, args: seq<TypeArg>)
    requires c == UFDLJSONC || c == FiniteJSONC || c == ServerResidentC || c == NamedServerC
          || c == DomainC || c == DockerImageC
    ensures JsonSchemaOf(cx, Inst(c, args)) == Err(RecursionError)
  {
  }

  /** A `Map` over an element whose schema recurses inherits the RecursionError. */
  lemma MapOfRecursiveSchemaRecurses(cx: Ctx, e: TypeArg)
    requires JsonSchemaOf(cx, e) == Err(RecursionError)
    ensures JsonSchemaOf(cx, Inst(MapC, [e])) == Err(RecursionError)
  {
  }

  /**
   * Domain has no usable schema (its `json_schema` property reads itself, so it
   * recurses until Python gives up), no JSON parser of its own, and no
   * formatter anywhere on its way up.
   */
  lemma DomainEncodesNothing(cx: Ctx, args: seq<TypeArg>, v: Value)
    ensures JsonSchemaOf(cx, Inst(DomainC, args)) == Err(RecursionError)
    ensures ParseJson(cx, Inst(DomainC, args), v) == Err(NotImplemented)
    ensures FormatJson(cx, Inst(DomainC, args), v) == Err(AttributeError)
  {
  }

  /**
   * As written, a docker image validates against a schema property that reads
   * itself, so building the schema recurses without end and the image can
   * neither parse nor format.
   */
  lemma DockerImageEncodesNothing(cx: Ctx, args: seq<TypeArg>, v: Value)
    ensures JsonSchemaOf(cx, Inst(DockerImageC, args)) == Err(RecursionError)
    ensures ParseJson(cx, Inst(DockerImageC, args), v) == Err(RecursionError)
    ensures FormatJson(cx, Inst(DockerImageC, args), v) == Err(RecursionError)
  {
  }

  /** `Nothing` does not round-trip: it parses `null` but cannot format it. */
  lemma NothingDoesNotRoundTrip(cx: Ctx, args: seq<TypeArg>)
    ensures !Containers.RoundTrips(cx, Inst(NothingC, args))
  {
    assert ParseJson(cx, Inst(NothingC, args), Null).Ok?;
  }

  /** The standard simple classes round-trip. */
  lemma StandardRoundTrips(cx: Ctx, c: ClassId, args: seq<TypeArg>)
    requires c == IntegerC || c == BooleanC || c == StringC
    ensures Containers.RoundTrips(cx, Inst(c, args))
  {
    var t := Inst(c, args);
    forall x | ParseJson(cx, t, x).Ok? ensures FormatJson(cx, t, ParseJson(cx, t, x).value) == Ok(x) {
      if c == IntegerC { IntegerParse(cx, args, x); }
      else if c == BooleanC { BooleanParse(cx, args, x); }
      else { StringParse(cx, args, x); }
    }
  }

  // ---- abstractness ----

  /** The value types, records, pretrained models, `Nothing`, BLOB and Model are concrete whatever their arguments. */
  lemma ConcreteClasses(c: ClassId, args: seq<TypeArg>)
    requires c.ValueTypeC? || c.KindC? || c.LitC? || c in {PretrainedModelC, CUDAVersionC, HardwareC, NothingC, BLOBC, ModelC}
    ensures Engine.IsAbstract(c, args) == Ok(false)
  {
  }

  /** Every other class without an override inherits the base's `True`. */
  lemma OtherClassesAbstract(c: ClassId, args: seq<TypeArg>)
    requires c in {UFDLTypeC, UFDLBinaryC, UFDLJSONC, FiniteJSONC, ServerResidentC, NamedServerC, JobOutputC,
                   DockerImageC, FrameworkC, DomainC, IntegerC, BooleanC, StringC}
    ensures Engine.IsAbstract(c, args) == Ok(true)
  {
  }

  predicate IsWrapper(c: ClassId)
  {
    c in {ArrayC, MapC, PKC, NameC}
  }

  /** The innermost type argument reached by following first arguments through arrays, maps, PKs and names. */
  function Innermost(t: TypeArg): (r: TypeArg)
    ensures r.Inst? ==> !IsWrapper(r.cls) || |r.args| == 0
  {
    if t.Inst? && IsWrapper(t.cls) && |t.args| > 0 then Innermost(t.args[0]) else t
  }

  /** Wrapping a type in arrays, maps, PKs and names, however deep, leaves its abstractness unchanged. */
  lemma {:induction false} WrappersFollowInnermost(t: TypeArg)
    requires Innermost(t).Inst? ==> |Innermost(t).args| > 0 || !IsWrapper(Innermost(t).cls)
    ensures Engine.ArgIsAbstract(t) == Engine.ArgIsAbstract(Innermost(t))
  {
    if t.Inst? && IsWrapper(t.cls) && |t.args| > 0 {
      WrappersFollowInnermost(t.args[0]);
    }
  }
}
