/**
 * What the two containers, `Array` and `Map`, promise about their JSON
 * encodings: element-wise parsing and formatting, the fixed-size rule, the
 * schemas built from the element's schema, and the round trip.
 */
module Containers {
  import opened Wrappers
  import opened Json
  import opened Errors
  import opened Classes
  import opened Context
  import opened Expect
  import opened Protocol
  import Engine
  import Simple

  /** An array type: element type `e`, size argument `s`. */
  function ArrayOf(e: TypeArg, s: TypeArg): TypeArg
  {
    Inst(ArrayC, [e, s])
  }

  /** Parsing validates the list and parses each element in order with the element type, keeping the length. */
  lemma ArrayParseElements(cx: Ctx, e: TypeArg, s: TypeArg, v: Value)
    ensures var r := ParseJson(cx, ArrayOf(e, s), v);
      r.Ok? ==>
        && JsonSchemaOf(cx, ArrayOf(e, s)).Ok? && Validates(JsonSchemaOf(cx, ArrayOf(e, s)).value, v)
        && v.List? && r.value.Tuple? && |r.value.elems| == |v.items|
        && forall i :: 0 <= i < |v.items| ==> ParseJson(cx, e, v.items[i]) == Ok(r.value.elems[i])
  {
  }

  /** With a literal size `n`, only lists of exactly `n` elements parse. */
  lemma ArrayParseFixedSize(cx: Ctx, e: TypeArg, s: TypeArg, n: int, v: Value)
    requires Engine.ValueOf(s) == Ok(Engine.LiteralValue(LInt(n)))
    ensures ParseJson(cx, ArrayOf(e, s), v).Ok? ==> v.List? && |v.items| == n
  {
    var t := ArrayOf(e, s);
    if ParseJson(cx, t, v).Ok? {
      ArraySchemaBounds(cx, e, s, n);
      assert Validates(JsonSchemaOf(cx, t).value, v);
    }
  }

  /**
   * The schema is a regular array of the element's schema; a literal size `n`
   * sets both the least and the greatest element count to `n`.
   */
  lemma ArraySchemaBounds(cx: Ctx, e: TypeArg, s: TypeArg, n: int)
    requires Engine.ValueOf(s) == Ok(Engine.LiteralValue(LInt(n)))
    ensures JsonSchemaOf(cx, ArrayOf(e, s)) ==
      (match JsonSchemaOf(cx, e)
       case Err(err) => Err(err)
       case Ok(items) => if n < 0 then Err(SchemaInvalid) else Ok(ArrayS(items, Some(n), Some(n))))
  {
  }

  /** A size argument that fixes no size (a kind such as `Integer()`) leaves the count unbounded. */
  lemma ArraySchemaUnbounded(cx: Ctx, e: TypeArg, s: TypeArg)
    requires Engine.ValueOf(s).Ok? && FixedSize(Engine.ValueOf(s).value).None?
    ensures JsonSchemaOf(cx, ArrayOf(e, s)) ==
      (match JsonSchemaOf(cx, e)
       case Err(err) => Err(err)
       case Ok(items) => Ok(ArrayS(items, None, None)))
  {
  }

  /** Formatting accepts only tuples, and turns one into a list of the same length, each element formatted by the element type. */
  lemma ArrayFormatElements(cx: Ctx, e: TypeArg, s: TypeArg, v: Value)
    ensures !v.Tuple? ==> FormatJson(cx, ArrayOf(e, s), v) == Err(Expectation(v, v))
    ensures var r := FormatJson(cx, ArrayOf(e, s), v);
      r.Ok? ==>
        && v.Tuple? && r.value.List? && |r.value.items| == |v.elems|
        && forall i :: 0 <= i < |v.elems| ==> FormatJson(cx, e, v.elems[i]) == Ok(r.value.items[i])
  {
  }

  /** With a literal size, a tuple of any other length is rejected with ValueError before any element is formatted. */
  lemma ArrayFormatSizeMismatch(cx: Ctx, e: TypeArg, s: TypeArg, n: int, elems: seq<Value>)
    requires Engine.ValueOf(s) == Ok(Engine.LiteralValue(LInt(n)))
    requires |elems| != n
    ensures FormatJson(cx, ArrayOf(e, s), Tuple(elems)) == Err(ValueError)
  {
  }

  /** The element type gives back, when formatting, every JSON value it parsed. */
  ghost predicate RoundTrips(cx: Ctx, e: TypeArg)
  {
    forall x :: ParseJson(cx, e, x).Ok? ==> FormatJson(cx, e, ParseJson(cx, e, x).value) == Ok(x)
  }

  /** A parsed list has the size the size argument fixes, if it fixes one. */
  lemma ArrayParsedSize(cx: Ctx, e: TypeArg, s: TypeArg, v: Value)
    requires ParseJson(cx, ArrayOf(e, s), v).Ok?
    ensures Engine.ValueOf(s).Ok? && v.List?
    ensures FixedSize(Engine.ValueOf(s).value).Some? ==> |v.items| == FixedSize(Engine.ValueOf(s).value).value
  {
    var schema := JsonSchemaOf(cx, ArrayOf(e, s));
    assert schema.Ok? && Validates(schema.value, v);
    assert Engine.ValueOf(s).Ok?;
    var n := FixedSize(Engine.ValueOf(s).value);
    assert n.Some? ==> schema.value == ArrayS(schema.value.items, Some(n.value), Some(n.value));
  }

  /** A tuple of the fixed size (or any size, when none is fixed) whose elements all format is formatted element by element. */
  lemma ArrayFormatsTuple(cx: Ctx, e: TypeArg, s: TypeArg, elems: seq<Value>, items: seq<Value>)
    requires Engine.ValueOf(s).Ok?
    requires FixedSize(Engine.ValueOf(s).value).Some? ==> |elems| == FixedSize(Engine.ValueOf(s).value).value
    requires |items| == |elems| && forall i :: 0 <= i < |elems| ==> FormatJson(cx, e, elems[i]) == Ok(items[i])
    ensures FormatJson(cx, ArrayOf(e, s), Tuple(elems)) == Ok(List(items))
  {
    var formatted := MapAll((x: Value) => FormatJson(cx, e, x), elems);
    assert formatted.Ok? && formatted.value == items;
  }

  /** If the element type round-trips, so does the array: formatting what was parsed gives back the list. */
  lemma ArrayRoundTrip(cx: Ctx, e: TypeArg, s: TypeArg, v: Value)
    requires RoundTrips(cx, e)
    requires ParseJson(cx, ArrayOf(e, s), v).Ok?
    ensures FormatJson(cx, ArrayOf(e, s), ParseJson(cx, ArrayOf(e, s), v).value) == Ok(v)
  {
    var p := ParseJson(cx, ArrayOf(e, s), v).value;
    ArrayParseElements(cx, e, s, v);
    ArrayParsedSize(cx, e, s, v);
    forall i | 0 <= i < |p.elems| ensures FormatJson(cx, e, p.elems[i]) == Ok(v.items[i]) {
      assert ParseJson(cx, e, v.items[i]) == Ok(p.elems[i]);
    }
    ArrayFormatsTuple(cx, e, s, p.elems, v.items);
  }

  /** Value types round-trip: parsing and formatting both validate and return the value itself. */
  lemma ValueTypeRoundTrips(cx: Ctx, c: ClassId, args: seq<TypeArg>)
    requires c.ValueTypeC? || c.KindC? || c.LitC?
    ensures RoundTrips(cx, Inst(c, args))
  {
    var t := Inst(c, args);
    forall x | ParseJson(cx, t, x).Ok? ensures FormatJson(cx, t, ParseJson(cx, t, x).value) == Ok(x) {
      assert ParseJson(cx, t, x) == Ok(x);
    }
  }

  // ---- Map ----

  /** Parsing validates the object, keeps every key in order and parses each value with the element type. */
  lemma MapParseKeepsKeys(cx: Ctx, args: seq<TypeArg>, v: Value)
    ensures var r := ParseJson(cx, Inst(MapC, args), v);
      r.Ok? ==>
        && v.Dict? && r.value.Dict? && Keys(r.value.entries) == Keys(v.entries)
        && forall i :: 0 <= i < |v.entries| ==> |args| > 0 && ParseJson(cx, args[0], v.entries[i].val) == Ok(r.value.entries[i].val)
  {
    var t := Inst(MapC, args);
    var r := ParseJson(cx, t, v);
    if r.Ok? {
      var entries := r.value.entries;
      assert MapAll((e: Entry) => ParseEntry(cx, t, e), v.entries) == Ok(entries);
      forall i | 0 <= i < |v.entries|
        ensures entries[i].key == v.entries[i].key
        ensures |args| > 0 && ParseJson(cx, args[0], v.entries[i].val) == Ok(entries[i].val)
      {
        assert ParseEntry(cx, t, v.entries[i]) == Ok(entries[i]);
      }
      assert Keys(r.value.entries) == Keys(v.entries);
    }
  }

  /** The schema is an object whose every property must satisfy the element's schema. */
  lemma MapSchema(cx: Ctx, e: TypeArg)
    ensures JsonSchemaOf(cx, Inst(MapC, [e])) ==
      (match JsonSchemaOf(cx, e)
       case Err(err) => Err(err)
       case Ok(s) => Ok(ObjectS([], [], s)))
  {
  }

  /** Formatting accepts only dicts, and only dicts whose keys are all strings. */
  lemma MapFormatChecksKeys(cx: Ctx, args: seq<TypeArg>, v: Value)
    ensures !v.Dict? ==> FormatJson(cx, Inst(MapC, args), v) == Err(Expectation(v, v))
    ensures v.Dict? && (exists i :: 0 <= i < |v.entries| && !v.entries[i].key.Str?) ==>
      FormatJson(cx, Inst(MapC, args), v).Err? && FormatJson(cx, Inst(MapC, args), v).error.Expectation?
  {
  }

  /**
   * As written, formatting iterates the dict's keys and unpacks each key into
   * two characters: a dict of string keys none of which has two characters
   * is always rejected with ValueError.
   */
  lemma MapFormatUnpacksKeys(cx: Ctx, args: seq<TypeArg>, entries: seq<Entry>)
    requires |entries| > 0
    requires forall i :: 0 <= i < |entries| ==> entries[i].key.Str? && |entries[i].key.s| != 2
    ensures FormatJson(cx, Inst(MapC, args), Dict(entries)) == Err(ValueError)
  {
    var t := Inst(MapC, args);
    assert MapAll((e: Entry) => ExpectValue(OneType(StrType), e.key), entries).Ok?;
    assert FormatKey(cx, t, entries[0].key) == Err(ValueError);
  }

  /**
   * As written, formatting a one-entry dict as a `Map` of strings unpacks the
   * two-character key into a new key and its value: `{"ab": x}` gives
   * `{"a": "b"}`, and the value `x` is never read.
   */
  lemma MapFormatAsWritten(cx: Ctx, k: string, x: Value)
    requires |k| == 2
    ensures FormatJson(cx, Inst(MapC, [Inst(StringC, [])]), Dict([Entry(Str(k), x)]))
         == Ok(Dict([Entry(Str([k[0]]), Str([k[1]]))]))
  {
    var t := Inst(MapC, [Inst(StringC, [])]);
    var entries := [Entry(Str(k), x)];
    var pair := Entry(Str([k[0]]), Str([k[1]]));
    assert FormatKey(cx, t, entries[0].key) == Ok(pair);
    assert ExpectValue(OneType(StrType), entries[0].key).Ok?;
    assert DictOf([pair]) == [pair];
  }

  /** On success the result's keys are exactly the first characters of the dict's keys. */
  lemma MapFormatKeys(cx: Ctx, args: seq<TypeArg>, v: Value)
    requires FormatJson(cx, Inst(MapC, args), v).Ok?
    ensures v.Dict? && FormatJson(cx, Inst(MapC, args), v).value.Dict?
    ensures forall k :: Lookup(FormatJson(cx, Inst(MapC, args), v).value.entries, k).Some? <==>
      exists i :: 0 <= i < |v.entries| && v.entries[i].key.Str? && |v.entries[i].key.s| == 2 && k == Str([v.entries[i].key.s[0]])
  {
    var t := Inst(MapC, args);
    var pairs := MapAll((e: Entry) => FormatKey(cx, t, e.key), v.entries).value;
    forall i | 0 <= i < |v.entries|
      ensures v.entries[i].key.Str? && |v.entries[i].key.s| == 2 && pairs[i].key == Str([v.entries[i].key.s[0]])
    {
      assert FormatKey(cx, t, v.entries[i].key) == Ok(pairs[i]);
    }
  }
}
