/**
 * The finite and server-resident types: `PK`, `Name` and `Nothing` with their
 * enumerations, `list_all_values` over the backend, `JobOutput`, and the
 * pretrained-model type's lazily built instance class.
 */
module Finite {
  import opened Wrappers
  import opened Json
  import opened Errors
  import opened Classes
  import opened Registry
  import opened Context
  import opened Expect
  import opened Protocol
  import Servers
  import Format

  // ---- PK ----

  /** `PK` lists the `pk` field of each of its sub-type's rows, in row order. */
  lemma PKListsPrimaryKeys(cx: Ctx, sub: TypeArg, rows: seq<Value>)
    requires cx.foreign.listAllJson(sub) == Ok(rows)
    ensures var r := ListAllJsonValues(cx, Inst(PKC, [sub]));
      && (r.Ok? <==> forall i :: 0 <= i < |rows| ==> Servers.Field(rows[i], "pk").Ok?)
      && (r.Ok? ==> |r.value| == |rows| && forall i :: 0 <= i < |rows| ==> Ok(r.value[i]) == Servers.Field(rows[i], "pk"))
  {
  }

  /**
   * As written, parsing a primary key never succeeds: a non-int is rejected,
   * a pk without exactly one matching row raises, and with one match the code
   * indexes the int itself rather than the matching rows.
   */
  lemma PKParseNeverSucceeds(cx: Ctx, args: seq<TypeArg>, v: Value)
    ensures ParseJson(cx, Inst(PKC, args), v).Err?
    ensures !IsInstance(v, IntType) ==> ParseJson(cx, Inst(PKC, args), v) == Err(Expectation(v, v))
    ensures IsInstance(v, IntType) && |args| > 0 && cx.foreign.filteredJson(args[0], Exact("pk", v)).Ok? ==>
      ParseJson(cx, Inst(PKC, args), v) ==
        if |cx.foreign.filteredJson(args[0], Exact("pk", v)).value| == 1 then Err(TypeError) else Err(NoUniqueValue)
  {
  }

  /**
   * `PK` and `Name` format exactly the values they enumerate, unchanged:
   * the schema is the enumeration itself.
   */
  lemma FiniteFormatIsMembership(cx: Ctx, t: TypeArg, v: Value)
    requires t.Inst? && (t.cls == PKC || t.cls == NameC)
    requires ListAllJsonValues(cx, t).Ok?
    ensures FormatJson(cx, t, v).Ok? <==>
      exists k :: 0 <= k < |ListAllJsonValues(cx, t).value| && JsonEqual(v, ListAllJsonValues(cx, t).value[k])
    ensures FormatJson(cx, t, v).Ok? ==> FormatJson(cx, t, v).value == v
    ensures FormatJson(cx, t, v).Err? ==> FormatJson(cx, t, v) == Err(ValidationFailed(v))
  {
    assert JsonSchemaOf(cx, t) == Ok(EnumS(ListAllJsonValues(cx, t).value));
  }

  /** When the enumeration cannot be listed, neither can anything be formatted. */
  lemma FiniteFormatNeedsListing(cx: Ctx, t: TypeArg, v: Value)
    requires t.Inst? && (t.cls == PKC || t.cls == NameC)
    requires ListAllJsonValues(cx, t).Err?
    ensures FormatJson(cx, t, v) == Err(ListAllJsonValues(cx, t).error)
  {
  }

  // ---- Name ----

  /** `Name` rejects non-strings, and hands a string to its sub-type's lookup by name. */
  lemma NameParse(cx: Ctx, sub: TypeArg, v: Value)
    ensures !v.Str? ==> ParseJson(cx, Inst(NameC, [sub]), v) == Err(Expectation(v, v))
    ensures v.Str? ==> ParseJson(cx, Inst(NameC, [sub]), v) == cx.foreign.valueByName(sub, v.s)
  {
  }

  /**
   * `Name` lists the name of each of its sub-type's rows, in row order, and
   * the sub-type's name filter for each listed name matches the row it came from.
   */
  lemma NameListsNames(cx: Ctx, sub: TypeArg, rows: seq<Value>)
    requires sub.Inst?
    requires cx.foreign.listAllJson(sub) == Ok(rows)
    ensures var r := ListAllJsonValues(cx, Inst(NameC, [sub]));
      && (r.Ok? <==> forall i :: 0 <= i < |rows| ==> Servers.ExtractName(sub.cls, rows[i]).Ok?)
      && (r.Ok? ==> |r.value| == |rows| && forall i :: 0 <= i < |rows| ==> Ok(r.value[i]) == Servers.ExtractName(sub.cls, rows[i]))
      && (r.Ok? ==> forall i :: 0 <= i < |rows| && r.value[i].Str? ==>
            Servers.NameFilter(sub.cls, r.value[i].s).Ok? && Servers.Matches(Servers.NameFilter(sub.cls, r.value[i].s).value, rows[i]))
  {
    var r := ListAllJsonValues(cx, Inst(NameC, [sub]));
    if r.Ok? {
      forall i | 0 <= i < |rows| && r.value[i].Str?
        ensures Servers.NameFilter(sub.cls, r.value[i].s).Ok? && Servers.Matches(Servers.NameFilter(sub.cls, r.value[i].s).value, rows[i])
      {
        assert ExtractNameOf(sub, rows[i]) == Ok(r.value[i]);
        Servers.NameFilterMatchesExtracted(sub.cls, rows[i], r.value[i].s);
      }
    }
  }

  // ---- Nothing ----

  /**
   * `Nothing` parses exactly `null`, which is also all it enumerates; as
   * written it can format nothing, because `isinstance(value, None)` raises.
   */
  lemma NothingIsNull(cx: Ctx, args: seq<TypeArg>, v: Value)
    ensures ParseJson(cx, Inst(NothingC, args), v).Ok? <==> v == Null
    ensures ParseJson(cx, Inst(NothingC, args), v).Ok? ==> ParseJson(cx, Inst(NothingC, args), v).value == Null
    ensures ListAllJsonValues(cx, Inst(NothingC, args)) == Ok([Null])
    ensures ParseJson(cx, Inst(NothingC, args), v).Ok? <==> v in ListAllJsonValues(cx, Inst(NothingC, args)).value
    ensures FormatJson(cx, Inst(NothingC, args), v) == Err(TypeError)
  {
  }

  // ---- list_all_values ----

  /**
   * `list_all_values` makes one backend call, with the type's table name and
   * filter rules, and parses every row with the type itself: one value per
   * row, in row order; the first row that fails to parse fails the whole call.
   */
  lemma ListAllValuesParsesRows(cx: Ctx, c: ClassId, args: seq<TypeArg>, table: string, rules: Filters, rows: seq<Value>)
    requires Servers.TableName(c) == Ok(table) && Servers.FilterRules(cx.tables, c, args) == Ok(rules)
    requires cx.backend.list(table, rules) == Ok(rows)
    ensures var r := ListAllValues(cx, Inst(c, args));
      && (r.Ok? <==> forall i :: 0 <= i < |rows| ==> ParseJson(cx, Inst(c, args), rows[i]).Ok?)
      && (r.Ok? ==> |r.value| == |rows| && forall i :: 0 <= i < |rows| ==> Ok(r.value[i]) == ParseJson(cx, Inst(c, args), rows[i]))
      && (r.Err? ==> exists i :: 0 <= i < |rows| && ParseJson(cx, Inst(c, args), rows[i]) == Err(r.error)
                                 && forall j :: 0 <= j < i ==> ParseJson(cx, Inst(c, args), rows[j]).Ok?)
  {
  }

  /** An error from the table name, the filter rules or the backend itself is what `list_all_values` raises. */
  lemma ListAllValuesPropagates(cx: Ctx, c: ClassId, args: seq<TypeArg>)
    ensures Servers.TableName(c).Err? ==> ListAllValues(cx, Inst(c, args)) == Err(Servers.TableName(c).error)
    ensures Servers.TableName(c).Ok? && Servers.FilterRules(cx.tables, c, args).Err? ==>
      ListAllValues(cx, Inst(c, args)) == Err(Servers.FilterRules(cx.tables, c, args).error)
    ensures Servers.TableName(c).Ok? && Servers.FilterRules(cx.tables, c, args).Ok?
            && cx.backend.list(Servers.TableName(c).value, Servers.FilterRules(cx.tables, c, args).value).Err? ==>
      ListAllValues(cx, Inst(c, args)) == Err(cx.backend.list(Servers.TableName(c).value, Servers.FilterRules(cx.tables, c, args).value).error)
  {
  }

  /** Before the server is initialised, listing a server-resident type raises NotInitialised. */
  lemma ListingBeforeInitialisation(cx: Ctx, c: ClassId, args: seq<TypeArg>)
    requires cx.backend == StubBackend()
    requires Servers.TableName(c).Ok? && Servers.FilterRules(cx.tables, c, args).Ok?
    ensures ListAllValues(cx, Inst(c, args)) == Err(NotInitialised)
  {
  }

  // ---- JobOutput ----

  /** A job output is given by the int pk of its row; other values are rejected with ValueError. */
  lemma JobOutputParseRejectsNonInt(cx: Ctx, args: seq<TypeArg>, v: Value)
    requires !v.Int? && !v.Bool?
    ensures ParseJson(cx, Inst(JobOutputC, args), v) == Err(ValueError)
  {
  }

  /** A job output's pk is downloaded from the JobOutput table and decoded by its type argument's binary parser. */
  lemma JobOutputParseDownloads(cx: Ctx, output: TypeArg, pk: int)
    requires output.Inst?
    ensures cx.backend.download("JobOutput", pk).Err? ==>
      ParseJson(cx, Inst(JobOutputC, [output]), Int(pk)) == Err(cx.backend.download("JobOutput", pk).error)
    ensures cx.backend.download("JobOutput", pk).Ok? ==>
      ParseJson(cx, Inst(JobOutputC, [output]), Int(pk)) == ParseBinary(cx, output, cx.backend.download("JobOutput", pk).value)
  {
    assert IsInstance(Int(pk), IntType) && IntValue(Int(pk)) == pk;
    assert Servers.Arg([output], 0) == Ok(output);
  }

  /** Job outputs cannot be formatted. */
  lemma JobOutputFormatNotImplemented(cx: Ctx, args: seq<TypeArg>, v: Value)
    ensures FormatJson(cx, Inst(JobOutputC, args), v) == Err(NotImplemented)
  {
  }

  /** The filter rules are the single entry `type`, the formatted type argument. */
  lemma JobOutputFiltersByType(cx: Ctx, output: TypeArg)
    ensures Format.FormatTypeOrTypeClass(cx.tables, output).Err? ==>
      Servers.FilterRules(cx.tables, JobOutputC, [output]) == Err(Format.FormatTypeOrTypeClass(cx.tables, output).error)
    ensures Format.FormatTypeOrTypeClass(cx.tables, output).Ok? ==>
      Servers.FilterRules(cx.tables, JobOutputC, [output]) == Ok(RuleDict([("type", Plain(Str(Format.FormatTypeOrTypeClass(cx.tables, output).value)))]))
  {
  }

  /** The schema enumerates the `pk` field of every value `list_all_values` gives. */
  lemma JobOutputSchemaEnumeratesPks(cx: Ctx, args: seq<TypeArg>, outputs: seq<Value>)
    requires ListAllValues(cx, Inst(JobOutputC, args)) == Ok(outputs)
    requires forall i :: 0 <= i < |outputs| ==> Servers.Field(outputs[i], "pk").Ok?
    ensures JsonSchemaOf(cx, Inst(JobOutputC, args)).Ok?
    ensures var s := JsonSchemaOf(cx, Inst(JobOutputC, args)).value;
      s.EnumS? && |s.options| == |outputs| && forall i :: 0 <= i < |outputs| ==> Ok(s.options[i]) == Servers.Field(outputs[i], "pk")
  {
  }

  /**
   * As written, the listing behind the schema parses each backend row as a
   * job output, which wants an int pk: a table whose first row is a record
   * (a dict) makes the schema raise ValueError.
   */
  lemma JobOutputSchemaRejectsRecordRows(cx: Ctx, output: TypeArg, rows: seq<Value>)
    requires Format.FormatTypeOrTypeClass(cx.tables, output).Ok?
    requires cx.backend.list("JobOutput", RuleDict([("type", Plain(Str(Format.FormatTypeOrTypeClass(cx.tables, output).value)))])) == Ok(rows)
    requires |rows| > 0 && rows[0].Dict?
    ensures JsonSchemaOf(cx, Inst(JobOutputC, [output])) == Err(ValueError)
  {
    var t := Inst(JobOutputC, [output]);
    assert ParseJson(cx, t, rows[0]) == Err(ValueError);
    assert ListAllValues(cx, t) == Err(ValueError);
  }

  // ---- PretrainedModel.instance_class ----

  /**
   * A pretrained-model type's instance-class slot: empty until a build
   * succeeds, then kept. A failing build leaves the slot empty.
   */
  class PretrainedModelType {
    const typeArgs: seq<TypeArg>
    var instanceClass: Option<InstanceClass>

    constructor(args: seq<TypeArg>)
      ensures typeArgs == args && instanceClass == None
    {
      typeArgs := args;
      instanceClass := None;
    }

    /** `instance_class`: built by `build` while the slot is empty, and cached once built. */
    method InstanceClassOf(build: seq<TypeArg> -> Res<InstanceClass>) returns (r: Res<InstanceClass>)
      modifies this
      ensures old(instanceClass).Some? ==> r == Ok(old(instanceClass).value) && instanceClass == old(instanceClass)
      ensures old(instanceClass).None? ==> r == build(typeArgs)
      ensures old(instanceClass).None? ==> instanceClass == if r.Ok? then Some(r.value) else None
    {
      if instanceClass.None? {
        r := build(typeArgs);
        if r.Ok? {
          instanceClass := Some(r.value);
        }
      } else {
        r := Ok(instanceClass.value);
      }
    }
  }

  /** So a pretrained-model type has no schema and neither parses nor formats JSON. */
  lemma PretrainedModelEncodingsRaise(cx: Ctx, d: TypeArg, f: TypeArg, v: Value)
    requires !(f.Inst? && f.cls == PretrainedModelC)
    ensures JsonSchemaOf(cx, Inst(PretrainedModelC, [d, f])) == Err(AttributeError)
    ensures ParseJson(cx, Inst(PretrainedModelC, [d, f]), v) == Err(AttributeError)
    ensures FormatJson(cx, Inst(PretrainedModelC, [d, f]), v) == Err(AttributeError)
  {
  }

  /** With a builder that succeeds, asking twice gives the same class, even if the builder would now build another. */
  method InstanceClassIsStable(args: seq<TypeArg>, first: seq<TypeArg> -> Res<InstanceClass>, second: seq<TypeArg> -> Res<InstanceClass>)
    returns (a: Res<InstanceClass>, b: Res<InstanceClass>)
    requires first(args).Ok?
    ensures a == b && a == first(args)
  {
    var m := new PretrainedModelType(args);
    a := m.InstanceClassOf(first);
    b := m.InstanceClassOf(second);
  }

  /**
   * As written the build always raises, so every use of `instance_class`
   * raises and the slot stays empty.
   */
  method InstanceClassAsWrittenNeverCached(args: seq<TypeArg>) returns (a: Res<InstanceClass>, b: Res<InstanceClass>, cached: Option<InstanceClass>)
    requires |args| == 2 && !(args[1].Inst? && args[1].cls == PretrainedModelC)
    ensures a == Err(AttributeError) && b == Err(AttributeError) && cached == None
  {
    var m := new PretrainedModelType(args);
    a := m.InstanceClassOf(SpecialisedInstanceClass);
    b := m.InstanceClassOf(SpecialisedInstanceClass);
    cached := m.instanceClass;
  }
}
