/**
 * The server-resident types' own rules: which backend table holds their
 * values, which filter rules their type arguments imply, and for the named
 * ones which field holds the name.
 */
module Servers {
  import opened Wrappers
  import opened Json
  import opened Errors
  import opened Classes
  import opened Registry
  import Engine
  import Format
  import Text

  /** `server_table_name()`; the abstract base class raises NotImplementedError, other classes have no such method. */
  function TableName(c: ClassId): (r: Res<string>)
    ensures r.Ok? <==> c in {JobOutputC, DockerImageC, PretrainedModelC, FrameworkC, DomainC, CUDAVersionC, HardwareC}
  {
    match c
    case JobOutputC => Ok("JobOutput")
    case DockerImageC => Ok("DockerImage")
    case PretrainedModelC => Ok("pretrained-models")
    case FrameworkC => Ok("Framework")
    case DomainC => Ok("DataDomain")
    case CUDAVersionC => Ok("cuda")
    case HardwareC => Ok("hardware")
    case ServerResidentC => Err(NotImplemented)
    case NamedServerC => Err(NotImplemented)
    case _ => Err(AttributeError)
  }

  /** `args[i]`, raising IndexError past the end. */
  function Arg(args: seq<TypeArg>, i: nat): (r: Res<TypeArg>)
    ensures r.Ok? <==> i < |args|
    ensures r.Ok? ==> r.value == args[i]
  {
    if i < |args| then Ok(args[i]) else Err(IndexError)
  }

  /** `a, b = args`, raising ValueError unless there are exactly two. */
  function Pair(args: seq<TypeArg>): (r: Res<(TypeArg, TypeArg)>)
    ensures r.Ok? <==> |args| == 2
    ensures r.Ok? ==> r.value == (args[0], args[1])
  {
    if |args| == 2 then Ok((args[0], args[1])) else Err(ValueError)
  }

  /** `isinstance(t, C)` for an instance `t` and a UFDL class `C`. */
  predicate IsInstanceOf(t: TypeArg, c: ClassId)
  {
    t.Inst? && Descends(t.cls, c)
  }

  /** The dict entry `key: value` when `arg` is a raw string, and nothing otherwise. */
  function RuleIfString(key: string, arg: TypeArg): (r: seq<(string, FilterValue)>)
    ensures r == [] <==> !(arg.Lit? && arg.lit.LStr?)
  {
    if arg.Lit? && arg.lit.LStr? then [(key, Plain(Str(arg.lit.s)))] else []
  }

  /** The rules a docker image's domain argument contributes; a domain instance must unpack into two arguments. */
  function DockerDomainRules(domain: TypeArg): Res<seq<(string, FilterValue)>>
  {
    if !IsInstanceOf(domain, DomainC) then Ok([])
    else
      var (name, description) :- Pair(domain.args);
      Ok(RuleIfString("domain.name", name) + RuleIfString("domain.description", description))
  }

  function DockerFrameworkRules(framework: TypeArg): Res<seq<(string, FilterValue)>>
  {
    if !IsInstanceOf(framework, FrameworkC) then Ok([])
    else
      var (name, version) :- Pair(framework.args);
      Ok(RuleIfString("framework.name", name) + RuleIfString("framework.version", version))
  }

  /** `DockerImage.filter_rules`: a dict with an entry for each raw-string argument of its domain and framework. */
  function DockerImageRules(args: seq<TypeArg>): (r: Res<Filters>)
    ensures r.Ok? ==> r.value.RuleDict? && forall i :: 0 <= i < |r.value.entries| ==>
      r.value.entries[i].0 in {"domain.name", "domain.description", "framework.name", "framework.version"}
      && r.value.entries[i].1.Plain? && r.value.entries[i].1.v.Str?
  {
    var (domain, framework) :- Pair(args);
    var d :- DockerDomainRules(domain);
    var f :- DockerFrameworkRules(framework);
    Ok(RuleDict(d + f))
  }

  /** `Exact(field, v)` when `value()` of `arg` is a string literal, and nothing otherwise. */
  function ExactIfString(field: string, arg: TypeArg): (r: Res<seq<Rule>>)
    ensures r.Ok? <==> Engine.ValueOf(arg).Ok?
    ensures r.Ok? && Engine.ValueOf(arg).value.LiteralValue? && Engine.ValueOf(arg).value.lit.LStr?
            ==> r.value == [Exact(field, Str(Engine.ValueOf(arg).value.lit.s))]
    ensures r.Ok? && !(Engine.ValueOf(arg).value.LiteralValue? && Engine.ValueOf(arg).value.lit.LStr?) ==> r.value == []
  {
    var attr :- Engine.ValueOf(arg);
    if attr.LiteralValue? && attr.lit.LStr? then Ok([Exact(field, Str(attr.lit.s))]) else Ok([])
  }

  function PretrainedDomainRules(domain: TypeArg): Res<seq<Rule>>
  {
    if !IsInstanceOf(domain, DomainC) then Ok([])
    else
      var description :- Arg(domain.args, 0);
      ExactIfString("domain.description", description)
  }

  function PretrainedFrameworkRules(framework: TypeArg): Res<seq<Rule>>
  {
    if !IsInstanceOf(framework, FrameworkC) then Ok([])
    else
      var (name, version) :- Pair(framework.args);
      var n :- ExactIfString("framework.name", name);
      var v :- ExactIfString("framework.version", version);
      Ok(n + v)
  }

  /** `PretrainedModel.filter_rules`: exact-match expressions, domain first, then framework name and version. */
  function PretrainedModelRules(args: seq<TypeArg>): (r: Res<Filters>)
    ensures r.Ok? ==> r.value.RuleList? && |r.value.rules| <= 3
  {
    var (domain, framework) :- Pair(args);
    var d :- PretrainedDomainRules(domain);
    var f :- PretrainedFrameworkRules(framework);
    Ok(RuleList(d + f))
  }

  /** `Domain.filter_rules`: the name, lower-cased; only a raw string has `lower()` to call. */
  function DomainRules(args: seq<TypeArg>): (r: Res<Filters>)
    ensures r.Ok? <==> |args| > 0 && args[0].Lit? && args[0].lit.LStr?
    ensures r.Ok? ==> r.value == RuleDict([("name", Plain(Str(Text.Lower(args[0].lit.s))))])
  {
    var name :- Arg(args, 0);
    match name
    case Lit(LStr(s)) => Ok(RuleDict([("name", Plain(Str(Text.Lower(s))))]))
    case Cls(BuiltinClass(KStr)) => Err(TypeError)      // `str.lower()` called without an instance
    case _ => Err(AttributeError)
  }

  /** `Framework.filter_rules`: always the two keys, mapped to the arguments themselves. */
  function FrameworkRules(args: seq<TypeArg>): (r: Res<Filters>)
    ensures r.Ok? <==> |args| >= 2
    ensures r.Ok? ==> r.value == RuleDict([("name", TypeObject(args[0])), ("version", TypeObject(args[1]))])
  {
    var name :- Arg(args, 0);
    var version :- Arg(args, 1);
    Ok(RuleDict([("name", TypeObject(name)), ("version", TypeObject(version))]))
  }

  /** `JobOutput.filter_rules`: the type argument's formatted name under `type`. */
  function JobOutputRules(tb: Tables, args: seq<TypeArg>): (r: Res<Filters>)
    ensures r.Ok? <==> |args| > 0 && Format.FormatTypeOrTypeClass(tb, args[0]).Ok?
    ensures r.Ok? ==> r.value == RuleDict([("type", Plain(Str(Format.FormatTypeOrTypeClass(tb, args[0]).value)))])
  {
    var output :- Arg(args, 0);
    var name :- Format.FormatTypeOrTypeClass(tb, output);
    Ok(RuleDict([("type", Plain(Str(name)))]))
  }

  /** `filter_rules()` of an instance of class `c` with arguments `args`. */
  function FilterRules(tb: Tables, c: ClassId, args: seq<TypeArg>): (r: Res<Filters>)
    ensures c in {CUDAVersionC, HardwareC} ==> r == Ok(RuleList([]))
  {
    match c
    case JobOutputC => JobOutputRules(tb, args)
    case DockerImageC => DockerImageRules(args)
    case PretrainedModelC => PretrainedModelRules(args)
    case FrameworkC => FrameworkRules(args)
    case DomainC => DomainRules(args)
    case CUDAVersionC => Ok(RuleList([]))
    case HardwareC => Ok(RuleList([]))
    case ServerResidentC => Err(NotImplemented)
    case NamedServerC => Err(NotImplemented)
    case _ => Err(AttributeError)
  }

  /** The field a named server type's name lives in; the named base class only has `extract_name`. */
  function NameField(c: ClassId): (r: Res<string>)
    ensures r.Ok? <==> c in {PretrainedModelC, CUDAVersionC, HardwareC}
  {
    match c
    case PretrainedModelC => Ok("name")
    case CUDAVersionC => Ok("full_version")
    case HardwareC => Ok("generation")
    case _ => Err(AttributeError)
  }

  /** `value[key]` on a raw JSON value: a dict lookup, KeyError when missing, TypeError for other values. */
  function Field(v: Value, key: string): (r: Res<Value>)
    ensures r.Ok? <==> v.Dict? && Lookup(v.entries, Str(key)).Some?
    ensures r.Ok? ==> r.value == Lookup(v.entries, Str(key)).value
  {
    if !v.Dict? then Err(TypeError)
    else match Lookup(v.entries, Str(key))
      case None => Err(KeyError)
      case Some(x) => Ok(x)
  }

  /** `extract_name_from_json(row)`. */
  function ExtractName(c: ClassId, row: Value): Res<Value>
  {
    var field :- NameField(c);
    Field(row, field)
  }

  /** `name_filter(name)`: an exact match on the same field. */
  function NameFilter(c: ClassId, name: string): Res<Rule>
  {
    var field :- NameField(c);
    Ok(Exact(field, Str(name)))
  }

  /** A row satisfies an exact-match rule when its field holds exactly that value. */
  predicate Matches(rule: Rule, row: Value)
  {
    row.Dict? && Lookup(row.entries, Str(rule.field)) == Some(rule.value)
  }

  // ---- properties ----

  /** The filter built from the name extracted from a row matches that row, for every named type. */
  lemma NameFilterMatchesExtracted(c: ClassId, row: Value, name: string)
    requires ExtractName(c, row) == Ok(Str(name))
    ensures NameFilter(c, name).Ok? && Matches(NameFilter(c, name).value, row)
  {
  }

  /** Every domain instance has one argument, so a docker image constrained by a domain instance cannot build its rules. */
  lemma DockerImageDomainInstanceFails(d: TypeArg, framework: TypeArg)
    requires IsInstanceOf(d, DomainC) && |d.args| != 2
    ensures DockerImageRules([d, framework]) == Err(ValueError)
  {
  }

  /** With the declared default arguments, the docker image rules are empty: the bounds are classes, not instances. */
  lemma DockerImageDefaultRules()
    ensures DockerImageRules(Bounds(DockerImageC)) == Ok(RuleDict([]))
  {
    var bs := Bounds(DockerImageC);
    assert DockerDomainRules(bs[0]) == Ok([]) && DockerFrameworkRules(bs[1]) == Ok([]);
    var none: seq<(string, FilterValue)> := [];
    assert none + none == none;
  }

  /** A docker image whose framework is `Framework<'n', 'v'>` filters on exactly that name and version. */
  lemma DockerImageFrameworkRules(d: TypeArg, name: string, version: string)
    requires !IsInstanceOf(d, DomainC)
    ensures DockerImageRules([d, Inst(FrameworkC, [Lit(LStr(name)), Lit(LStr(version))])])
         == Ok(RuleDict([("framework.name", Plain(Str(name))), ("framework.version", Plain(Str(version)))]))
  {
    var f := Inst(FrameworkC, [Lit(LStr(name)), Lit(LStr(version))]);
    assert Descends(FrameworkC, FrameworkC);
    assert DockerDomainRules(d) == Ok([]);
    assert IsInstanceOf(f, FrameworkC);
    assert Pair(f.args) == Ok((Lit(LStr(name)), Lit(LStr(version))));
    assert RuleIfString("framework.name", Lit(LStr(name))) + RuleIfString("framework.version", Lit(LStr(version)))
        == [("framework.name", Plain(Str(name))), ("framework.version", Plain(Str(version)))];
    assert DockerFrameworkRules(f) == Ok([("framework.name", Plain(Str(name))), ("framework.version", Plain(Str(version)))]);
    assert [] + [("framework.name", Plain(Str(name))), ("framework.version", Plain(Str(version)))]
        == [("framework.name", Plain(Str(name))), ("framework.version", Plain(Str(version)))];
  }

  /**
   * A pretrained model's rules: a domain.description rule exactly when the
   * domain's argument is a string literal type, then the framework's name and
   * version rules exactly when those are string literal types, in that order.
   */
  lemma PretrainedModelRuleOrder(dn: Literal, fname: Literal, fversion: Literal)
    ensures PretrainedModelRules([Inst(DomainC, [Inst(LitC(dn), [])]),
                                  Inst(FrameworkC, [Inst(LitC(fname), []), Inst(LitC(fversion), [])])])
         == Ok(RuleList(
              (if dn.LStr? then [Exact("domain.description", Str(dn.s))] else [])
              + (if fname.LStr? then [Exact("framework.name", Str(fname.s))] else [])
              + (if fversion.LStr? then [Exact("framework.version", Str(fversion.s))] else [])))
  {
    var d := Inst(DomainC, [Inst(LitC(dn), [])]);
    var f := Inst(FrameworkC, [Inst(LitC(fname), []), Inst(LitC(fversion), [])]);
    assert Descends(DomainC, DomainC) && Descends(FrameworkC, FrameworkC);
    assert Engine.ValueOf(Inst(LitC(dn), [])) == Ok(Engine.ValueAttr.LiteralValue(dn));
    assert Engine.ValueOf(Inst(LitC(fname), [])) == Ok(Engine.ValueAttr.LiteralValue(fname));
    assert Engine.ValueOf(Inst(LitC(fversion), [])) == Ok(Engine.ValueAttr.LiteralValue(fversion));
    assert IsInstanceOf(d, DomainC) && IsInstanceOf(f, FrameworkC);
    assert PretrainedDomainRules(d) == Ok(if dn.LStr? then [Exact("domain.description", Str(dn.s))] else []);
    assert PretrainedFrameworkRules(f) == Ok((if fname.LStr? then [Exact("framework.name", Str(fname.s))] else [])
      + (if fversion.LStr? then [Exact("framework.version", Str(fversion.s))] else []));
    var a: seq<Rule> := if dn.LStr? then [Exact("domain.description", Str(dn.s))] else [];
    var b: seq<Rule> := if fname.LStr? then [Exact("framework.name", Str(fname.s))] else [];
    var c: seq<Rule> := if fversion.LStr? then [Exact("framework.version", Str(fversion.s))] else [];
    assert a + (b + c) == a + b + c;
  }

  /** With its declared default bounds a pretrained model cannot build its rules: `str` has no `value()`. */
  lemma PretrainedModelDefaultRulesFail()
    ensures PretrainedModelRules(Bounds(PretrainedModelC)) == Err(AttributeError)
  {
    assert Descends(DomainC, DomainC);
  }
}
