/**
 * The generic type engine of `UFDLType` and `ValueType`: class names through the
 * registry, subtyping, construction with arity and bound checks, the canonical
 * text form (`__str__`), abstractness and the `value()` of value types.
 */
module Engine {
  import opened Wrappers
  import opened Errors
  import opened Classes
  import opened Registry
  import Text

  /** `format_type_class_name`: the registered name of a class. */
  function TypeClassName(tb: Tables, c: ClassId): (r: Res<string>)
    ensures r == Err(NotInitialised) <==> tb.typeToName.None?
    ensures r == Err(ValueError) <==> tb.typeToName.Some? && UfdlClass(c) !in tb.typeToName.value
    ensures r.Ok? <==> tb.typeToName.Some? && UfdlClass(c) in tb.typeToName.value
    ensures r.Ok? ==> r.value == tb.typeToName.value[UfdlClass(c)]
  {
    match TranslateType(tb, UfdlClass(c))
    case Err(e) => Err(e)
    case Ok(None) => Err(ValueError)
    case Ok(Some(name)) => Ok(name)
  }

  // ---- is_subtype_of ----

  /**
   * `a.is_subtype_of(b)`. Only instances have the method (a bare UFDL class gets
   * an unbound call that lacks an argument); `b` must be an instance of a class `a`
   * descends from, and the paired arguments are checked left to right, stopping at
   * the first that is not a subtype.
   */
  function IsSubtypeOf(a: TypeArg, b: TypeArg): (r: Res<bool>)
    decreases a, 1
    ensures r == Ok(true) <==>
      && a.Inst? && b.Inst? && Descends(a.cls, b.cls)
      && forall i :: 0 <= i < |a.args| && i < |b.args| ==> IsSubtypeOf(a.args[i], b.args[i]) == Ok(true)
    ensures r.Err? ==> !a.Inst? || (b.Inst? && exists i :: 0 <= i < |a.args| && i < |b.args| && IsSubtypeOf(a.args[i], b.args[i]) == r)
  {
    match a
    case Cls(UfdlClass(_)) => Err(TypeError)
    case Cls(BuiltinClass(_)) => Err(AttributeError)
    case Lit(_) => Err(AttributeError)
    case Inst(c, _) =>
      if !b.Inst? || !Descends(c, b.cls) then Ok(false)
      else ArgsSubtypes(a, b, 0)
  }

  function ArgsSubtypes(a: TypeArg, b: TypeArg, i: nat): (r: Res<bool>)
    requires a.Inst? && b.Inst?
    decreases a, 0, |a.args| - i
    ensures r == Ok(true) <==>
      forall j :: i <= j < |a.args| && j < |b.args| ==> IsSubtypeOf(a.args[j], b.args[j]) == Ok(true)
    ensures r.Err? ==> exists j :: i <= j < |a.args| && j < |b.args| && IsSubtypeOf(a.args[j], b.args[j]) == r
  {
    if i >= |a.args| || i >= |b.args| then Ok(true)
    else
      match IsSubtypeOf(a.args[i], b.args[i])
      case Err(e) => Err(e)
      case Ok(false) => Ok(false)
      case Ok(true) => ArgsSubtypes(a, b, i + 1)
  }

  /** An instance tree built from instances only, each with as many arguments as its class has parameters. */
  predicate Shaped(t: TypeArg)
  {
    t.Inst? && |t.args| == |Bounds(t.cls)| && forall i :: 0 <= i < |t.args| ==> Shaped(t.args[i])
  }

  lemma {:induction false} SubtypeReflexive(t: TypeArg)
    requires Shaped(t)
    ensures IsSubtypeOf(t, t) == Ok(true)
  {
    forall i | 0 <= i < |t.args| ensures IsSubtypeOf(t.args[i], t.args[i]) == Ok(true) {
      SubtypeReflexive(t.args[i]);
    }
  }

  lemma {:induction false} SubtypeTransitive(a: TypeArg, b: TypeArg, c: TypeArg)
    requires Shaped(a) && Shaped(b) && Shaped(c)
    requires IsSubtypeOf(a, b) == Ok(true) && IsSubtypeOf(b, c) == Ok(true)
    ensures IsSubtypeOf(a, c) == Ok(true)
  {
    DescendsTransitive(a.cls, b.cls, c.cls);
    if |c.args| > 0 {
      ParameterisedClassIsLeaf(b.cls, c.cls);
      ParameterisedClassIsLeaf(a.cls, c.cls);
      forall i | 0 <= i < |a.args| && i < |c.args| ensures IsSubtypeOf(a.args[i], c.args[i]) == Ok(true) {
        SubtypeTransitive(a.args[i], b.args[i], c.args[i]);
      }
    }
  }

  lemma {:induction false} SubtypeAntisymmetric(a: TypeArg, b: TypeArg)
    requires Shaped(a) && Shaped(b)
    requires IsSubtypeOf(a, b) == Ok(true) && IsSubtypeOf(b, a) == Ok(true)
    ensures a == b
  {
    DescendsAntisymmetric(a.cls, b.cls);
    forall i | 0 <= i < |a.args| ensures a.args[i] == b.args[i] {
      SubtypeAntisymmetric(a.args[i], b.args[i]);
    }
    assert a.args == b.args;
  }

  /** For well-shaped instances, `==` holds exactly when each is a subtype of the other. */
  lemma EqualityIsMutualSubtyping(a: TypeArg, b: TypeArg)
    requires Shaped(a) && Shaped(b)
    ensures PyEq(a, b) <==> IsSubtypeOf(a, b) == Ok(true) && IsSubtypeOf(b, a) == Ok(true)
  {
    ShapedHasNoAliases(a);
    ShapedHasNoAliases(b);
    PyEqIsEquality(a, b);
    if a == b {
      SubtypeReflexive(a);
    } else if IsSubtypeOf(a, b) == Ok(true) && IsSubtypeOf(b, a) == Ok(true) {
      SubtypeAntisymmetric(a, b);
    }
  }

  lemma {:induction false} ShapedHasNoAliases(t: TypeArg)
    requires Shaped(t)
    ensures NoNumericAliases(t)
  {
    forall i | 0 <= i < |t.args| ensures NoNumericAliases(t.args[i]) {
      ShapedHasNoAliases(t.args[i]);
    }
  }

  /** A literal's class derives from its kind's class and from no other kind's class. */
  lemma LiteralSubtypeOfKind(l: Literal, k: Kind)
    ensures IsSubtypeOf(Inst(LitC(l), []), Inst(KindC(k), [])) == Ok(k == KindOf(l))
  {
    if k != KindOf(l) {
      NotDescendsDeeper(ValueTypeC, KindC(k));
      assert !Descends(KindC(KindOf(l)), KindC(k));
      assert !Descends(LitC(l), KindC(k));
    } else {
      assert Descends(LitC(l), KindC(k));
    }
  }

  /** A default instance whose arguments are bare classes is not a subtype of itself: the check raises. */
  lemma DefaultDomainNotReflexive()
    ensures IsSubtypeOf(DomainDefault, DomainDefault) == Err(AttributeError)
  {
    assert ArgsSubtypes(DomainDefault, DomainDefault, 0) == Err(AttributeError);
  }

  // ---- __str__ ----

  /** The dotted path Python prints in a class's `repr`. */
  function QualName(c: ClassId): string
  {
    match c
    case UFDLTypeC => "ufdl.jobtypes.base._UFDLType.UFDLType"
    case UFDLBinaryC => "ufdl.jobtypes.base._UFDLBinaryType.UFDLBinaryType"
    case UFDLJSONC => "ufdl.jobtypes.base._UFDLJSONType.UFDLJSONType"
    case FiniteJSONC => "ufdl.jobtypes.base._FiniteJSONType.FiniteJSONType"
    case ServerResidentC => "ufdl.jobtypes.base._ServerResidentType.ServerResidentType"
    case NamedServerC => "ufdl.jobtypes.base._NamedServerType.NamedServerType"
    case ValueTypeC => "ufdl.jobtypes.base._ValueType.ValueType"
    case KindC(_) => "ufdl.jobtypes.base._ValueType.ValueType.generate_subclass.<locals>.SpecialisedValueType"
    case LitC(_) => "ufdl.jobtypes.base._ValueType.ValueType.generate_subclass.<locals>.SpecialisedValueType"
    case ArrayC => "ufdl.jobtypes.standard.container._Array.Array"
    case MapC => "ufdl.jobtypes.standard.container._Map.Map"
    case PKC => "ufdl.jobtypes.standard._PK.PK"
    case NameC => "ufdl.jobtypes.standard._Name.Name"
    case JobOutputC => "ufdl.jobtypes.standard._JobOutput.JobOutput"
    case DockerImageC => "ufdl.jobtypes.standard.server._DockerImage.DockerImage"
    case PretrainedModelC => "ufdl.jobtypes.standard.server._PretrainedModel.PretrainedModel"
    case FrameworkC => "ufdl.jobtypes.standard.server._Framework.Framework"
    case DomainC => "ufdl.jobtypes.standard.server._Domain.Domain"
    case CUDAVersionC => "ufdl.jobtypes.standard.server._CUDAVersion.CUDAVersion"
    case HardwareC => "ufdl.jobtypes.standard.server._Hardware.Hardware"
    case NothingC => "ufdl.jobtypes.standard.util._Nothing.Nothing"
    case BLOBC => "ufdl.jobtypes.standard.util._BLOB.BLOB"
    case ModelC => "ufdl.jobtypes.standard._Model.Model"
    case IntegerC => "ufdl.jobtypes.standard.simple._Integer.Integer"
    case BooleanC => "ufdl.jobtypes.standard.simple._Boolean.Boolean"
    case StringC => "ufdl.jobtypes.standard.simple._String.String"
  }

  function KindName(k: Kind): string
  {
    match k
    case KStr => "str"
    case KInt => "int"
    case KFloat => "float"
    case KBool => "bool"
  }

  /** `str()` of a class object. */
  function ClassRepr(o: TypeObj): string
  {
    match o
    case UfdlClass(c) => "<class '" + QualName(c) + "'>"
    case BuiltinClass(k) => "<class '" + KindName(k) + "'>"
  }

  /** `str()` of a raw Python literal. */
  function PythonStr(fs: FloatSyntax, l: Literal): string
  {
    match l
    case LStr(s) => s
    case LInt(i) => Text.IntToString(i)
    case LBool(b) => if b then "True" else "False"
    case LFloat(f) => fs.repr(f)
  }

  const TrueSymbol := "@true"
  const FalseSymbol := "@false"

  /** The text of a literal value type: quoted and escaped, `@true`/`@false`, or the number. */
  function LiteralText(fs: FloatSyntax, l: Literal): string
  {
    match l
    case LStr(s) => "'" + Text.Escape(s) + "'"
    case LBool(b) => if b then TrueSymbol else FalseSymbol
    case LInt(i) => Text.IntToString(i)
    case LFloat(f) => fs.repr(f)
  }

  /**
   * `str(t)`: a kind class's registered name, a literal's text, otherwise the
   * registered name followed by the arguments' own `str` inside `<...>`.
   */
  function StrOf(tb: Tables, fs: FloatSyntax, t: TypeArg): (r: Res<string>)
    decreases Weight(t), 1
    ensures t.Cls? || t.Lit? || (t.Inst? && t.cls.LitC?) ==> r.Ok?
    ensures t.Inst? && !t.cls.LitC? && r.Ok? ==> TypeClassName(tb, t.cls).Ok? && TypeClassName(tb, t.cls).value <= r.value
  {
    match t
    case Inst(KindC(k), _) => TypeClassName(tb, KindC(k))
    case Inst(LitC(l), _) => Ok(LiteralText(fs, l))
    case Inst(c, args) =>
      (match TypeClassName(tb, c)
       case Err(e) => Err(e)
       case Ok(name) =>
         match StrArgs(tb, fs, args)
         case Err(e) => Err(e)
         case Ok(text) => Ok(name + text))
    case Cls(o) => Ok(ClassRepr(o))
    case Lit(l) => Ok(PythonStr(fs, l))
  }

  /** `format_type_args`: empty for no arguments, otherwise `<a, b, ...>`. */
  function StrArgs(tb: Tables, fs: FloatSyntax, args: seq<TypeArg>): (r: Res<string>)
    decreases SumWeight(args), 3
    ensures |args| == 0 ==> r == Ok("")
    ensures r.Ok? && |args| > 0 ==> |r.value| >= 2 && r.value[0] == '<' && r.value[|r.value| - 1] == '>'
  {
    if |args| == 0 then Ok("")
    else
      match StrAll(tb, fs, args)
      case Err(e) => Err(e)
      case Ok(parts) => Ok("<" + Text.Join(parts, ", ") + ">")
  }

  function StrAll(tb: Tables, fs: FloatSyntax, args: seq<TypeArg>): (r: Res<seq<string>>)
    decreases SumWeight(args), 2
    ensures r.Ok? ==> |r.value| == |args|
  {
    if |args| == 0 then Ok([])
    else
      match StrOf(tb, fs, args[0])
      case Err(e) => Err(e)
      case Ok(s) =>
        match StrAll(tb, fs, args[1..])
        case Err(e) => Err(e)
        case Ok(rest) => Ok([s] + rest)
  }

  /** Each printed argument is that argument's own `str`, in order. */
  lemma {:induction false} StrAllElements(tb: Tables, fs: FloatSyntax, args: seq<TypeArg>)
    requires StrAll(tb, fs, args).Ok?
    ensures forall i :: 0 <= i < |args| ==> StrOf(tb, fs, args[i]) == Ok(StrAll(tb, fs, args).value[i])
  {
    if |args| > 0 {
      StrAllElements(tb, fs, args[1..]);
    }
  }

  /** Printing the arguments fails exactly when one of them fails, with the first such error. */
  lemma {:induction false} StrAllFailure(tb: Tables, fs: FloatSyntax, args: seq<TypeArg>)
    ensures StrAll(tb, fs, args).Ok? <==> forall i :: 0 <= i < |args| ==> StrOf(tb, fs, args[i]).Ok?
    ensures StrAll(tb, fs, args).Err? ==>
      exists k :: 0 <= k < |args| && StrOf(tb, fs, args[k]) == Err(StrAll(tb, fs, args).error) &&
        forall j :: 0 <= j < k ==> StrOf(tb, fs, args[j]).Ok?
  {
    if |args| > 0 {
      StrAllFailure(tb, fs, args[1..]);
      if StrOf(tb, fs, args[0]).Ok? && StrAll(tb, fs, args[1..]).Err? {
        var k :| 0 <= k < |args[1..]| && StrOf(tb, fs, args[1..][k]) == Err(StrAll(tb, fs, args[1..]).error) &&
          forall j :: 0 <= j < k ==> StrOf(tb, fs, args[1..][j]).Ok?;
        assert StrOf(tb, fs, args[k + 1]) == Err(StrAll(tb, fs, args).error);
        assert forall j :: 1 <= j < k + 1 ==> args[j] == args[1..][j - 1];
      }
      if StrAll(tb, fs, args).Ok? {
        forall i | 0 <= i < |args| ensures StrOf(tb, fs, args[i]).Ok? {
          if i > 0 { assert args[i] == args[1..][i - 1]; }
        }
      }
      if forall i :: 0 <= i < |args| ==> StrOf(tb, fs, args[i]).Ok? {
        assert forall i :: 0 <= i < |args[1..]| ==> args[1..][i] == args[i + 1];
      }
    }
  }

  /** `format_type_args` brackets the ", "-join of the arguments' own `str`. */
  lemma StrArgsText(tb: Tables, fs: FloatSyntax, args: seq<TypeArg>)
    requires |args| > 0
    ensures StrArgs(tb, fs, args).Ok? <==> forall i :: 0 <= i < |args| ==> StrOf(tb, fs, args[i]).Ok?
    ensures StrArgs(tb, fs, args).Ok? ==>
      exists parts: seq<string> :: |parts| == |args| &&
        (forall i :: 0 <= i < |args| ==> StrOf(tb, fs, args[i]) == Ok(parts[i])) &&
        StrArgs(tb, fs, args).value == "<" + Text.Join(parts, ", ") + ">"
  {
    StrAllFailure(tb, fs, args);
    if StrAll(tb, fs, args).Ok? {
      StrAllElements(tb, fs, args);
    }
  }

  /**
   * An instance of a class other than a kind or a literal prints as its
   * registered name, followed, when it has arguments, by their bracketed join.
   */
  lemma StrOfInstance(tb: Tables, fs: FloatSyntax, c: ClassId, args: seq<TypeArg>)
    requires !c.KindC? && !c.LitC? && |args| > 0
    ensures StrOf(tb, fs, Inst(c, args)).Ok? <==>
      TypeClassName(tb, c).Ok? && forall i :: 0 <= i < |args| ==> StrOf(tb, fs, args[i]).Ok?
    ensures StrOf(tb, fs, Inst(c, args)).Ok? ==>
      exists parts: seq<string> :: |parts| == |args| &&
        (forall i :: 0 <= i < |args| ==> StrOf(tb, fs, args[i]) == Ok(parts[i])) &&
        StrOf(tb, fs, Inst(c, args)).value == TypeClassName(tb, c).value + "<" + Text.Join(parts, ", ") + ">"
  {
    StrArgsText(tb, fs, args);
    if StrOf(tb, fs, Inst(c, args)).Ok? {
      var parts :| |parts| == |args| &&
        (forall i :: 0 <= i < |args| ==> StrOf(tb, fs, args[i]) == Ok(parts[i])) &&
        StrArgs(tb, fs, args).value == "<" + Text.Join(parts, ", ") + ">";
      assert TypeClassName(tb, c).value + ("<" + Text.Join(parts, ", ") + ">")
          == TypeClassName(tb, c).value + "<" + Text.Join(parts, ", ") + ">";
    }
  }

  /** An instance without arguments prints as its bare registered name. */
  lemma StrOfParameterless(tb: Tables, fs: FloatSyntax, c: ClassId)
    requires !c.KindC? && !c.LitC?
    ensures StrOf(tb, fs, Inst(c, [])) == TypeClassName(tb, c)
  {
    match TypeClassName(tb, c)
    case Ok(name) => assert name + "" == name;
    case Err(_) =>
  }

  /** A class the registry has no name for cannot be printed, whatever its arguments. */
  lemma UnnamedClassCannotPrint(tb: Tables, fs: FloatSyntax, c: ClassId, args: seq<TypeArg>)
    requires !c.LitC?
    requires tb.typeToName.Some? && UfdlClass(c) !in tb.typeToName.value
    ensures StrOf(tb, fs, Inst(c, args)) == Err(ValueError)
  {
  }

  /** Boolean literals print as the two symbols, never as digits. */
  lemma BoolLiteralText(tb: Tables, fs: FloatSyntax, b: bool)
    ensures StrOf(tb, fs, Inst(LitC(LBool(b)), [])) == Ok(if b then "@true" else "@false")
    ensures Text.ParseInt(StrOf(tb, fs, Inst(LitC(LBool(b)), [])).value).None?
  {
  }

  /** An integer literal prints as decimal text that `int()` reads back. */
  lemma IntLiteralText(tb: Tables, fs: FloatSyntax, i: int)
    ensures StrOf(tb, fs, Inst(LitC(LInt(i)), [])).Ok?
    ensures Text.ParseInt(StrOf(tb, fs, Inst(LitC(LInt(i)), [])).value) == Some(i)
  {
    Text.IntTextRoundTrip(i);
  }

  // ---- construction ----

  /** The `type_args` argument of `UFDLType.__init__`: omitted, a tuple, or some other object. */
  datatype TypeArgsParam = Omitted | TupleOf(items: seq<TypeArg>) | NotATuple(obj: TypeArg)

  /** The check of argument `i` against its bound; the message texts are computed, and may raise, before IsNotSubtype. */
  function CheckArg(tb: Tables, fs: FloatSyntax, arg: TypeArg, bound: TypeArg): (r: Res<()>)
    ensures r.Ok? <==> arg.Inst? && IsSubtypeOf(arg, bound) == Ok(true)
  {
    if !arg.Inst? then Err(TypeError)
    else
      match IsSubtypeOf(arg, bound)
      case Err(e) => Err(e)
      case Ok(true) => Ok(())
      case Ok(false) =>
        match StrOf(tb, fs, arg)
        case Err(e) => Err(e)
        case Ok(_) =>
          match StrOf(tb, fs, bound)
          case Err(e) => Err(e)
          case Ok(_) => Err(IsNotSubtype)
  }

  function CheckArgs(tb: Tables, fs: FloatSyntax, args: seq<TypeArg>, bounds: seq<TypeArg>): (r: Res<()>)
    requires |args| == |bounds|
    ensures r.Ok? <==> forall i :: 0 <= i < |args| ==> CheckArg(tb, fs, args[i], bounds[i]).Ok?
    ensures r.Err? ==> exists i :: 0 <= i < |args| && CheckArg(tb, fs, args[i], bounds[i]) == r
                                 && forall j :: 0 <= j < i ==> CheckArg(tb, fs, args[j], bounds[j]).Ok?
  {
    if |args| == 0 then Ok(())
    else
      match CheckArg(tb, fs, args[0], bounds[0])
      case Err(e) => Err(e)
      case Ok(_) =>
        var r := CheckArgs(tb, fs, args[1..], bounds[1..]);
        assert forall i :: 0 < i < |args| ==> args[i] == args[1..][i - 1] && bounds[i] == bounds[1..][i - 1];
        r
  }

  /**
   * `UFDLType.__init__` of class `c`. It computes the bounds first, and for a
   * class whose bound instantiates an abstract class that raises TypeError.
   */
  function Construct(tb: Tables, fs: FloatSyntax, c: ClassId, p: TypeArgsParam): (r: Res<TypeArg>)
    ensures HasAbstractBound(c) ==> r == Err(TypeError)
    ensures p.Omitted? && !HasAbstractBound(c) ==> r == Ok(Inst(c, Bounds(c)))
    ensures p.NotATuple? ==> r == Err(TypeError)
    ensures p.TupleOf? && |p.items| != |Bounds(c)| && !HasAbstractBound(c) ==>
      r == (match TypeClassName(tb, c)
            case Ok(name) => Err(WrongNumberOfTypeArgs(name, |p.items|, |Bounds(c)|))
            case Err(e) => Err(e))
    ensures p.TupleOf? ==> (r.Ok? <==>
      && !HasAbstractBound(c)
      && |p.items| == |Bounds(c)|
      && forall i :: 0 <= i < |p.items| ==> p.items[i].Inst? && IsSubtypeOf(p.items[i], Bounds(c)[i]) == Ok(true))
    ensures r.Ok? && p.TupleOf? ==> r.value == Inst(c, p.items)
    ensures r.Ok? ==> r.value.Inst? && r.value.cls == c && |r.value.args| == |Bounds(c)|
  {
    if HasAbstractBound(c) then Err(TypeError)
    else
      match p
      case Omitted => Ok(Inst(c, Bounds(c)))
      case NotATuple(_) => Err(TypeError)
      case TupleOf(args) =>
        var bounds := Bounds(c);
        if |args| != |bounds| then
          match TypeClassName(tb, c)
          case Ok(name) => Err(WrongNumberOfTypeArgs(name, |args|, |bounds|))
          case Err(e) => Err(e)
        else
          match CheckArgs(tb, fs, args, bounds)
          case Err(e) => Err(e)
          case Ok(_) => Ok(Inst(c, args))
  }

  /** `UFDLType.__init__` as the source runs it: the bounds, the arity check, then a loop over the zipped arguments and bounds. */
  method NewInstance(tb: Tables, fs: FloatSyntax, c: ClassId, p: TypeArgsParam) returns (r: Res<TypeArg>)
    ensures r == Construct(tb, fs, c, p)
  {
    if HasAbstractBound(c) {
      return Err(TypeError);
    }
    var bounds := Bounds(c);
    if p.Omitted? {
      return Ok(Inst(c, bounds));
    }
    if p.NotATuple? {
      return Err(TypeError);
    }
    var args := p.items;
    if |args| != |bounds| {
      var name := TypeClassName(tb, c);
      if name.Err? {
        return Err(name.error);
      }
      return Err(WrongNumberOfTypeArgs(name.value, |args|, |bounds|));
    }
    var i := 0;
    while i < |args|
      invariant 0 <= i <= |args|
      invariant forall j :: 0 <= j < i ==> CheckArg(tb, fs, args[j], bounds[j]).Ok?
    {
      var check := CheckArg(tb, fs, args[i], bounds[i]);
      if check.Err? {
        return Err(check.error);
      }
      i := i + 1;
    }
    return Ok(Inst(c, args));
  }

  /** Explicit arguments never build a Domain, Framework, DockerImage or JobOutput: their bounds are bare classes. */
  lemma ClassBoundedTypesOnlyByDefault(tb: Tables, fs: FloatSyntax, c: ClassId, args: seq<TypeArg>)
    requires c in {DomainC, FrameworkC, DockerImageC, JobOutputC}
    ensures Construct(tb, fs, c, TupleOf(args)).Err?
  {
    if |args| == |Bounds(c)| {
      assert !(args[0].Inst? && IsSubtypeOf(args[0], Bounds(c)[0]) == Ok(true));
    }
  }

  /**
   * Nor do explicit arguments build a PretrainedModel or a Model: a Domain argument
   * with its one parameter is checked against `Domain()`, whose argument is the
   * bare class `str`, and comparing against that raises or fails.
   */
  lemma DomainFrameworkBoundedOnlyByDefault(tb: Tables, fs: FloatSyntax, c: ClassId, args: seq<TypeArg>)
    requires c == PretrainedModelC || c == ModelC
    requires |args| == 2 ==> args[0].Inst? ==> |args[0].args| == |Bounds(args[0].cls)|
    ensures Construct(tb, fs, c, TupleOf(args)).Err?
  {
    if |args| == 2 && args[0].Inst? && Descends(args[0].cls, DomainC) {
      ParameterisedClassIsLeaf(args[0].cls, DomainC);
      var d := args[0];
      assert |d.args| == 1;
      assert IsSubtypeOf(d.args[0], StrClass) != Ok(true);
      assert IsSubtypeOf(d, DomainDefault) != Ok(true);
    }
  }

  // ---- is_abstract and value() ----

  /** The truth value of `arg.is_abstract` for a container's first argument. */
  function ArgIsAbstract(arg: TypeArg): Res<bool>
    decreases arg, 1
  {
    match arg
    case Inst(c, args) => IsAbstract(c, args)
    case Cls(UfdlClass(_)) => Ok(true)            // the property object itself, which is truthy
    case Cls(BuiltinClass(_)) => Err(AttributeError)
    case Lit(_) => Err(AttributeError)
  }

  /** `is_abstract` of an instance of `c` with arguments `args`. */
  function IsAbstract(c: ClassId, args: seq<TypeArg>): Res<bool>
    decreases Inst(c, args), 0
  {
    match c
    case ValueTypeC => Ok(false)
    case KindC(_) => Ok(false)
    case LitC(_) => Ok(false)
    case PretrainedModelC => Ok(false)
    case CUDAVersionC => Ok(false)
    case HardwareC => Ok(false)
    case NothingC => Ok(false)
    case BLOBC => Ok(false)
    case ModelC => Ok(false)
    case ArrayC => if |args| == 0 then Err(IndexError) else ArgIsAbstract(args[0])
    case MapC => if |args| == 0 then Err(IndexError) else ArgIsAbstract(args[0])
    case PKC => if |args| == 0 then Err(IndexError) else ArgIsAbstract(args[0])
    case NameC => if |args| == 0 then Err(IndexError) else ArgIsAbstract(args[0])
    case _ => Ok(true)
  }

  /** The `value()` class method of value types: the kind, the literal, or `None` for ValueType itself. */
  datatype ValueAttr = NoValue | KindValue(kind: Kind) | LiteralValue(lit: Literal)

  function ValueOf(t: TypeArg): (r: Res<ValueAttr>)
    ensures r.Ok? <==> (t.Inst? && t.cls.LitC?) || (t.Cls? && t.obj.UfdlClass? && t.obj.c.LitC?)
                       || (t.Inst? && (t.cls.KindC? || t.cls.ValueTypeC?))
                       || (t.Cls? && t.obj.UfdlClass? && (t.obj.c.KindC? || t.obj.c.ValueTypeC?))
  {
    var c: Option<ClassId> := if t.Inst? then Some(t.cls) else if t.Cls? && t.obj.UfdlClass? then Some(t.obj.c) else None;
    match c
    case Some(ValueTypeC) => Ok(NoValue)
    case Some(KindC(k)) => Ok(KindValue(k))
    case Some(LitC(l)) => Ok(LiteralValue(l))
    case _ => Err(AttributeError)
  }
}
