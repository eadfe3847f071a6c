/**
 * The class hierarchy of the type system and the values that stand for types.
 *
 * A Python type class becomes a `ClassId`; `Parent` is its (single) UFDL base
 * class, so `Descends` is Python's `issubclass` restricted to UFDL classes. The
 * literal classes that `ValueType.generate_subclass` creates are `KindC(kind)`
 * (one per Python kind str/int/float/bool) and `LitC(literal)` (one per literal
 * value), the latter deriving from the former.
 *
 * A `TypeArg` is anything the code passes where a type is expected: an instance
 * of a type class with its arguments, a bare class object (a UFDL class or one of
 * Python's `str`, `int`, `float`, `bool`), or a raw Python literal.
 */
module Classes {
  import opened Wrappers
  import opened Json

  datatype Kind = KStr | KInt | KFloat | KBool

  datatype Literal = LStr(s: string) | LInt(i: int) | LFloat(f: real) | LBool(b: bool)

  function KindOf(l: Literal): Kind
  {
    match l
    case LStr(_) => KStr
    case LInt(_) => KInt
    case LFloat(_) => KFloat
    case LBool(_) => KBool
  }

  /** The Python value of a literal, as a JSON element. */
  function LiteralValue(l: Literal): Value
  {
    match l
    case LStr(s) => Str(s)
    case LInt(i) => Int(i)
    case LFloat(f) => Float(f)
    case LBool(b) => Bool(b)
  }

  /**
   * The JSON values jsonschema counts as equal to a literal: a string or a
   * boolean only itself, an int also the float of its value, and an integral
   * float also the int of its value.
   */
  lemma LiteralJsonEqual(l: Literal, v: Value)
    ensures JsonEqual(v, LiteralValue(l)) <==>
      match l
      case LStr(s) => v == Str(s)
      case LBool(b) => v == Bool(b)
      case LInt(i) => v == Int(i) || v == Float(i as real)
      case LFloat(f) => v == Float(f) || (IsIntegral(f) && v == Int(f.Floor))
  {
  }

  datatype ClassId =
    | UFDLTypeC | UFDLBinaryC | UFDLJSONC | FiniteJSONC | ServerResidentC | NamedServerC
    | ValueTypeC | KindC(kind: Kind) | LitC(lit: Literal)
    | ArrayC | MapC | PKC | NameC | JobOutputC
    | DockerImageC | PretrainedModelC | FrameworkC | DomainC | CUDAVersionC | HardwareC
    | NothingC | BLOBC | ModelC
    | IntegerC | BooleanC | StringC                    // the classes of standard/simple

  /** The UFDL base class each class is declared with. */
  function Parent(c: ClassId): (p: Option<ClassId>)
    ensures p.Some? ==> Depth(p.value) + 1 == Depth(c)
    ensures p.None? <==> Depth(c) == 0
  {
    match c
    case UFDLTypeC => None
    case UFDLBinaryC => Some(UFDLTypeC)
    case UFDLJSONC => Some(UFDLBinaryC)
    case FiniteJSONC => Some(UFDLJSONC)
    case ServerResidentC => Some(UFDLJSONC)
    case NamedServerC => Some(ServerResidentC)
    case ValueTypeC => Some(UFDLJSONC)
    case KindC(_) => Some(ValueTypeC)
    case LitC(l) => Some(KindC(KindOf(l)))
    case ArrayC => Some(UFDLJSONC)
    case MapC => Some(UFDLJSONC)
    case PKC => Some(FiniteJSONC)
    case NameC => Some(FiniteJSONC)
    case JobOutputC => Some(ServerResidentC)
    case DockerImageC => Some(ServerResidentC)
    case PretrainedModelC => Some(NamedServerC)
    case FrameworkC => Some(ServerResidentC)
    case DomainC => Some(ServerResidentC)
    case CUDAVersionC => Some(NamedServerC)
    case HardwareC => Some(NamedServerC)
    case NothingC => Some(FiniteJSONC)
    case BLOBC => Some(UFDLTypeC)
    case ModelC => Some(UFDLTypeC)
    case IntegerC => Some(UFDLJSONC)
    case BooleanC => Some(UFDLJSONC)
    case StringC => Some(UFDLJSONC)
  }

  /** Distance from the root class; a parent is always one step closer. */
  function Depth(c: ClassId): nat
  {
    match c
    case UFDLTypeC => 0
    case UFDLBinaryC => 1
    case BLOBC => 1
    case ModelC => 1
    case UFDLJSONC => 2
    case FiniteJSONC => 3
    case ServerResidentC => 3
    case ValueTypeC => 3
    case ArrayC => 3
    case MapC => 3
    case IntegerC => 3
    case BooleanC => 3
    case StringC => 3
    case KindC(_) => 4
    case NamedServerC => 4
    case PKC => 4
    case NameC => 4
    case NothingC => 4
    case JobOutputC => 4
    case DockerImageC => 4
    case FrameworkC => 4
    case DomainC => 4
    case LitC(_) => 5
    case PretrainedModelC => 5
    case CUDAVersionC => 5
    case HardwareC => 5
  }

  /** Python's `issubclass(c, d)` over UFDL classes. */
  predicate Descends(c: ClassId, d: ClassId)
    decreases Depth(c)
  {
    c == d || (Parent(c).Some? && Descends(Parent(c).value, d))
  }

  lemma {:induction false} DescendsDepth(c: ClassId, d: ClassId)
    requires Descends(c, d)
    ensures Depth(d) <= Depth(c)
    ensures Depth(d) == Depth(c) ==> c == d
    decreases Depth(c)
  {
    if c != d {
      DescendsDepth(Parent(c).value, d);
    }
  }

  /** A class never descends from a class deeper in the hierarchy than itself. */
  lemma NotDescendsDeeper(c: ClassId, d: ClassId)
    requires Depth(c) < Depth(d)
    ensures !Descends(c, d)
  {
    if Descends(c, d) {
      DescendsDepth(c, d);
    }
  }

  lemma {:induction false} DescendsTransitive(a: ClassId, b: ClassId, c: ClassId)
    requires Descends(a, b) && Descends(b, c)
    ensures Descends(a, c)
    decreases Depth(a)
  {
    if a != b {
      DescendsTransitive(Parent(a).value, b, c);
    }
  }

  lemma DescendsAntisymmetric(a: ClassId, b: ClassId)
    requires Descends(a, b) && Descends(b, a)
    ensures a == b
  {
    DescendsDepth(a, b);
    DescendsDepth(b, a);
  }

  /** The classes that some class names as its base. */
  predicate IsBaseClass(c: ClassId)
  {
    c.UFDLTypeC? || c.UFDLBinaryC? || c.UFDLJSONC? || c.FiniteJSONC? || c.ServerResidentC?
    || c.NamedServerC? || c.ValueTypeC? || c.KindC?
  }

  /**
   * The classes Python refuses to instantiate: `NamedServerType` mixes in `ABC`
   * and declares `extract_name` abstract, and its three subclasses define only
   * `extract_name_from_json`, so `extract_name` stays abstract in all four.
   */
  predicate IsAbstractClass(c: ClassId)
  {
    c.NamedServerC? || c.CUDAVersionC? || c.HardwareC? || c.PretrainedModelC?
  }

  /** The abstract classes are exactly NamedServerType and its descendants. */
  lemma AbstractIsNamedServer(c: ClassId)
    ensures IsAbstractClass(c) <==> Descends(c, NamedServerC)
  {
  }

  /** Only base classes have proper descendants. */
  lemma {:induction false} ProperAncestorIsBase(c: ClassId, d: ClassId)
    requires Descends(c, d) && c != d
    ensures IsBaseClass(d)
    decreases Depth(c)
  {
    var p := Parent(c).value;
    if p != d {
      ProperAncestorIsBase(p, d);
    }
  }

  datatype TypeObj = UfdlClass(c: ClassId) | BuiltinClass(k: Kind)

  datatype TypeArg =
    | Inst(cls: ClassId, args: seq<TypeArg>)     // an instance of a type class
    | Cls(obj: TypeObj)                          // a bare class object
    | Lit(lit: Literal)                          // a raw Python str/int/float/bool

  const StrClass := Cls(BuiltinClass(KStr))
  const DomainDefault := Inst(DomainC, [StrClass])
  const FrameworkDefault := Inst(FrameworkC, [StrClass, StrClass])

  /** `type_params_expected_base_types()` of each class: the bounds of its parameters. */
  function Bounds(c: ClassId): (bs: seq<TypeArg>)
    ensures IsBaseClass(c) ==> bs == []
  {
    match c
    case ArrayC => [Inst(UFDLJSONC, []), Inst(KindC(KInt), [])]
    case MapC => [Inst(UFDLJSONC, [])]
    case PKC => [Inst(ServerResidentC, [])]
    case NameC => [Inst(NamedServerC, [])]
    case JobOutputC => [Cls(UfdlClass(UFDLBinaryC))]
    case DockerImageC => [Cls(UfdlClass(DomainC)), Cls(UfdlClass(FrameworkC))]
    case PretrainedModelC => [DomainDefault, FrameworkDefault]
    case ModelC => [DomainDefault, FrameworkDefault]
    case FrameworkC => [StrClass, StrClass]
    case DomainC => [StrClass]
    case BLOBC => [Inst(KindC(KStr), [])]
    case _ => []
  }

  /**
   * Some bound is an instance of an abstract class, so computing the bounds
   * (`type_params_expected_base_types()`) raises TypeError.
   */
  predicate HasAbstractBound(c: ClassId)
  {
    exists i :: 0 <= i < |Bounds(c)| && Bounds(c)[i].Inst? && IsAbstractClass(Bounds(c)[i].cls)
  }

  /** Name is the only such class: its bound is `NamedServerType()`. */
  lemma AbstractBoundIsName(c: ClassId)
    ensures HasAbstractBound(c) <==> c == NameC
  {
    if c == NameC {
      assert Bounds(c)[0] == Inst(NamedServerC, []);
    }
  }

  /** A class with parameters has no proper descendants. */
  lemma ParameterisedClassIsLeaf(c: ClassId, d: ClassId)
    requires |Bounds(d)| > 0 && Descends(c, d)
    ensures c == d
  {
    if c != d {
      ProperAncestorIsBase(c, d);
    }
  }

  // ---- a size measure that also counts the bounds a bare class stands for ----

  /** Formatting a bare class formats its bounds, so a class weighs as much as its bounds. */
  function Weight(t: TypeArg): (w: nat)
    ensures w >= 1
  {
    match t
    case Inst(_, args) => 1 + SumWeight(args)
    case Cls(UfdlClass(c)) => 1 + ClassWeight(c)
    case _ => 1
  }

  function SumWeight(ts: seq<TypeArg>): (w: nat)
    ensures |ts| > 0 ==> w >= Weight(ts[0])
  {
    if |ts| == 0 then 0 else Weight(ts[0]) + SumWeight(ts[1..])
  }

  /** The weight of a class's bounds, tabulated so that `Weight` is well founded. */
  function ClassWeight(c: ClassId): nat
  {
    match c
    case ArrayC => 2
    case MapC => 1
    case PKC => 1
    case NameC => 1
    case JobOutputC => 1
    case DockerImageC => 5
    case PretrainedModelC => 5
    case ModelC => 5
    case FrameworkC => 2
    case DomainC => 1
    case BLOBC => 1
    case _ => 0
  }

  /**
   * A termination helper: a bare class weighs exactly what its bounds weigh,
   * so formatting a class through its bounds decreases the measure.
   */
  lemma ClassWeightOfBounds(c: ClassId)
    ensures ClassWeight(c) == SumWeight(Bounds(c))
  {
    assert SumWeight([StrClass]) == 1 by { assert [StrClass][1..] == []; }
    assert SumWeight([StrClass, StrClass]) == 2 by { assert [StrClass, StrClass][1..] == [StrClass]; }
    assert Weight(DomainDefault) == 2;
    assert Weight(FrameworkDefault) == 3;
    var bs := Bounds(c);
    if |bs| == 1 {
      assert bs[1..] == [];
    } else if |bs| == 2 {
      assert bs[1..] == [bs[1]] && bs[1..][1..] == [];
    }
  }

  lemma {:induction false} ArgWeightBelow(t: TypeArg, i: nat)
    requires t.Inst? && i < |t.args|
    ensures Weight(t.args[i]) < Weight(t)
  {
    SumWeightElement(t.args, i);
  }

  lemma {:induction false} SumWeightElement(ts: seq<TypeArg>, i: nat)
    requires i < |ts|
    ensures Weight(ts[i]) <= SumWeight(ts)
  {
    if i > 0 {
      SumWeightElement(ts[1..], i - 1);
    }
  }

  // ---- Python's `==` on type arguments ----

  /** Python's `==` between two literal values: numbers compare by value across int, float and bool. */
  predicate LiteralEq(a: Literal, b: Literal)
  {
    if a.LStr? || b.LStr? then a == b else NumericValue(a) == NumericValue(b)
  }

  function NumericValue(l: Literal): real
    requires !l.LStr?
  {
    match l
    case LInt(i) => i as real
    case LFloat(f) => f
    case LBool(b) => if b then 1.0 else 0.0
  }

  /**
   * `==` on type arguments: `UFDLType.__eq__` for instances (same exact class,
   * equal argument tuples), value equality for raw literals, identity for classes.
   */
  predicate PyEq(a: TypeArg, b: TypeArg)
  {
    match (a, b)
    case (Inst(c, xs), Inst(d, ys)) => c == d && PyEqAll(xs, ys)
    case (Lit(x), Lit(y)) => LiteralEq(x, y)
    case (Cls(o), Cls(p)) => o == p
    case _ => false
  }

  predicate PyEqAll(xs: seq<TypeArg>, ys: seq<TypeArg>)
  {
    |xs| == |ys| && forall i :: 0 <= i < |xs| ==> PyEq(xs[i], ys[i])
  }

  /** A type argument holding no raw bool or float literal, where `==` could equate different values. */
  predicate NoNumericAliases(t: TypeArg)
  {
    match t
    case Inst(_, args) => forall i :: 0 <= i < |args| ==> NoNumericAliases(args[i])
    case Lit(l) => l.LStr? || l.LInt?
    case Cls(_) => true
  }

  lemma {:induction false} PyEqReflexive(a: TypeArg)
    ensures PyEq(a, a)
  {
    match a
    case Inst(c, xs) =>
      forall i | 0 <= i < |xs| ensures PyEq(xs[i], xs[i]) { PyEqReflexive(xs[i]); }
    case _ =>
  }

  /** Without raw bool and float literals, `==` on type arguments is structural equality. */
  lemma {:induction false} PyEqIsEquality(a: TypeArg, b: TypeArg)
    requires NoNumericAliases(a) && NoNumericAliases(b)
    ensures PyEq(a, b) <==> a == b
  {
    PyEqReflexive(a);
    if PyEq(a, b) && a.Inst? && b.Inst? {
      var xs, ys := a.args, b.args;
      assert PyEqAll(xs, ys);
      forall i | 0 <= i < |xs| ensures xs[i] == ys[i] {
        assert NoNumericAliases(xs[i]) && NoNumericAliases(ys[i]);
        PyEqIsEquality(xs[i], ys[i]);
      }
      assert xs == ys;
    }
  }

  /** `True == 1` in Python, so a raw boolean literal equals a raw integer literal. */
  lemma TrueEqualsOne()
    ensures PyEq(Lit(LBool(true)), Lit(LInt(1))) && Lit(LBool(true)) != Lit(LInt(1))
  {
  }

  /** Python's float `repr` and `float()`, which the model takes as given. */
  datatype FloatSyntax = FloatSyntax(repr: real -> string, parse: string -> Option<real>)
}
