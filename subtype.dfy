/**
 * `is_ufdl_type` and the general `is_subtype`, which relates instances, UFDL
 * classes, the builtin classes `str` and `int`, and raw string and int values.
 */
module Subtype {
  import opened Wrappers
  import opened Errors
  import opened Classes
  import opened Engine

  /** Classes are accepted when they are UFDL classes, `str` or `int`; values when they are instances, strings or ints. */
  predicate IsUfdlType(v: TypeArg)
  {
    match v
    case Cls(UfdlClass(_)) => true
    case Cls(BuiltinClass(k)) => k == KStr || k == KInt
    case Inst(_, _) => true
    case Lit(l) => !l.LFloat?           // bool values pass: bool is a subclass of int
  }

  /** `isinstance(value, k)` for a raw value and the builtin class of kind `k`. */
  predicate IsInstanceOfKind(l: Literal, k: Kind)
  {
    KindOf(l) == k || (l.LBool? && k == KInt)
  }

  /**
   * `is_subtype(type, of)`. `baseEquivalent` stands for the class method
   * `type_base_equivalent`, which no class in the model defines.
   */
  function IsSubtype(t: TypeArg, of: TypeArg, baseEquivalent: ClassId -> Res<TypeArg>): (r: Res<bool>)
    ensures !IsUfdlType(t) || !IsUfdlType(of) ==> r == Err(TypeError)
    ensures IsUfdlType(t) && IsUfdlType(of) && !of.Inst? ==> r.Ok?
    ensures of.Inst? && t.Inst? ==> r == IsSubtypeOf(t, of)
  {
    if !IsUfdlType(t) || !IsUfdlType(of) then Err(TypeError)
    else
      match of
      case Cls(UfdlClass(d)) =>
        Ok((t.Inst? && Descends(t.cls, d)) || (t.Cls? && t.obj.UfdlClass? && Descends(t.obj.c, d)))
      case Cls(BuiltinClass(k)) =>
        Ok((t.Lit? && IsInstanceOfKind(t.lit, k)) || t == of)
      case Inst(_, _) =>
        if t.Inst? then IsSubtypeOf(t, of)
        else if t.Cls? && t.obj.UfdlClass? then
          match baseEquivalent(t.obj.c)
          case Err(e) => Err(e)
          case Ok(b) => IsSubtypeOf(b, of)
        else Ok(false)
      case Lit(m) =>
        Ok(t.Lit? && KindOf(t.lit) == KindOf(m) && t.lit == m)
  }

  /** A UFDL class is a subtype of exactly the classes it descends from. */
  lemma ClassSubtypeIsDescent(c: ClassId, d: ClassId, be: ClassId -> Res<TypeArg>)
    ensures IsSubtype(Cls(UfdlClass(c)), Cls(UfdlClass(d)), be) == Ok(Descends(c, d))
  {
  }

  /** Subtyping against classes is transitive through the class hierarchy. */
  lemma SubtypeOfClassTransitive(t: TypeArg, c: ClassId, d: ClassId, be: ClassId -> Res<TypeArg>)
    requires IsSubtype(t, Cls(UfdlClass(c)), be) == Ok(true)
    requires Descends(c, d)
    ensures IsSubtype(t, Cls(UfdlClass(d)), be) == Ok(true)
  {
    if t.Inst? {
      DescendsTransitive(t.cls, c, d);
    } else {
      DescendsTransitive(t.obj.c, c, d);
    }
  }

  /** Every instance is a subtype of its own class and of each of its ancestors. */
  lemma InstanceSubtypeOfAncestors(t: TypeArg, d: ClassId, be: ClassId -> Res<TypeArg>)
    requires t.Inst? && Descends(t.cls, d)
    ensures IsSubtype(t, Cls(UfdlClass(d)), be) == Ok(true)
  {
  }

  /** `True` and `1` are equal in Python, yet neither is a subtype of the other: the exact Python types differ. */
  lemma TrueIsNotSubtypeOfOne(be: ClassId -> Res<TypeArg>)
    ensures IsSubtype(Lit(LBool(true)), Lit(LInt(1)), be) == Ok(false)
    ensures IsSubtype(Lit(LInt(1)), Lit(LBool(true)), be) == Ok(false)
    ensures PyEq(Lit(LBool(true)), Lit(LInt(1)))
  {
    TrueEqualsOne();
  }

  /** Against a raw value, a raw value is a subtype iff it is that same value. */
  lemma LiteralSubtypeIsIdentity(l: Literal, m: Literal, be: ClassId -> Res<TypeArg>)
    requires !l.LFloat? && !m.LFloat?
    ensures IsSubtype(Lit(l), Lit(m), be) == Ok(l == m)
  {
  }

  /** A value that is a subtype of a raw `str` or `int` value is also a subtype of that value's class. */
  lemma LiteralSubtypeOfItsClass(t: TypeArg, m: Literal, be: ClassId -> Res<TypeArg>)
    requires m.LStr? || m.LInt?
    requires IsSubtype(t, Lit(m), be) == Ok(true)
    ensures IsSubtype(t, Cls(BuiltinClass(KindOf(m))), be) == Ok(true)
  {
  }

  /** Bool values are accepted as ints, but the `bool` class is not accepted at all. */
  lemma BoolValuesAreInts(b: bool, be: ClassId -> Res<TypeArg>)
    ensures IsSubtype(Lit(LBool(b)), Cls(BuiltinClass(KInt)), be) == Ok(true)
    ensures IsSubtype(Cls(BuiltinClass(KBool)), Cls(BuiltinClass(KInt)), be) == Err(TypeError)
  {
  }

  /** Instances and raw values are never subtypes of one another. */
  lemma InstancesAndValuesUnrelated(t: TypeArg, l: Literal, be: ClassId -> Res<TypeArg>)
    requires t.Inst? && !l.LFloat?
    ensures IsSubtype(t, Lit(l), be) == Ok(false)
    ensures IsSubtype(Lit(l), t, be) == Ok(false)
  {
  }
}
