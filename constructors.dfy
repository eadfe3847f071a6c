/**
 * The `__init__` overrides of the standard classes, which reshape their
 * positional arguments before handing a `type_args` tuple (or not) to
 * `UFDLType.__init__`: `Array(element, size)`, `PK(t)`, `Name(t)`,
 * `PretrainedModel(domain, framework)` and `BLOB(hint)`.
 */
module Constructors {
  import opened Wrappers
  import opened Errors
  import opened Classes
  import opened Registry
  import opened Engine

  /** One positional argument: a type argument, or a tuple of them (as the parser passes). */
  datatype PyArg = Single(t: TypeArg) | Tuple(items: seq<TypeArg>)

  /** The positional arguments of a constructor call, up to the two any of the classes accepts. */
  datatype Call = NoArgs | OneArg(arg: PyArg) | TwoArgs(first: TypeArg, second: TypeArg)

  /** The `type_args` a single positional argument becomes when passed on unchanged. */
  function AsTypeArgs(a: PyArg): TypeArgsParam
  {
    match a
    case Single(t) => NotATuple(t)
    case Tuple(items) => TupleOf(items)
  }

  /** The guarantee every constructor gives: an instance of the class called, with one argument per parameter. */
  predicate Constructed(c: ClassId, call: Call, r: Res<TypeArg>)
  {
    r.Ok? ==>
      && r.value.Inst? && r.value.cls == c && |r.value.args| == |Bounds(c)|
      && (call.OneArg? && call.arg.Tuple? ==> r.value.args == call.arg.items)
  }

  /**
   * `c(*call)` for a UFDL class `c`. Python refuses to create an instance of
   * an abstract class before any `__init__` runs.
   */
  function Instantiate(tb: Tables, fs: FloatSyntax, c: ClassId, call: Call): (r: Res<TypeArg>)
    ensures Constructed(c, call, r)
    ensures IsAbstractClass(c) ==> r == Err(TypeError)
  {
    if IsAbstractClass(c) then Err(TypeError)
    else
      match c
      case ArrayC => ArrayCall(tb, fs, call)
      case PKC => WrapServerType(tb, fs, c, ServerResidentC, call)
      case NameC => WrapServerType(tb, fs, c, NamedServerC, call)
      case BLOBC => BlobCall(tb, fs, call)
      case _ => PlainCall(tb, fs, c, call)
  }

  /** `Array.__init__`: a lone argument is wrapped in a one-tuple whatever it is; two arguments form the tuple. */
  function ArrayCall(tb: Tables, fs: FloatSyntax, call: Call): (r: Res<TypeArg>)
    ensures Constructed(ArrayC, call, r)
  {
    match call
    case NoArgs => Construct(tb, fs, ArrayC, TupleOf([]))
    case OneArg(_) =>
      (match TypeClassName(tb, ArrayC)
       case Ok(name) => Err(WrongNumberOfTypeArgs(name, 1, |Bounds(ArrayC)|))
       case Err(e) => Err(e))
    case TwoArgs(a, b) => Construct(tb, fs, ArrayC, TupleOf([a, b]))
  }

  /**
   * `PretrainedModel.__init__`: two arguments are packed into one tuple.
   * PretrainedModel is abstract, so `Instantiate` never reaches it.
   */
  function PretrainedModelCall(tb: Tables, fs: FloatSyntax, call: Call): (r: Res<TypeArg>)
    ensures Constructed(PretrainedModelC, call, r)
  {
    match call
    case NoArgs => Construct(tb, fs, PretrainedModelC, Omitted)
    case OneArg(a) => Construct(tb, fs, PretrainedModelC, AsTypeArgs(a))
    case TwoArgs(d, f) => Construct(tb, fs, PretrainedModelC, TupleOf([d, f]))
  }

  /** `BLOB.__init__`: a string hint becomes the class `String.generate_subclass(hint)`, which is not a tuple. */
  function BlobCall(tb: Tables, fs: FloatSyntax, call: Call): (r: Res<TypeArg>)
    ensures Constructed(BLOBC, call, r)
  {
    match call
    case NoArgs => Construct(tb, fs, BLOBC, Omitted)
    case OneArg(Single(Lit(LStr(hint)))) => Construct(tb, fs, BLOBC, NotATuple(Cls(UfdlClass(LitC(LStr(hint))))))
    case OneArg(a) => Construct(tb, fs, BLOBC, AsTypeArgs(a))
    case TwoArgs(_, _) => Err(TypeError)
  }

  /** Classes without their own `__init__` take at most the one `type_args` argument. */
  function PlainCall(tb: Tables, fs: FloatSyntax, c: ClassId, call: Call): (r: Res<TypeArg>)
    ensures Constructed(c, call, r)
  {
    match call
    case NoArgs => Construct(tb, fs, c, Omitted)
    case OneArg(a) => Construct(tb, fs, c, AsTypeArgs(a))
    case TwoArgs(_, _) => Err(TypeError)
  }

  /** `PK.__init__` and `Name.__init__`: a bare instance of the bound's family is wrapped into a one-tuple. */
  function WrapServerType(tb: Tables, fs: FloatSyntax, c: ClassId, family: ClassId, call: Call): (r: Res<TypeArg>)
    ensures Constructed(c, call, r)
  {
    match call
    case NoArgs => Construct(tb, fs, c, Omitted)
    case OneArg(Single(t)) =>
      if t.Inst? && Descends(t.cls, family) then Construct(tb, fs, c, TupleOf([t]))
      else Construct(tb, fs, c, NotATuple(t))
    case OneArg(Tuple(items)) => Construct(tb, fs, c, TupleOf(items))
    case TwoArgs(_, _) => Err(TypeError)
  }

  /**
   * Called with no arguments, every class takes its bounds as its arguments,
   * except Array, the abstract classes, and Name, whose bound is abstract.
   */
  lemma DefaultsAreBounds(tb: Tables, fs: FloatSyntax, c: ClassId)
    requires c != ArrayC && !IsAbstractClass(c) && c != NameC
    ensures Instantiate(tb, fs, c, NoArgs) == Ok(Inst(c, Bounds(c)))
  {
    AbstractBoundIsName(c);
  }

  /**
   * No call builds a NamedServerType, CUDAVersion, Hardware, PretrainedModel
   * or Name: the first four are abstract, and Name's bound `NamedServerType()`
   * raises inside `__init__` whatever arguments are passed.
   */
  lemma AbstractClassesCannotBeBuilt(tb: Tables, fs: FloatSyntax, c: ClassId, call: Call)
    requires IsAbstractClass(c) || c == NameC
    ensures Instantiate(tb, fs, c, call) == Err(TypeError)
  {
    AbstractBoundIsName(c);
  }

  /** `Array()` passes an empty tuple rather than none, so it never defaults. */
  lemma ArrayHasNoDefault(tb: Tables, fs: FloatSyntax)
    ensures Instantiate(tb, fs, ArrayC, NoArgs).Err?
  {
  }

  /**
   * Array cannot be built from one positional argument, so in particular not
   * from the tuple the parser passes: it is wrapped a second time.
   */
  lemma ArrayRejectsOneArgument(tb: Tables, fs: FloatSyntax, a: PyArg)
    requires tb.typeToName.Some? && UfdlClass(ArrayC) in tb.typeToName.value
    ensures Instantiate(tb, fs, ArrayC, OneArg(a)) == Err(WrongNumberOfTypeArgs(tb.typeToName.value[UfdlClass(ArrayC)], 1, 2))
  {
  }

  /** `Array(e, s)` is the engine's two-argument check. */
  lemma ArrayTwoArguments(tb: Tables, fs: FloatSyntax, e: TypeArg, s: TypeArg)
    ensures Instantiate(tb, fs, ArrayC, TwoArgs(e, s)).Ok? <==>
      e.Inst? && IsSubtypeOf(e, Inst(UFDLJSONC, [])) == Ok(true) && s.Inst? && IsSubtypeOf(s, Inst(KindC(KInt), [])) == Ok(true)
  {
    var args, bounds := [e, s], Bounds(ArrayC);
    assert bounds == [Inst(UFDLJSONC, []), Inst(KindC(KInt), [])];
    if e.Inst? && IsSubtypeOf(e, bounds[0]) == Ok(true) && s.Inst? && IsSubtypeOf(s, bounds[1]) == Ok(true) {
      assert forall i :: 0 <= i < 2 ==> args[i].Inst? && IsSubtypeOf(args[i], bounds[i]) == Ok(true);
    } else {
      assert !(args[0].Inst? && IsSubtypeOf(args[0], bounds[0]) == Ok(true))
          || !(args[1].Inst? && IsSubtypeOf(args[1], bounds[1]) == Ok(true));
    }
  }

  /** `PK(t)` and `PK((t,))` agree for a server-resident `t`, as do `Name(t)` and `Name((t,))` for a named one. */
  lemma BareServerTypeIsWrapped(tb: Tables, fs: FloatSyntax, c: ClassId, t: TypeArg)
    requires (c == PKC && t.Inst? && Descends(t.cls, ServerResidentC)) || (c == NameC && t.Inst? && Descends(t.cls, NamedServerC))
    ensures Instantiate(tb, fs, c, OneArg(Single(t))) == Instantiate(tb, fs, c, OneArg(Tuple([t])))
  {
  }

  /** `PretrainedModel.__init__(d, f)` is `PretrainedModel.__init__((d, f))`. */
  lemma PretrainedModelPacksArguments(tb: Tables, fs: FloatSyntax, d: TypeArg, f: TypeArg)
    ensures PretrainedModelCall(tb, fs, TwoArgs(d, f)) == PretrainedModelCall(tb, fs, OneArg(Tuple([d, f])))
  {
  }

  /** `BLOB(hint)` always raises: the hint is turned into a class, which is not a tuple of arguments. */
  lemma BlobHintAlwaysFails(tb: Tables, fs: FloatSyntax, hint: string)
    ensures Instantiate(tb, fs, BLOBC, OneArg(Single(Lit(LStr(hint))))) == Err(TypeError)
  {
  }
}
