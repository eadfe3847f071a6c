/**
 * `format_type` and friends: the text form of a type argument or parameter, as
 * used in messages and in the names type arguments are registered under.
 */
module Format {
  import opened Wrappers
  import opened Errors
  import opened Classes
  import opened Registry
  import opened Engine
  import Text

  /**
   * `format_type`: the builtin classes `str` and `int` as Python prints them, a
   * string value quoted with its quotes escaped, an int (or bool) value as
   * Python prints it, and any UFDL instance or class through
   * `format_type_or_type_class`.
   */
  function FormatType(tb: Tables, t: TypeArg): (r: Res<string>)
    decreases Weight(t), 1
    ensures t.Lit? && t.lit.LStr? ==> r.Ok? && |r.value| >= 2 && r.value[0] == '\'' && r.value[|r.value| - 1] == '\''
    ensures t.Lit? && t.lit.LFloat? ==> r == Err(TypeError)
    ensures t == Cls(BuiltinClass(KFloat)) || t == Cls(BuiltinClass(KBool)) ==> r == Err(TypeError)
  {
    match t
    case Cls(BuiltinClass(KStr)) => Ok(ClassRepr(BuiltinClass(KStr)))
    case Cls(BuiltinClass(KInt)) => Ok(ClassRepr(BuiltinClass(KInt)))
    case Lit(LStr(s)) => Ok("'" + Text.Escape(s) + "'")
    case Lit(LInt(i)) => Ok(Text.IntToString(i))
    case Lit(LBool(b)) => Ok(if b then "True" else "False")
    case _ => FormatTypeOrTypeClass(tb, t)
  }

  /**
   * `format_type_or_type_class`: the registered class name, followed by the
   * instance's arguments or, for a class, its parameters' bounds. Anything
   * that is neither raises TypeError.
   */
  function FormatTypeOrTypeClass(tb: Tables, t: TypeArg): (r: Res<string>)
    decreases Weight(t), 0
    ensures !t.Inst? && !(t.Cls? && t.obj.UfdlClass?) ==> r == Err(TypeError)
    ensures t.Inst? && TypeClassName(tb, t.cls).Err? ==> r == Err(TypeClassName(tb, t.cls).error)
    ensures t.Inst? && r.Ok? ==> exists rest :: r.value == TypeClassName(tb, t.cls).value + rest
  {
    match t
    case Inst(c, args) =>
      (match TypeClassName(tb, c)
       case Err(e) => Err(e)
       case Ok(name) =>
         match FormatArgs(tb, args)
         case Err(e) => Err(e)
         case Ok(text) => Ok(name + text))
    case Cls(UfdlClass(c)) =>
      ClassWeightOfBounds(c);
      (match TypeClassName(tb, c)
       case Err(e) => Err(e)
       case Ok(name) =>
         match FormatArgs(tb, Bounds(c))
         case Err(e) => Err(e)
         case Ok(text) => Ok(name + text))
    case _ => Err(TypeError)
  }

  /** `format_type_args_or_params`: nothing for no arguments, otherwise `<a, b, ...>`. */
  function FormatArgs(tb: Tables, args: seq<TypeArg>): (r: Res<string>)
    decreases SumWeight(args), 3
    ensures |args| == 0 ==> r == Ok("")
    ensures r.Ok? && |args| > 0 ==> |r.value| >= 2 && r.value[0] == '<' && r.value[|r.value| - 1] == '>'
  {
    if |args| == 0 then Ok("")
    else
      match FormatAll(tb, args)
      case Err(e) => Err(e)
      case Ok(parts) => Ok("<" + Text.Join(parts, ", ") + ">")
  }

  function FormatAll(tb: Tables, args: seq<TypeArg>): (r: Res<seq<string>>)
    decreases SumWeight(args), 2
    ensures r.Ok? ==> |r.value| == |args|
  {
    if |args| == 0 then Ok([])
    else
      match FormatType(tb, args[0])
      case Err(e) => Err(e)
      case Ok(s) =>
        match FormatAll(tb, args[1..])
        case Err(e) => Err(e)
        case Ok(rest) => Ok([s] + rest)
  }

  /** Each formatted argument is that argument's own `format_type`. */
  lemma {:induction false} FormatAllElements(tb: Tables, args: seq<TypeArg>)
    requires FormatAll(tb, args).Ok?
    ensures forall i :: 0 <= i < |args| ==> FormatType(tb, args[i]) == Ok(FormatAll(tb, args).value[i])
  {
    if |args| > 0 {
      FormatAllElements(tb, args[1..]);
    }
  }

  /** The argument list fails exactly when some argument fails, and with the first such argument's error. */
  lemma {:induction false} FormatAllFailure(tb: Tables, args: seq<TypeArg>)
    ensures FormatAll(tb, args).Ok? <==> forall i :: 0 <= i < |args| ==> FormatType(tb, args[i]).Ok?
    ensures FormatAll(tb, args).Err? ==>
      exists k :: 0 <= k < |args| && FormatType(tb, args[k]) == Err(FormatAll(tb, args).error) &&
        forall j :: 0 <= j < k ==> FormatType(tb, args[j]).Ok?
  {
    if |args| > 0 {
      FormatAllFailure(tb, args[1..]);
      if FormatType(tb, args[0]).Ok? && FormatAll(tb, args[1..]).Err? {
        var k :| 0 <= k < |args[1..]| && FormatType(tb, args[1..][k]) == Err(FormatAll(tb, args[1..]).error) &&
          forall j :: 0 <= j < k ==> FormatType(tb, args[1..][j]).Ok?;
        assert FormatType(tb, args[k + 1]) == Err(FormatAll(tb, args).error);
        assert forall j :: 1 <= j < k + 1 ==> args[j] == args[1..][j - 1];
      }
      if FormatAll(tb, args).Ok? {
        forall i | 0 <= i < |args| ensures FormatType(tb, args[i]).Ok? {
          if i > 0 { assert args[i] == args[1..][i - 1]; }
        }
      }
      if forall i :: 0 <= i < |args| ==> FormatType(tb, args[i]).Ok? {
        assert forall i :: 0 <= i < |args[1..]| ==> args[1..][i] == args[i + 1];
      }
    }
  }

  /** `format_type_args_or_params` brackets the ", "-join of the arguments' own `format_type`. */
  lemma FormatArgsText(tb: Tables, args: seq<TypeArg>)
    requires |args| > 0
    ensures FormatArgs(tb, args).Ok? <==> forall i :: 0 <= i < |args| ==> FormatType(tb, args[i]).Ok?
    ensures FormatArgs(tb, args).Ok? ==>
      exists parts: seq<string> :: |parts| == |args| &&
        (forall i :: 0 <= i < |args| ==> FormatType(tb, args[i]) == Ok(parts[i])) &&
        FormatArgs(tb, args).value == "<" + Text.Join(parts, ", ") + ">"
  {
    FormatAllFailure(tb, args);
    if FormatAll(tb, args).Ok? {
      FormatAllElements(tb, args);
    }
  }

  /** A UFDL class formats like its default instance: the parameters' bounds stand in for the arguments. */
  lemma ClassFormatsAsDefaultInstance(tb: Tables, c: ClassId)
    ensures FormatTypeOrTypeClass(tb, Cls(UfdlClass(c))) == FormatTypeOrTypeClass(tb, Inst(c, Bounds(c)))
  {
  }

  /** Instances built from instances, with no value types among them. */
  predicate PlainInstance(t: TypeArg)
  {
    && t.Inst? && !t.cls.KindC? && !t.cls.LitC?
    && forall i :: 0 <= i < |t.args| ==> PlainInstance(t.args[i])
  }

  /**
   * For such instances `format_type` and `str` agree; they differ only where
   * value types print their own value, and where arguments are raw values or classes.
   */
  lemma {:induction false} FormatAgreesWithStr(tb: Tables, fs: FloatSyntax, t: TypeArg)
    requires PlainInstance(t)
    ensures FormatType(tb, t) == StrOf(tb, fs, t)
    decreases Weight(t), 1
  {
    FormatAllAgreesWithStrAll(tb, fs, t.args);
  }

  lemma {:induction false} FormatAllAgreesWithStrAll(tb: Tables, fs: FloatSyntax, args: seq<TypeArg>)
    requires forall i :: 0 <= i < |args| ==> PlainInstance(args[i])
    ensures FormatAll(tb, args) == StrAll(tb, fs, args)
    ensures FormatArgs(tb, args) == StrArgs(tb, fs, args)
    decreases SumWeight(args), 2
  {
    if |args| > 0 {
      FormatAgreesWithStr(tb, fs, args[0]);
      FormatAllAgreesWithStrAll(tb, fs, args[1..]);
    }
  }

  /** A string value's text reads back, through the unescaping parse applies, as the string itself. */
  lemma QuotedStringUnescapes(tb: Tables, s: string)
    ensures var q := FormatType(tb, Lit(Literal.LStr(s))).value; Text.Unescape(q[1..|q| - 1]) == s
  {
    var q := FormatType(tb, Lit(Literal.LStr(s))).value;
    assert q[1..|q| - 1] == Text.Escape(s);
    Text.UnescapeEscape(s);
  }
}
