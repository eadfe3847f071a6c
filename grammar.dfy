/**
 * `parse_type`, `parse_args` and `split_args`: reading a type expression such as
 * `Array<Integer, 3>` or `'it\'s'` back into a type argument.
 */
module Grammar {
  import opened Wrappers
  import opened Errors
  import opened Classes
  import opened Registry
  import opened Engine
  import opened Format
  import opened Constructors
  import Text

  // ---- split_args ----

  /** The scanner's variables: bracket depth, inside-quotes flag, start of the current piece, pieces so far. */
  datatype Scan = Scan(depth: int, quoted: bool, start: nat, pieces: seq<string>)

  const InitialScan := Scan(0, false, 1, [])

  /** Python's `s[a:b]` for `0 <= a` and `b <= |s|`: empty when the bounds cross. */
  function Slice(s: string, a: nat, b: nat): (r: string)
    requires b <= |s|
    ensures |r| <= b
  {
    if a <= b then s[a..b] else ""
  }

  /** The character before position `i`; at position 0 Python's index -1 reads the last one. */
  function Prev(s: string, i: nat): char
    requires i < |s|
  {
    if i == 0 then s[|s| - 1] else s[i - 1]
  }

  predicate Bracketed(s: string)
  {
    |s| > 0 && s[0] == '<' && s[|s| - 1] == '>'
  }

  /** One turn of the scanning loop, at position `i`. */
  function Step(s: string, i: nat, st: Scan): Res<Scan>
    requires i < |s|
  {
    var ch := s[i];
    if st.quoted then
      Ok(if ch == '\'' && Prev(s, i) != '\\' then st.(quoted := false) else st)
    else if ch == '\'' then Ok(st.(quoted := true))
    else if ch == '<' then Ok(st.(depth := st.depth + 1))
    else if ch == '>' then
      if st.depth - 1 < 0 then Err(ValueError) else Ok(st.(depth := st.depth - 1))
    else if ch == ',' && st.depth == 1 then
      Ok(st.(pieces := st.pieces + [Text.Strip(Slice(s, st.start, i))], start := i + 1))
    else Ok(st)
  }

  /** The number of commas in `s`. */
  function Commas(s: string): nat
  {
    if |s| == 0 then 0 else (if s[0] == ',' then 1 else 0) + Commas(s[1..])
  }

  /** The loop from position `i` to the end. */
  function ScanFrom(s: string, i: nat, st: Scan): (r: Res<Scan>)
    requires i <= |s|
    decreases |s| - i
    ensures r.Ok? ==> |r.value.pieces| <= |st.pieces| + Commas(s[i..])
    ensures r.Ok? && (forall j :: 0 <= j < |st.pieces| ==> |st.pieces[j]| < |s|) ==>
      forall j :: 0 <= j < |r.value.pieces| ==> |r.value.pieces[j]| < |s|
    ensures r.Ok? ==> |st.pieces| <= |r.value.pieces| && r.value.pieces[..|st.pieces|] == st.pieces
    ensures r.Err? ==> r == Err(ValueError)
  {
    if i == |s| then Ok(st)
    else
      assert s[i..][1..] == s[i + 1..];
      match Step(s, i, st)
      case Err(e) => Err(e)
      case Ok(next) =>
        var r := ScanFrom(s, i + 1, next);
        assert next.pieces[..|st.pieces|] == st.pieces;
        assert r.Ok? ==> r.value.pieces[..|st.pieces|] == r.value.pieces[..|next.pieces|][..|st.pieces|];
        r
  }

  /**
   * `split_args`: the pieces between top-level commas, stripped. Text not
   * bracketed by `<...>`, a `>` with no matching `<`, or an unclosed `<` raise
   * ValueError. A piece is produced only at a top-level comma, so the piece
   * after the last comma is never produced.
   */
  function SplitArgs(s: string): (r: Res<seq<string>>)
    ensures !Bracketed(s) ==> r == Err(ValueError)
    ensures r.Err? ==> r == Err(ValueError)
    ensures r.Ok? ==> |r.value| <= Commas(s)
    ensures r.Ok? ==> forall j :: 0 <= j < |r.value| ==> |r.value[j]| < |s|
  {
    if !Bracketed(s) then Err(ValueError)
    else
      assert s[0..] == s;
      match ScanFrom(s, 0, InitialScan)
      case Err(e) => Err(e)
      case Ok(st) => if st.depth != 0 then Err(ValueError) else Ok(st.pieces)
  }

  /** `split_args` as the source runs it: one pass updating depth, quoting, piece start and the result list. */
  method SplitArgsLoop(s: string) returns (r: Res<seq<string>>)
    ensures r == SplitArgs(s)
  {
    if !(|s| > 0 && s[0] == '<' && s[|s| - 1] == '>') {
      return Err(ValueError);
    }
    assert s[0..] == s;
    var depth, quoted, start, result := 0, false, 1, [];
    var index := 0;
    while index < |s|
      invariant 0 <= index <= |s|
      invariant ScanFrom(s, index, Scan(depth, quoted, start, result)) == ScanFrom(s, 0, InitialScan)
    {
      var ch := s[index];
      if quoted {
        if ch == '\'' && Prev(s, index) != '\\' {
          quoted := false;
        }
      } else if ch == '\'' {
        quoted := true;
      } else if ch == '<' {
        depth := depth + 1;
      } else if ch == '>' {
        depth := depth - 1;
        if depth < 0 {
          return Err(ValueError);
        }
      } else if ch == ',' && depth == 1 {
        result := result + [Text.Strip(Slice(s, start, index))];
        start := index + 1;
      }
      index := index + 1;
    }
    if depth != 0 {
      return Err(ValueError);
    }
    return Ok(result);
  }

  // ---- parse_type and parse_args ----

  /** The position of the first `c` in `s`, as `str.find`. */
  function FindFirst(s: string, c: char): (r: Option<nat>)
    ensures r.Some? ==> r.value < |s| && s[r.value] == c && forall j :: 0 <= j < r.value ==> s[j] != c
    ensures r.None? ==> forall j :: 0 <= j < |s| ==> s[j] != c
  {
    if |s| == 0 then None
    else if s[0] == c then Some(0)
    else match FindFirst(s[1..], c)
      case None => None
      case Some(k) => Some(k + 1)
  }

  /** `s[1:-1]`. */
  function Interior(s: string): string
  {
    if |s| >= 2 then s[1..|s| - 1] else ""
  }

  /** Text starting and ending with `'`, a string value. */
  predicate IsQuoted(s: string)
  {
    |s| > 0 && s[0] == '\'' && s[|s| - 1] == '\''
  }

  /** The raw values `parse_type` tries in turn: an int, then a float, then `@true` and `@false`. */
  function ParseValue(fs: FloatSyntax, s: string): (r: Option<Literal>)
    ensures r.Some? ==> !r.value.LStr?
  {
    if Text.ParseInt(s).Some? then Some(LInt(Text.ParseInt(s).value))
    else if fs.parse(s).Some? then Some(LFloat(fs.parse(s).value))
    else if s == TrueSymbol then Some(LBool(true))
    else if s == FalseSymbol then Some(LBool(false))
    else None
  }

  /**
   * `parse_type`: whitespace is stripped first; then a quoted string, a raw
   * value, or a registered name with optional arguments.
   */
  function ParseType(tb: Tables, fs: FloatSyntax, text: string): (r: Res<TypeArg>)
    decreases |text|, 5, 0
  {
    ParseStripped(tb, fs, Text.Strip(text))
  }

  function ParseStripped(tb: Tables, fs: FloatSyntax, s: string): (r: Res<TypeArg>)
    decreases |s|, 4, 0
  {
    if IsQuoted(s) then Ok(Lit(LStr(Text.Unescape(Interior(s)))))
    else
      match ParseValue(fs, s)
      case Some(l) => Ok(Lit(l))
      case None => ParseNamed(tb, fs, s)
  }

  /**
   * The name is the text before the first `<`, the arguments the rest, both
   * stripped. `str`-like builtin classes take no arguments; a UFDL class
   * without arguments is returned as the class itself; otherwise the class is
   * called with the tuple of parsed arguments, and any failure inside the
   * arguments becomes TypeParsing of the whole text.
   */
  function ParseNamed(tb: Tables, fs: FloatSyntax, s: string): (r: Res<TypeArg>)
    decreases |s|, 3, 0
    ensures r.Ok? ==> r.value.Cls? || r.value.Inst?
  {
    var k := FindFirst(s, '<');
    var name := if k.None? then Text.Strip(s) else Text.Strip(s[..k.value]);
    var args := if k.None? then "" else Text.Strip(s[k.value..]);
    Resolve(tb, fs, s, name, args)
  }

  /** The lookup of `name` and the construction from `args`, for the text `s` they came from. */
  function Resolve(tb: Tables, fs: FloatSyntax, s: string, name: string, args: string): (r: Res<TypeArg>)
    decreases |args|, 2, 0
    ensures r.Ok? ==> r.value.Cls? || r.value.Inst?
  {
    match TranslateName(tb, name)
    case Err(e) => Err(e)
    case Ok(None) => Err(UnknownTypeName(name))
    case Ok(Some(BuiltinClass(kind))) =>
      if args != "" then Err(TypeParsing(s)) else Ok(Cls(BuiltinClass(kind)))
    case Ok(Some(UfdlClass(c))) =>
      if args == "" then Ok(Cls(UfdlClass(c)))
      else
        match ParseArgs(tb, fs, args)
        case Err(_) => Err(TypeParsing(s))
        case Ok(parsed) => Instantiate(tb, fs, c, OneArg(Tuple(parsed)))
  }

  /** `parse_args`: the pieces `split_args` finds, each parsed. */
  function ParseArgs(tb: Tables, fs: FloatSyntax, args: string): (r: Res<seq<TypeArg>>)
    decreases |args|, 1, 0
    ensures r.Ok? && args != "" ==> SplitArgs(args).Ok? && |r.value| == |SplitArgs(args).value|
  {
    if args == "" then Ok([])
    else
      match SplitArgs(args)
      case Err(e) => Err(e)
      case Ok(pieces) => ParseAll(tb, fs, pieces, |args|)
  }

  function ParseAll(tb: Tables, fs: FloatSyntax, pieces: seq<string>, bound: nat): (r: Res<seq<TypeArg>>)
    requires forall j :: 0 <= j < |pieces| ==> |pieces[j]| < bound
    decreases bound, 0, |pieces|
    ensures r.Ok? ==> |r.value| == |pieces|
  {
    if |pieces| == 0 then Ok([])
    else
      match ParseType(tb, fs, pieces[0])
      case Err(e) => Err(e)
      case Ok(t) =>
        match ParseAll(tb, fs, pieces[1..], bound)
        case Err(e) => Err(e)
        case Ok(rest) => Ok([t] + rest)
  }

  /** Each parsed piece is that piece's own `parse_type`, and the first failing piece's error is the list's. */
  lemma {:induction false} ParseAllPieces(tb: Tables, fs: FloatSyntax, pieces: seq<string>, bound: nat)
    requires forall j :: 0 <= j < |pieces| ==> |pieces[j]| < bound
    ensures ParseAll(tb, fs, pieces, bound).Ok? <==> forall i :: 0 <= i < |pieces| ==> ParseType(tb, fs, pieces[i]).Ok?
    ensures ParseAll(tb, fs, pieces, bound).Ok? ==>
      forall i :: 0 <= i < |pieces| ==> ParseType(tb, fs, pieces[i]) == Ok(ParseAll(tb, fs, pieces, bound).value[i])
    ensures ParseAll(tb, fs, pieces, bound).Err? ==>
      exists k :: 0 <= k < |pieces| && ParseType(tb, fs, pieces[k]) == Err(ParseAll(tb, fs, pieces, bound).error) &&
        forall j :: 0 <= j < k ==> ParseType(tb, fs, pieces[j]).Ok?
    decreases |pieces|
  {
    if |pieces| > 0 {
      var tail := pieces[1..];
      ParseAllPieces(tb, fs, tail, bound);
      assert forall i :: 0 <= i < |tail| ==> tail[i] == pieces[i + 1];
      if ParseType(tb, fs, pieces[0]).Ok? && ParseAll(tb, fs, tail, bound).Err? {
        var k :| 0 <= k < |tail| && ParseType(tb, fs, tail[k]) == Err(ParseAll(tb, fs, tail, bound).error) &&
          forall j :: 0 <= j < k ==> ParseType(tb, fs, tail[j]).Ok?;
        assert ParseType(tb, fs, pieces[k + 1]) == Err(ParseAll(tb, fs, pieces, bound).error);
      }
      if ParseAll(tb, fs, pieces, bound).Ok? {
        forall i | 0 <= i < |pieces|
          ensures ParseType(tb, fs, pieces[i]) == Ok(ParseAll(tb, fs, pieces, bound).value[i])
        {
          if i > 0 { assert pieces[i] == tail[i - 1]; }
        }
      }
    }
  }

  /**
   * `parse_args` of bracketed text: `split_args`' ValueError, otherwise the
   * pieces parsed one by one, failing with the first piece that fails.
   */
  lemma ParseArgsPieces(tb: Tables, fs: FloatSyntax, args: string)
    requires args != ""
    ensures SplitArgs(args).Err? ==> ParseArgs(tb, fs, args) == Err(ValueError)
    ensures SplitArgs(args).Ok? ==>
      (ParseArgs(tb, fs, args).Ok? <==> forall i :: 0 <= i < |SplitArgs(args).value| ==> ParseType(tb, fs, SplitArgs(args).value[i]).Ok?)
    ensures ParseArgs(tb, fs, args).Ok? ==>
      SplitArgs(args).Ok? && |ParseArgs(tb, fs, args).value| == |SplitArgs(args).value| &&
      forall i :: 0 <= i < |SplitArgs(args).value| ==> ParseType(tb, fs, SplitArgs(args).value[i]) == Ok(ParseArgs(tb, fs, args).value[i])
    ensures SplitArgs(args).Ok? && ParseArgs(tb, fs, args).Err? ==>
      exists k :: 0 <= k < |SplitArgs(args).value| && ParseType(tb, fs, SplitArgs(args).value[k]) == Err(ParseArgs(tb, fs, args).error)
  {
    if SplitArgs(args).Ok? {
      ParseAllPieces(tb, fs, SplitArgs(args).value, |args|);
    }
  }

  /**
   * A UFDL class named with arguments: if any argument fails to parse the
   * whole text raises TypeParsing; otherwise the class is called with the
   * tuple of the parsed pieces.
   */
  lemma ResolveClassWithArguments(tb: Tables, fs: FloatSyntax, s: string, name: string, args: string, c: ClassId)
    requires TranslateName(tb, name) == Ok(Some(UfdlClass(c))) && args != ""
    ensures ParseArgs(tb, fs, args).Err? ==> Resolve(tb, fs, s, name, args) == Err(TypeParsing(s))
    ensures ParseArgs(tb, fs, args).Ok? ==>
      SplitArgs(args).Ok? &&
      (forall i :: 0 <= i < |SplitArgs(args).value| ==> ParseType(tb, fs, SplitArgs(args).value[i]) == Ok(ParseArgs(tb, fs, args).value[i])) &&
      Resolve(tb, fs, s, name, args) == Instantiate(tb, fs, c, OneArg(Tuple(ParseArgs(tb, fs, args).value)))
  {
    ParseArgsPieces(tb, fs, args);
  }

  // ---- properties ----

  /** The three ways `parse_type` can read stripped text. */
  lemma ParsesQuoted(tb: Tables, fs: FloatSyntax, text: string)
    requires IsQuoted(Text.Strip(text))
    ensures ParseType(tb, fs, text) == Ok(Lit(LStr(Text.Unescape(Interior(Text.Strip(text))))))
  {
  }

  lemma ParsesValue(tb: Tables, fs: FloatSyntax, text: string)
    requires !IsQuoted(Text.Strip(text)) && ParseValue(fs, Text.Strip(text)).Some?
    ensures ParseType(tb, fs, text) == Ok(Lit(ParseValue(fs, Text.Strip(text)).value))
  {
  }

  lemma ParsesNamed(tb: Tables, fs: FloatSyntax, text: string)
    requires !IsQuoted(Text.Strip(text)) && ParseValue(fs, Text.Strip(text)).None?
    ensures ParseType(tb, fs, text) == ParseNamed(tb, fs, Text.Strip(text))
  {
  }

  /** Surrounding whitespace never matters. */
  lemma WhitespaceIgnored(tb: Tables, fs: FloatSyntax, text: string)
    ensures ParseType(tb, fs, text) == ParseType(tb, fs, Text.Strip(text))
  {
    Text.StripIdempotent(text);
  }

  /** `parse_type(format_type(s)) == s` for every string `s`. */
  lemma StringRoundTrip(tb: Tables, fs: FloatSyntax, s: string)
    ensures FormatType(tb, Lit(LStr(s))).Ok?
    ensures ParseType(tb, fs, FormatType(tb, Lit(LStr(s))).value) == Ok(Lit(LStr(s)))
  {
    var q := FormatType(tb, Lit(LStr(s))).value;
    Text.StripFixesNonSpaceEnds(q);
    QuotedStringUnescapes(tb, s);
  }

  /** A string literal type prints as text that parses to the raw string, not back to the literal type. */
  lemma StringLiteralTypeParsesToValue(tb: Tables, fs: FloatSyntax, s: string)
    ensures ParseType(tb, fs, StrOf(tb, fs, Inst(LitC(LStr(s)), [])).value) == Ok(Lit(LStr(s)))
  {
    StringRoundTrip(tb, fs, s);
  }

  lemma IntTextIsStripped(i: int)
    ensures Text.Strip(Text.IntToString(i)) == Text.IntToString(i)
    ensures Text.IntToString(i)[0] != '\''
  {
    var n: nat := if i < 0 then -i else i;
    var d := Text.NatToString(n);
    assert Text.IsDigit(d[|d| - 1]) && Text.IsDigit(d[0]);
    var t := Text.IntToString(i);
    assert t[|t| - 1] == d[|d| - 1];
    Text.StripFixesNonSpaceEnds(t);
  }

  /** The decimal text of an int parses to that int, ahead of any float reading. */
  lemma IntTextParses(tb: Tables, fs: FloatSyntax, i: int)
    ensures ParseType(tb, fs, Text.IntToString(i)) == Ok(Lit(LInt(i)))
  {
    var t := Text.IntToString(i);
    IntTextIsStripped(i);
    Text.IntTextRoundTrip(i);
    assert !IsQuoted(t) && ParseValue(fs, t) == Some(LInt(i));
    ParsesValue(tb, fs, t);
  }

  /** `parse_type(format_type(n)) == n` for every int `n`. */
  lemma IntRoundTrip(tb: Tables, fs: FloatSyntax, i: int)
    ensures ParseType(tb, fs, FormatType(tb, Lit(LInt(i))).value) == Ok(Lit(LInt(i)))
  {
    IntTextParses(tb, fs, i);
  }

  /** An int literal type prints as text that parses to the raw int, not back to the literal type. */
  lemma IntLiteralTypeParsesToValue(tb: Tables, fs: FloatSyntax, i: int)
    ensures ParseType(tb, fs, StrOf(tb, fs, Inst(LitC(LInt(i)), [])).value) == Ok(Lit(LInt(i)))
  {
    IntTextParses(tb, fs, i);
  }

  /** Text starting with a letter or one of the symbols `'@_<` is never read as an int. */
  lemma NotIntText(s: string)
    requires |s| > 0 && !Text.IsDigit(s[0]) && s[0] != '-' && s[0] != '+'
    ensures Text.ParseInt(s).None?
  {
  }

  lemma SymbolIsStripped(sym: string)
    requires sym == TrueSymbol || sym == FalseSymbol
    ensures Text.Strip(sym) == sym && !IsQuoted(sym) && sym[0] == '@'
  {
    assert sym[0] == '@' && sym[|sym| - 1] == 'e';
    Text.StripFixesNonSpaceEnds(sym);
  }

  /** `@true` and `@false` parse to the booleans (when the float reader rejects them, as Python's does). */
  lemma BoolSymbolsParse(tb: Tables, fs: FloatSyntax, b: bool)
    requires fs.parse(if b then TrueSymbol else FalseSymbol).None?
    ensures ParseType(tb, fs, if b then TrueSymbol else FalseSymbol) == Ok(Lit(LBool(b)))
  {
    var sym := if b then TrueSymbol else FalseSymbol;
    SymbolIsStripped(sym);
    NotIntText(sym);
    assert ParseValue(fs, sym) == Some(LBool(b));
    ParsesValue(tb, fs, sym);
  }

  /** A boolean literal type prints as its symbol, which parses to the raw bool. */
  lemma BoolLiteralTypeParsesToValue(tb: Tables, fs: FloatSyntax, b: bool)
    requires fs.parse(if b then TrueSymbol else FalseSymbol).None?
    ensures ParseType(tb, fs, StrOf(tb, fs, Inst(LitC(LBool(b)), [])).value) == Ok(Lit(LBool(b)))
  {
    BoolLiteralText(tb, fs, b);
    BoolSymbolsParse(tb, fs, b);
  }

  /** `format_type` prints a bool as `True`/`False`, which does not parse back to the bool. */
  lemma BoolFormatDoesNotRoundTrip(tb: Tables, fs: FloatSyntax, b: bool)
    requires fs.parse(if b then "True" else "False").None?
    ensures ParseType(tb, fs, FormatType(tb, Lit(LBool(b))).value) != Ok(Lit(LBool(b)))
  {
    var t := if b then "True" else "False";
    assert FormatType(tb, Lit(LBool(b))).value == t;
    Text.StripFixesNonSpaceEnds(t);
    assert Text.Strip(t) == t && !IsQuoted(t);
    NotIntText(t);
    assert t != TrueSymbol && t != FalseSymbol;
    assert ParseValue(fs, t).None?;
    ParsesNamed(tb, fs, t);
  }

  predicate NoAngle(s: string) { forall j :: 0 <= j < |s| ==> s[j] != '<' }

  /** Stripped text without `<` is all name: it is looked up whole, with no arguments. */
  lemma NamedWithoutArguments(tb: Tables, fs: FloatSyntax, s: string)
    requires NoAngle(s) && Text.Strip(s) == s
    ensures ParseNamed(tb, fs, s) == Resolve(tb, fs, s, s, "")
  {
    assert FindFirst(s, '<').None?;
  }

  /** A name with no arguments resolves to the class object it names. */
  lemma ResolveBare(tb: Tables, fs: FloatSyntax, s: string, n: string)
    ensures Resolve(tb, fs, s, n, "") ==
      match TranslateName(tb, n)
      case Err(e) => Err(e)
      case Ok(None) => Err(UnknownTypeName(n))
      case Ok(Some(o)) => Ok(Cls(o))
  {
  }

  /** A builtin class name with arguments is refused. */
  lemma ResolveBuiltinWithArguments(tb: Tables, fs: FloatSyntax, s: string, n: string, args: string, k: Kind)
    requires TranslateName(tb, n) == Ok(Some(BuiltinClass(k))) && args != ""
    ensures Resolve(tb, fs, s, n, args) == Err(TypeParsing(s))
  {
  }

  /**
   * A bare identifier names a class: an unknown name raises UnknownTypeName,
   * a known one gives the class object itself, never an instance.
   */
  lemma NameParsesToClass(tb: Tables, fs: FloatSyntax, n: string)
    requires Text.IsIdentifier(n) && fs.parse(n).None?
    ensures ParseType(tb, fs, n) ==
      match TranslateName(tb, n)
      case Err(e) => Err(e)
      case Ok(None) => Err(UnknownTypeName(n))
      case Ok(Some(o)) => Ok(Cls(o))
  {
    assert !Text.IsSpace(n[|n| - 1]);
    IdentifierTextIsNamed(tb, fs, n);
    Text.StripFixesNonSpaceEnds(n);
    NamedWithoutArguments(tb, fs, n);
    ResolveBare(tb, fs, n, n);
  }

  /** The position of the first `<` in `n + rest`, when `n` has none and `rest` starts with one. */
  lemma FirstAngle(n: string, rest: string)
    requires NoAngle(n) && |rest| > 0 && rest[0] == '<'
    ensures FindFirst(n + rest, '<') == Some(|n|)
  {
    var s := n + rest;
    assert s[|n|] == '<';
    match FindFirst(s, '<')
    case None =>
    case Some(k) =>
      if k < |n| {
        assert s[k] == n[k];
      }
  }

  /** Text that starts like an identifier is read as a name, when the float reader rejects it too. */
  lemma IdentifierTextIsNamed(tb: Tables, fs: FloatSyntax, s: string)
    requires |s| > 0 && (Text.IsLetter(s[0]) || s[0] == '_') && !Text.IsSpace(s[|s| - 1]) && fs.parse(s).None?
    ensures ParseType(tb, fs, s) == ParseNamed(tb, fs, s)
  {
    Text.StripFixesNonSpaceEnds(s);
    assert Text.Strip(s) == s && !IsQuoted(s);
    NotIntText(s);
    assert s[0] != '@';
    assert ParseValue(fs, s).None?;
    ParsesNamed(tb, fs, s);
  }

  /** `name<...>`: the name is looked up, then the bracketed rest is parsed as the arguments. */
  lemma NamedWithArguments(tb: Tables, fs: FloatSyntax, n: string, rest: string)
    requires Text.IsIdentifier(n)
    requires |rest| >= 2 && rest[0] == '<' && rest[|rest| - 1] == '>'
    ensures ParseNamed(tb, fs, n + rest) == Resolve(tb, fs, n + rest, n, rest)
  {
    var s := n + rest;
    FirstAngle(n, rest);
    assert s[..|n|] == n;
    assert s[|n|..] == rest;
    Text.StripFixesNonSpaceEnds(n);
    Text.StripFixesNonSpaceEnds(rest);
  }

  /**
   * `name<...>` for a UFDL class: TypeParsing of the whole text when an
   * argument does not parse, otherwise the class called with the parsed tuple.
   */
  lemma NamedClassWithArguments(tb: Tables, fs: FloatSyntax, n: string, rest: string, c: ClassId)
    requires Text.IsIdentifier(n) && TranslateName(tb, n) == Ok(Some(UfdlClass(c)))
    requires |rest| >= 2 && rest[0] == '<' && rest[|rest| - 1] == '>'
    ensures ParseArgs(tb, fs, rest).Err? ==> ParseNamed(tb, fs, n + rest) == Err(TypeParsing(n + rest))
    ensures ParseArgs(tb, fs, rest).Ok? ==>
      ParseNamed(tb, fs, n + rest) == Instantiate(tb, fs, c, OneArg(Tuple(ParseArgs(tb, fs, rest).value)))
  {
    NamedWithArguments(tb, fs, n, rest);
    ResolveClassWithArguments(tb, fs, n + rest, n, rest, c);
  }

  /** A builtin simple class followed by arguments raises TypeParsing. */
  lemma SimpleTypeTakesNoArguments(tb: Tables, fs: FloatSyntax, n: string, a: string, k: Kind)
    requires Text.IsIdentifier(n) && TranslateName(tb, n) == Ok(Some(BuiltinClass(k)))
    requires fs.parse(n + "<" + a + ">").None?
    ensures ParseType(tb, fs, n + "<" + a + ">") == Err(TypeParsing(n + "<" + a + ">"))
  {
    var rest := "<" + a + ">";
    assert n + "<" + a + ">" == n + rest;
    IdentifierTextIsNamed(tb, fs, n + rest);
    NamedWithArguments(tb, fs, n, rest);
    ResolveBuiltinWithArguments(tb, fs, n + rest, n, rest, k);
  }

  lemma {:induction false} CommasConcat(a: string, b: string)
    ensures Commas(a + b) == Commas(a) + Commas(b)
  {
    if |a| == 0 {
      assert a + b == b;
    } else {
      var ab := a + b;
      assert ab[0] == a[0];
      assert ab[1..] == a[1..] + b;
      CommasConcat(a[1..], b);
      assert Commas(ab) == (if a[0] == ',' then 1 else 0) + Commas(a[1..] + b);
    }
  }

  /** Joining comma-free parts with `, ` leaves one comma fewer than there are parts. */
  lemma {:induction false} CommasOfJoin(parts: seq<string>)
    requires |parts| > 0 && forall i :: 0 <= i < |parts| ==> Commas(parts[i]) == 0
    ensures Commas(Text.Join(parts, ", ")) == |parts| - 1
  {
    if |parts| > 1 {
      CommasOfJoin(parts[1..]);
      CommasConcat(parts[0], ", ");
      CommasConcat(parts[0] + ", ", Text.Join(parts[1..], ", "));
      assert Commas(", ") == 1;
    }
  }

  /** `split_args` of `<a>` gives no pieces at all, and of `<a, b>` at most one: the last argument is lost. */
  lemma SplitDropsLastArgument(parts: seq<string>)
    requires |parts| > 0 && forall i :: 0 <= i < |parts| ==> Commas(parts[i]) == 0
    ensures SplitArgs("<" + Text.Join(parts, ", ") + ">").Ok? ==>
      |SplitArgs("<" + Text.Join(parts, ", ") + ">").value| < |parts|
  {
    var j := Text.Join(parts, ", ");
    CommasOfJoin(parts);
    CommasConcat("<", j);
    CommasConcat("<" + j, ">");
  }

  /**
   * Consequently the printed form of an instance with arguments does not
   * parse back, however the registry is set up: whenever no argument's own
   * text contains a comma, the parser passes too few arguments and
   * construction fails.
   */
  lemma FormattedInstanceDoesNotParse(tb: Tables, fs: FloatSyntax, t: TypeArg)
    requires t.Inst? && |t.args| > 0 && |t.args| == |Bounds(t.cls)|
    requires FormatType(tb, t).Ok? && fs.parse(FormatType(tb, t).value).None?
    requires forall i :: 0 <= i < |t.args| ==> FormatType(tb, t.args[i]).Ok? && Commas(FormatType(tb, t.args[i]).value) == 0
    requires Text.IsIdentifier(TypeClassName(tb, t.cls).value)
    requires TranslateName(tb, TypeClassName(tb, t.cls).value) == Ok(Some(UfdlClass(t.cls)))
    ensures ParseType(tb, fs, FormatType(tb, t).value).Err?
  {
    var c := t.cls;
    assert FormatType(tb, t) == FormatTypeOrTypeClass(tb, t);
    var n := TypeClassName(tb, c).value;
    assert FormatArgs(tb, t.args).Ok?;
    var parts := FormatAll(tb, t.args).value;
    FormatAllElements(tb, t.args);
    var argText := "<" + Text.Join(parts, ", ") + ">";
    var s := FormatType(tb, t).value;
    assert s == n + argText;
    IdentifierTextIsNamed(tb, fs, s);
    NamedWithArguments(tb, fs, n, argText);
    SplitDropsLastArgument(parts);
  }
}
