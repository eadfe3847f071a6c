# ufdl-job-types in Dafny

A model of the runtime type system that UFDL jobs use to describe their
inputs and outputs (the `ufdl.jobtypes` package), together with proofs about it.
A job parameter's type is a *type instance*: a type class plus a tuple of type
arguments, written as text such as `Array<Integer, 3>` or `PK<Domain<'Image'>>`.

The model follows the package's five layers:

1. **The generic type engine** (`classes.dfy`, `engine.dfy`, `subtype.dfy`,
   `constructors.dfy`). `UFDLType` construction checks the argument count and
   each argument against its bound. The engine also covers `is_subtype_of`,
   `==`, the canonical text form (`__str__`), `is_abstract` and the literal
   classes that `ValueType.generate_subclass` creates. `is_subtype` and
   `is_ufdl_type` work over classes, instances and raw values. The
   constructors of `Array`, `PK`, `Name`, `PretrainedModel` and `BLOB` reshape
   their arguments first.
2. **The type-expression grammar** (`text.dfy`, `grammar.dfy`, `format.dfy`):
   `parse_type`, `parse_args`, the bracket- and quote-aware `split_args`
   scanner (kept as a loop), and `format_type` with its helpers.
3. **The registry** (`registry.dfy`). This is the module state that
   `initialise_server` sets: the backend's list, retrieve and download
   functions, and the name-to-class and class-to-name maps. It is a class
   whose initialisation method fills the reverse map in a loop.
4. **The value encodings** of the concrete types (`json.dfy`, `simple.dfy`,
   `utf8.dfy`, `expect.dfy`, `protocol.dfy`, `values.dfy`, `containers.dfy`).
   JSON values and JSON schemas are datatypes, and `Validates` says when a
   value satisfies a schema. The encodings are JSON parsing and formatting,
   binary parsing and formatting, and the `expect` guard.
5. **The finite and server-resident types** (`servers.dfy`, `finite.dfy`):
   table names, filter rules, name extraction and name filters,
   `list_all_values`, `PK`, `Name`, `JobOutput` and `Nothing`.

The small utilities are modelled too: `parse_v_name` (`vname.dfy`),
`read_all` (`readall.dfy`, a byte buffer written chunk by chunk) and the
`Enumerable`/`Single` value sets (`valuesets.dfy`).

Every Python exception becomes an `Err` of one closed `Error` datatype
(`errors.dfy`). Each operation that can raise returns a `Res` (`wrappers.dfy`).

Some parts of the code come from different revisions of the package, and
as written the package does not load:

- `base/_UFDLBinaryType.py:5`, `base/_UFDLJSONType.py:9` and
  `base/_ServerResidentType.py:7` import `TypeArgType`, while
  `base/_UFDLType.py:8` defines only `TypeArgsType`, so importing the base
  package raises ImportError.
- `standard/_JobOutput.py:31-34` writes a starred expression as the element of
  a generator, which Python rejects as a SyntaxError. The model reads it as
  `enum(*(value['pk'] for value in self.list_all_values()))`.
- `UFDLType.__init_subclass__` rejects bounds that are not type instances
  (`Domain`, `Framework`, `DockerImage`, `JobOutput`) and computes `Name`'s
  bound `NamedServerType()`, which raises, so these class statements raise.

The model takes each method as it would run once its module loaded. Each part
is modelled as written. The places where the code does not do what the
package's design describes are stated as lemmas about the code as written:

- `NamedServerType` mixes in `ABC` and declares `extract_name` abstract.
  `CUDAVersion`, `Hardware` and `PretrainedModel` define only
  `extract_name_from_json`, so all four classes are abstract and every call
  of them raises TypeError. `Name`'s bound is `NamedServerType()`, so every
  `Name(...)` raises TypeError too (`Constructors.AbstractClassesCannotBeBuilt`,
  `Engine.Construct`).
- `PretrainedModel.instance_class` reads the `instance_class` of its domain and
  framework arguments, which Domain and Framework do not define. So it always
  raises AttributeError and is never cached
  (`Finite.InstanceClassAsWrittenNeverCached`,
  `Finite.PretrainedModelEncodingsRaise`).
- jsonschema compares `const` and `enum` values by JSON equality: an int equals
  the float of its value, and a boolean equals no number (`Json.JsonEqual`).
  So the literal `1` accepts `1.0` (`Simple.IntLiteralAcceptsEqualFloat`).

- `split_args` never emits the text after the last top-level comma. So the
  printed form of an instance with arguments does not parse back, against the
  intended round trip (`Grammar.SplitDropsLastArgument`,
  `Grammar.FormattedInstanceDoesNotParse`).
- `PK.parse_json_value` indexes the primary key (`value[0]`) rather than the
  matched row, so it never succeeds (`Finite.PKParseNeverSucceeds`).
- `PK` and `Name` do not format by extracting the key or the name. They
  validate against the enumeration of current values
  (`Finite.FiniteFormatIsMembership`).
- `Map.format_python_value_to_json` iterates the dict's keys and unpacks each
  key into two names (`Containers.MapFormatUnpacksKeys`,
  `Containers.MapFormatAsWritten`).
- `initialise_server` is not all-or-nothing. The backend and the name map are
  replaced before validation, and the reverse map can be left partial
  (`Registry.Registry.InitialiseServer`). It does not check that the classes
  derive from `UFDLType`.
- `Integer`, `Boolean` and `String` parse with an `isinstance` test instead of
  their schema, and `Integer` disagrees with its schema
  (`Values.IntegerParseDisagreesWithSchema`). They and `Framework` format
  without validating.
- The following cannot encode values:
  - `Nothing` formats nothing: `expect(None, value)` passes `None` where a
    class is expected (`Finite.NothingIsNull`).
  - The `json_schema` property of `UFDLJSONType`, `FiniteJSONType`,
    `ServerResidentType`, `NamedServerType`, Domain and DockerImage builds its
    error message from `self.json_schema`, which reads the property again. So
    reading it recurses until Python raises RecursionError, and the model
    returns that error (`Protocol.JsonSchemaOf`). A `Map` or `Array` whose
    element is one of these inherits the error.
  - Domain has no schema and no parser (`Values.DomainEncodesNothing`).
  - DockerImage validates against that recursive schema, so its parse and
    format raise RecursionError (`Values.DockerImageEncodesNothing`).
- Bounds that are bare classes make explicit arguments fail:
  - The bound of `Domain` is the bare class `str`, and `Framework` and
    `DockerImage` also have bare-class bounds. So explicit arguments never
    construct these types (`Engine.ClassBoundedTypesOnlyByDefault`).
  - Nor do they construct a `Model` or a `PretrainedModel`
    (`Engine.DomainFrameworkBoundedOnlyByDefault`).
- `Array(e)` wraps its arguments a second time, and `BLOB(hint)` passes a class
  where a tuple is expected. Both always raise
  (`Constructors.ArrayRejectsOneArgument`, `Constructors.BlobHintAlwaysFails`).
- `DockerImage.filter_rules` unpacks two arguments from a `Domain`, which has
  one (`Servers.DockerImageDomainInstanceFails`).
- `util._simple.format_json_value` validates against the type itself rather
  than a schema (`Simple.FormatSimpleJson`). Only the literal `True` lets a
  value through. A string literal containing `$schema` raises TypeError inside
  jsonschema (`Simple.SchemaKeyLiteralFormatIsTypeError`), and any other
  string is an invalid schema (`Simple.EmptyLiteralFormatIsSchemaInvalid`).
- `is_abstract` of a container, `PK` or `Name` follows its first argument
  only. It does not combine the class's flag with all of its arguments
  (`Values.WrappersFollowInnermost`).
- The server-resident base class does not define the methods below, which the
  `PK`, `Name` and `JobOutput` code calls. Each is a parameter of the model
  (`Context.Foreign`):
  - `list_all_json_values`;
  - `get_filtered_list_of_json_values`;
  - `get_python_value_by_name`.
  In the same way, `Name` calls `extract_name_from_json`, which only
  `CUDAVersion`, `Hardware` and `PretrainedModel` define.
- `UFDLType.format_type_class_name` imports `type_translate`, which the
  initialisation module does not define. It is modelled as
  `name_type_translate` given the class.

## Model

| member | source | states |
|---|---|---|
| Expect.ExpectValue | src/ufdl/jobtypes/error/_ExpectationError.py:18-30 | the value comes back unchanged exactly when it is an instance of the class, or of some class of a tuple; otherwise ExpectationError built from the received value twice; a non-class second argument makes `isinstance` raise TypeError |
| Expect.SingletonTupleIsTheType | src/ufdl/jobtypes/error/_ExpectationError.py:18-20 | a one-class tuple accepts and rejects exactly what the class does |
| VName.LastSep | src/ufdl/jobtypes/util/_parse_v_name.py:4 | the greedy first group ends at the last ` v`: the position found holds ` v` and no later position does; none is found only when there is no ` v` |
| VName.Line | src/ufdl/jobtypes/util/_parse_v_name.py:4 | `$` lets the match end before one final newline: the text matched is the input or the input without that newline |
| VName.ParseVName | src/ufdl/jobtypes/util/_parse_v_name.py:7-18 | on success name + " v" + version rebuilds the matched line and the version holds no ` v`; every failure is the one exception naming the input |
| VName.NoSeparatorRaises | src/ufdl/jobtypes/util/_parse_v_name.py:13-16 | text without ` v` raises |
| VName.InnerNewlineRaises | src/ufdl/jobtypes/util/_parse_v_name.py:4-16 | a newline before the last character makes the match fail |
| VName.ParseJoined | src/ufdl/jobtypes/util/_parse_v_name.py:4-18 | splitting `n + " v" + v` gives back `(n, v)` whenever `v` holds no ` v` and neither part a newline |
| VName.EmptyPartsAllowed | src/ufdl/jobtypes/util/_parse_v_name.py:4 | both parts may be empty: `" v"` splits into two empty strings |
| ReadAll.ReadAllChunks | src/ufdl/jobtypes/util/_read_all.py:5-18 | the result is the chunks concatenated in iteration order, as long as all chunks together, and empty for no chunks |
| ReadAll.ByteBuffer.constructor | src/ufdl/jobtypes/util/_read_all.py:14 | a fresh buffer is empty with its position at the start |
| ReadAll.ByteBuffer.Write | src/ufdl/jobtypes/util/_read_all.py:16 | the chunk is written at the position, which then moves past it |
| ReadAll.ByteBuffer.Seek | src/ufdl/jobtypes/util/_read_all.py:17 | rewinding changes the position only |
| ReadAll.ByteBuffer.Read | src/ufdl/jobtypes/util/_read_all.py:18 | reading returns everything from the position to the end and leaves the contents alone |
| ReadAll.Overwrite | src/ufdl/jobtypes/util/_read_all.py:16 | a write puts the chunk at the position and sets the length to cover it |
| ReadAll.OverwriteAtEnd | src/ufdl/jobtypes/util/_read_all.py:15-16 | writing at the end appends, which is what every write in the loop does |
| ReadAll.ConcatLength | src/ufdl/jobtypes/util/_read_all.py:15-16 | the result's length is the sum of the chunk lengths |
| ReadAll.ConcatAppend | src/ufdl/jobtypes/util/_read_all.py:15-16 | concatenating two runs of chunks is concatenating their results |
| ReadAll.EmptyChunksContributeNothing | src/ufdl/jobtypes/util/_read_all.py:15-16 | dropping the empty chunks does not change the result |
| ValueSets.SetOf | src/ufdl/jobtypes/values/_Enumerable.py:8 | `set(values)` holds exactly the values given |
| ValueSets.SetOfSize | src/ufdl/jobtypes/values/_Enumerable.py:8-16 | duplicates collapse: the size is at most the number of values, and equal to it exactly when no value repeats |
| ValueSets.Enumerable.constructor | src/ufdl/jobtypes/values/_Enumerable.py:7-10 | the stored set is the set of the constructor's values |
| ValueSets.Enumerable.Enumerate | src/ufdl/jobtypes/values/_Enumerable.py:12-13 | `enumerate()` is the stored set, and membership in it agrees with `test` |
| ValueSets.EnumerableOf | src/ufdl/jobtypes/values/_Enumerable.py:7-16 | `test(v)` holds exactly for the constructor's values; `size()` counts the distinct ones |
| ValueSets.Single.constructor | src/ufdl/jobtypes/values/_Single.py:5-7 | the single value is stored and the underlying set is `{value}` |
| ValueSets.Single.Test | src/ufdl/jobtypes/values/_Single.py:5-6 | `test(x)` holds exactly when `x == value` |
| ValueSets.Single.Enumerate | src/ufdl/jobtypes/values/_Single.py:5-6 | `enumerate()` is `{value}` |
| ValueSets.Single.Size | src/ufdl/jobtypes/values/_Single.py:5-6 | `size()` is 1 |
| Text.NatToString | src/ufdl/jobtypes/util/_format.py:93-94 | `str(n)` is a non-empty run of decimal digits without a leading zero |
| Text.NatToStringValue | src/ufdl/jobtypes/util/_format.py:93-94 | the digits of `str(n)` have the value `n` |
| Text.NatTextReads | src/ufdl/jobtypes/util/_format.py:93-94 | `str(n)` is text `int()` accepts, and reads as `n` |
| Text.IntTextRoundTrip | src/ufdl/jobtypes/util/_format.py:93-94 | `int(str(i)) == i` for every int, negative ones included |
| Text.WithoutUnderscores | src/ufdl/jobtypes/util/_parse.py:29 | the underscores `int()` allows between digits are removed and nothing else changes |
| Text.TrimLeft | src/ufdl/jobtypes/util/_parse.py:20 | what remains after removing leading whitespace does not start with whitespace |
| Text.TrimRight | src/ufdl/jobtypes/util/_parse.py:20 | what remains after removing trailing whitespace does not end with whitespace |
| Text.TrimLeftSuffix | src/ufdl/jobtypes/util/_parse.py:20 | removing leading whitespace keeps a suffix and drops only whitespace |
| Text.TrimRightPrefix | src/ufdl/jobtypes/util/_parse.py:20 | removing trailing whitespace keeps a prefix and drops only whitespace |
| Text.Strip | src/ufdl/jobtypes/util/_parse.py:20 | `strip()` is never longer than its input and neither starts nor ends with whitespace |
| Text.StripRemovesOnlySpace | src/ufdl/jobtypes/util/_parse.py:20 | the stripped text occurs in the input, and every character outside it is whitespace |
| Text.StripFixesNonSpaceEnds | src/ufdl/jobtypes/util/_parse.py:20 | text that starts and ends with non-whitespace is left unchanged |
| Text.StripIdempotent | src/ufdl/jobtypes/util/_parse.py:20 | stripping twice is stripping once |
| Text.Escape | src/ufdl/jobtypes/util/_format.py:88-90 | every `'` becomes `\'`, so the escaped text never starts with `'` |
| Text.UnescapeEscape | src/ufdl/jobtypes/util/_parse.py:24 | replacing `\'` by `'` undoes the formatter's escaping for every string |
| Text.Join | src/ufdl/jobtypes/util/_format.py:23 | joining one part gives that part; the text of longer lists is stated by `Text.JoinAppend` and `Text.JoinLength` |
| Text.JoinAppend | src/ufdl/jobtypes/util/_format.py:23 | appending a part to a non-empty list adds exactly one separator and then the part |
| Text.JoinLength | src/ufdl/jobtypes/util/_format.py:23 | the joined text is as long as all the parts plus one separator per gap |
| Text.Lower | src/ufdl/jobtypes/standard/server/_Domain.py:13-14 | `lower()` keeps the length and lowers each character |
| Format.FormatType | src/ufdl/jobtypes/util/_format.py:72-98 | a string value prints between single quotes; a float value, and the `float` and `bool` classes, reach `format_type_or_type_class` and raise TypeError |
| Format.FormatTypeOrTypeClass | src/ufdl/jobtypes/util/_format.py:47-69 | anything that is neither an instance nor a UFDL class raises TypeError; an unnamed class raises what the name lookup raises; otherwise the text starts with the registered name |
| Format.FormatArgs | src/ufdl/jobtypes/util/_format.py:8-23 | no arguments format to the empty string; otherwise the text is bracketed by `<` and `>`; the interior is stated by `Format.FormatArgsText` |
| Format.FormatAll | src/ufdl/jobtypes/util/_format.py:23 | one formatted piece per argument |
| Format.FormatAllElements | src/ufdl/jobtypes/util/_format.py:23 | each piece is its argument's own `format_type`, in order |
| Format.FormatAllFailure | src/ufdl/jobtypes/util/_format.py:23 | formatting the arguments fails exactly when one argument fails, with the first failing argument's error |
| Format.FormatArgsText | src/ufdl/jobtypes/util/_format.py:20-23 | a non-empty argument list formats exactly when every argument does, to `<` + the ", "-join of each argument's `format_type` + `>` |
| Format.ClassFormatsAsDefaultInstance | src/ufdl/jobtypes/util/_format.py:60-65 | a class formats with its parameters' bounds, exactly as an instance with those arguments |
| Format.FormatAgreesWithStr | src/ufdl/jobtypes/base/_UFDLType.py:128-148 | for instances built only from instances (no value types), `format_type` and `str` give the same text |
| Format.FormatAllAgreesWithStrAll | src/ufdl/jobtypes/base/_UFDLType.py:138-148 | the two argument-list formatters agree on such arguments |
| Format.QuotedStringUnescapes | src/ufdl/jobtypes/util/_parse.py:23-24 | the interior of a formatted string value unescapes to the string itself |
| Grammar.Slice | src/ufdl/jobtypes/util/_parse.py:118 | `s[start:index]` is no longer than `index`, and empty when the bounds cross |
| Grammar.ScanFrom | src/ufdl/jobtypes/util/_parse.py:105-120 | the scan only appends pieces, at most one per comma, each shorter than the text; it fails only with ValueError |
| Grammar.SplitArgs | src/ufdl/jobtypes/util/_parse.py:89-124 | text not bracketed by `<...>` raises ValueError, every failure is ValueError, there are at most as many pieces as commas, and each piece is shorter than the text |
| Grammar.SplitArgsLoop | src/ufdl/jobtypes/util/_parse.py:98-124 | the loop over depth, quoting, piece start and result list computes `SplitArgs` |
| Grammar.FindFirst | src/ufdl/jobtypes/util/_parse.py:45 | `find('<')`: the position found holds `<` and none before it does; none is found only when there is no `<` |
| Grammar.ParseValue | src/ufdl/jobtypes/util/_parse.py:26-43 | the raw values tried before names are never strings |
| Grammar.ParseNamed | src/ufdl/jobtypes/util/_parse.py:45-71 | a name reading gives a class or an instance, never a raw value; a UFDL class with arguments is stated by `Grammar.NamedClassWithArguments` |
| Grammar.Resolve | src/ufdl/jobtypes/util/_parse.py:53-71 | a resolved name gives a class or an instance, never a raw value; a UFDL class with arguments is stated by `Grammar.ResolveClassWithArguments` |
| Grammar.ParseArgs | src/ufdl/jobtypes/util/_parse.py:74-86 | one parsed argument per piece `split_args` produced; the contents are stated by `Grammar.ParseArgsPieces` |
| Grammar.ParseAll | src/ufdl/jobtypes/util/_parse.py:86 | one parsed argument per piece; the contents are stated by `Grammar.ParseAllPieces` |
| Grammar.ParseAllPieces | src/ufdl/jobtypes/util/_parse.py:86 | the pieces all parse exactly when each does; each result is its piece's `parse_type`, and a failure is the first failing piece's error |
| Grammar.ParseArgsPieces | src/ufdl/jobtypes/util/_parse.py:74-86 | `split_args`' ValueError propagates; otherwise the arguments parse exactly when every piece does, each to its own `parse_type` |
| Grammar.ResolveClassWithArguments | src/ufdl/jobtypes/util/_parse.py:66-71 | a UFDL class with arguments raises TypeParsing of the whole text when the arguments do not parse, and is otherwise called with the tuple of the parsed pieces |
| Grammar.ParsesQuoted | src/ufdl/jobtypes/util/_parse.py:23-24 | stripped text in single quotes parses to its interior with `\'` replaced by `'` |
| Grammar.ParsesValue | src/ufdl/jobtypes/util/_parse.py:26-43 | stripped unquoted text that reads as a raw value parses to that value |
| Grammar.ParsesNamed | src/ufdl/jobtypes/util/_parse.py:45-71 | any other stripped text is read as a name with optional arguments |
| Grammar.WhitespaceIgnored | src/ufdl/jobtypes/util/_parse.py:19-20 | surrounding whitespace never changes the result |
| Grammar.StringRoundTrip | src/ufdl/jobtypes/util/_parse.py:22-24 | `parse_type(format_type(s)) == s` for every string `s` |
| Grammar.StringLiteralTypeParsesToValue | src/ufdl/jobtypes/base/_ValueType.py:68-71 | the printed form of a string literal type parses to the raw string, not back to the literal type |
| Grammar.IntTextIsStripped | src/ufdl/jobtypes/util/_format.py:93-94 | the decimal text of an int has no surrounding whitespace and does not start with a quote |
| Grammar.IntTextParses | src/ufdl/jobtypes/util/_parse.py:26-31 | the decimal text of an int parses to that int, ahead of any float reading |
| Grammar.IntRoundTrip | src/ufdl/jobtypes/util/_format.py:92-94 | `parse_type(format_type(n)) == n` for every int `n` |
| Grammar.IntLiteralTypeParsesToValue | src/ufdl/jobtypes/base/_ValueType.py:79-81 | the printed form of an int literal type parses to the raw int |
| Grammar.NotIntText | src/ufdl/jobtypes/util/_parse.py:28-31 | text starting with anything but a digit or sign is not an int |
| Grammar.SymbolIsStripped | src/ufdl/jobtypes/base/_ValueType.py:18-19 | `@true` and `@false` are stripped, unquoted and start with `@` |
| Grammar.BoolSymbolsParse | src/ufdl/jobtypes/util/_parse.py:39-43 | `@true` and `@false` parse to the booleans |
| Grammar.BoolLiteralTypeParsesToValue | src/ufdl/jobtypes/base/_ValueType.py:73-77 | the printed form of a boolean literal type parses to the raw bool |
| Grammar.BoolFormatDoesNotRoundTrip | src/ufdl/jobtypes/util/_format.py:92-94 | `format_type` prints a bool as `True`/`False`, which does not parse back to the bool |
| Grammar.NamedWithoutArguments | src/ufdl/jobtypes/util/_parse.py:45-48 | stripped text without `<` is all name, with no arguments |
| Grammar.ResolveBare | src/ufdl/jobtypes/util/_parse.py:53-64 | a name without arguments gives the class it names; an unknown name raises UnknownTypeName |
| Grammar.ResolveBuiltinWithArguments | src/ufdl/jobtypes/util/_parse.py:58-60 | a builtin simple class with arguments raises TypeParsing of the whole text |
| Grammar.NameParsesToClass | src/ufdl/jobtypes/util/_parse.py:45-64 | a bare identifier parses to the class it names, never an instance, or raises UnknownTypeName |
| Grammar.FirstAngle | src/ufdl/jobtypes/util/_parse.py:45 | the first `<` of `name<...>` is right after the name |
| Grammar.IdentifierTextIsNamed | src/ufdl/jobtypes/util/_parse.py:26-45 | text starting like an identifier is read as a name |
| Grammar.NamedWithArguments | src/ufdl/jobtypes/util/_parse.py:49-51 | `name<...>` splits into the name and the bracketed rest |
| Grammar.NamedClassWithArguments | src/ufdl/jobtypes/util/_parse.py:45-71 | `name<...>` for a UFDL class raises TypeParsing when an argument fails and otherwise is the class called with the parsed tuple |
| Grammar.SimpleTypeTakesNoArguments | src/ufdl/jobtypes/util/_parse.py:58-60 | a simple builtin class followed by arguments raises TypeParsing |
| Grammar.CommasConcat | src/ufdl/jobtypes/util/_parse.py:117 | commas of a concatenation add up |
| Grammar.CommasOfJoin | src/ufdl/jobtypes/util/_format.py:23 | joining comma-free parts with `, ` leaves one comma fewer than there are parts |
| Grammar.SplitDropsLastArgument | src/ufdl/jobtypes/util/_parse.py:117-124 | `split_args` of the printed form of `n` comma-free arguments gives fewer than `n` pieces: the last one is lost |
| Grammar.FormattedInstanceDoesNotParse | src/ufdl/jobtypes/util/_parse.py:66-71 | consequently the printed form of an instance with arguments never parses back |
| Engine.TypeClassName | src/ufdl/jobtypes/base/_UFDLType.py:150-166 | the registered name of the class when the registry knows it; `ValueError` for an unregistered class; not-initialised before initialisation |
| Engine.IsSubtypeOf | src/ufdl/jobtypes/base/_UFDLType.py:76-90 | true exactly when the class derives from the other's class and every zipped argument pair is a subtype; an error only from a raising argument comparison |
| Engine.ArgsSubtypes | src/ufdl/jobtypes/base/_UFDLType.py:86-89 | the `all(...)` over the zipped argument pairs from position `i`: true exactly when each pair is a subtype, and an error is the first raising pair's |
| Engine.SubtypeReflexive | src/ufdl/jobtypes/base/_UFDLType.py:76-90 | every well-shaped type is a subtype of itself |
| Engine.SubtypeTransitive | src/ufdl/jobtypes/base/_UFDLType.py:76-90 | subtyping of well-shaped types is transitive |
| Engine.SubtypeAntisymmetric | src/ufdl/jobtypes/base/_UFDLType.py:76-90 | two well-shaped types that are subtypes of each other are equal |
| Engine.EqualityIsMutualSubtyping | src/ufdl/jobtypes/base/_UFDLType.py:67-74 | `==` on well-shaped types holds exactly when each is a subtype of the other |
| Engine.LiteralSubtypeOfKind | src/ufdl/jobtypes/base/_ValueType.py:51-54 | a literal value type is a subtype of the kind type of its own value and of no other kind |
| Engine.DefaultDomainNotReflexive | src/ufdl/jobtypes/base/_UFDLType.py:86-89 | `Domain()` compared with itself raises, because its argument is the bare class `str` |
| Engine.StrArgs | src/ufdl/jobtypes/base/_UFDLType.py:138-148 | no arguments print as the empty text; otherwise the text is enclosed in `<` and `>`; the interior is stated by `Engine.StrArgsText` |
| Engine.StrAll | src/ufdl/jobtypes/base/_UFDLType.py:148 | printing every argument yields one text per argument; each text is stated by `Engine.StrAllElements` |
| Engine.StrAllElements | src/ufdl/jobtypes/base/_UFDLType.py:148 | each printed text is its argument's own `str`, in order |
| Engine.StrAllFailure | src/ufdl/jobtypes/base/_UFDLType.py:148 | printing the arguments fails exactly when one argument fails, with the first failing argument's error |
| Engine.StrArgsText | src/ufdl/jobtypes/base/_UFDLType.py:138-148 | a non-empty argument list prints exactly when every argument does, as `<` + the ", "-join of each argument's `str` + `>` |
| Engine.StrOf | src/ufdl/jobtypes/base/_UFDLType.py:128-148 | classes, raw values and literal types always print; an instance of any other class prints only when its class has a registered name, and its text starts with that name |
| Engine.StrOfInstance | src/ufdl/jobtypes/base/_UFDLType.py:128-148 | an instance with arguments prints exactly when its class is named and every argument prints, as the name followed by the bracketed ", "-join of the arguments' `str` |
| Engine.StrOfParameterless | src/ufdl/jobtypes/base/_UFDLType.py:131-136 | an instance without arguments prints as its registered class name |
| Engine.UnnamedClassCannotPrint | src/ufdl/jobtypes/base/_UFDLType.py:163-164 | an instance of an unregistered class cannot be printed: `ValueError` |
| Engine.BoolLiteralText | src/ufdl/jobtypes/base/_ValueType.py:73-77 | boolean literal types print as `@true`/`@false`, which do not read back as integers |
| Engine.IntLiteralText | src/ufdl/jobtypes/base/_ValueType.py:79-81 | an integer literal type prints as text that reads back as the same integer |
| Engine.CheckArg | src/ufdl/jobtypes/base/_UFDLType.py:50-57 | one argument is accepted exactly when it is a type instance that is a subtype of its bound |
| Engine.CheckArgs | src/ufdl/jobtypes/base/_UFDLType.py:49-57 | all arguments are accepted exactly when each one is, and a rejection is the first failing argument's |
| Engine.Construct | src/ufdl/jobtypes/base/_UFDLType.py:31-61 | `Name`, whose bound `NamedServerType()` is abstract, always raises TypeError; otherwise omitted arguments default to the bounds, a non-tuple is `TypeError`, a wrong count is `WrongNumberOfTypeArgs`, and success comes exactly when every argument passes its bound check |
| Engine.NewInstance | src/ufdl/jobtypes/base/_UFDLType.py:36-61 | the constructor's loop yields exactly the instance or error `Construct` describes |
| Engine.ClassBoundedTypesOnlyByDefault | src/ufdl/jobtypes/standard/server/_Domain.py:20-22 | explicit arguments never build a Domain, Framework, DockerImage or JobOutput, since their bounds are bare classes |
| Engine.DomainFrameworkBoundedOnlyByDefault | src/ufdl/jobtypes/standard/_Model.py:24-26 | explicit arguments never build a Model or PretrainedModel, since the Domain bound's argument is the bare class `str` |
| Engine.ValueOf | src/ufdl/jobtypes/base/_ValueType.py:30-32 | `value()` is defined exactly for ValueType, the kind types and the literal types |
| Classes.Bounds | src/ufdl/jobtypes/base/_UFDLType.py:92-104 | every class some other class derives from keeps the inherited empty tuple of parameter bounds |
| Classes.AbstractIsNamedServer | src/ufdl/jobtypes/base/_NamedServerType.py:8-22 | the abstract classes are exactly NamedServerType and its descendants |
| Classes.AbstractBoundIsName | src/ufdl/jobtypes/standard/_Name.py:50-51 | Name is the one class whose bound instantiates an abstract class |
| Classes.DescendsTransitive | src/ufdl/jobtypes/base/_UFDLType.py:84 | the `isinstance(self, type(other))` class test is transitive |
| Classes.DescendsAntisymmetric | src/ufdl/jobtypes/base/_UFDLType.py:84 | two classes each deriving from the other are the same class |
| Classes.ParameterisedClassIsLeaf | src/ufdl/jobtypes/base/_UFDLType.py:92-104 | a class that declares parameter bounds has no subclass |
| Classes.PyEqIsEquality | src/ufdl/jobtypes/base/_UFDLType.py:73 | comparing argument tuples with `==` is structural equality when no raw bool or float literal is involved |
| Classes.LiteralJsonEqual | src/ufdl/jobtypes/base/_ValueType.py:44 | a string or boolean literal equals only itself; an int literal also equals the float of its value, and an integral float literal the int of its value |
| Classes.TrueEqualsOne | src/ufdl/jobtypes/base/_UFDLType.py:73 | with raw literals it is not: `True` and `1` compare equal though they differ |
| Registry.StubBackend | src/ufdl/jobtypes/initialise/_initialisation.py:18-20 | before initialisation the list, retrieve and download functions raise NotInitialised for every input |
| Registry.MapOf | src/ufdl/jobtypes/initialise/_initialisation.py:40 | the forward map holds exactly the given names, each mapped to its type class |
| Registry.BuildReverseOutcome | src/ufdl/jobtypes/initialise/_initialisation.py:41-47 | the reverse loop succeeds exactly when every name is an identifier and no type class has two names, and then maps each type class to its name and nothing else |
| Registry.BuildReverseStopsAt | src/ufdl/jobtypes/initialise/_initialisation.py:45-46 | a type class already present makes the loop raise `ValueError` |
| Registry.TranslationAfterInit | src/ufdl/jobtypes/initialise/_initialisation.py:50-64 | after a successful initialisation each name translates to its type class and back, and anything unregistered translates to `None` |
| Registry.NamesTranslate | src/ufdl/jobtypes/initialise/_initialisation.py:61-64 | with the forward map installed each name translates to its type class and an absent name to `None` |
| Registry.TypesTranslate | src/ufdl/jobtypes/initialise/_initialisation.py:61-64 | with the reverse map installed each type class translates to its name and an absent class to `None` |
| Registry.Registry.constructor | src/ufdl/jobtypes/initialise/_initialisation.py:14-20 | the module state starts with no maps and the raising stub functions |
| Registry.Registry.InitialiseServer | src/ufdl/jobtypes/initialise/_initialisation.py:23-47 | installs the backend and the forward map, then fills the reverse map pair by pair exactly as `BuildReverse` describes, stopping at the first rejected pair |
| Registry.UninitialisedRegistryRaises | src/ufdl/jobtypes/initialise/_initialisation.py:60-79 | on a fresh registry every translation and every backend call raises NotInitialised |
| Subtype.IsSubtype | src/ufdl/jobtypes/util/_is_subtype.py:8-37 | a non-type argument is `TypeError`; a check against a class or a raw value always answers; against an instance it is the instance's own `is_subtype_of` |
| Subtype.ClassSubtypeIsDescent | src/ufdl/jobtypes/util/_is_subtype.py:18-20 | a UFDL class is a subtype of exactly the UFDL classes it derives from |
| Subtype.SubtypeOfClassTransitive | src/ufdl/jobtypes/util/_is_subtype.py:18-20 | a subtype of a class is also a subtype of that class's ancestors |
| Subtype.InstanceSubtypeOfAncestors | src/ufdl/jobtypes/util/_is_subtype.py:20 | an instance is a subtype of its own class and of each ancestor class |
| Subtype.TrueIsNotSubtypeOfOne | src/ufdl/jobtypes/util/_is_subtype.py:35-37 | raw `True` and `1` are equal in Python but neither is a subtype of the other |
| Subtype.LiteralSubtypeIsIdentity | src/ufdl/jobtypes/util/_is_subtype.py:35-37 | against a raw value, a raw value is a subtype exactly when it is the same value |
| Subtype.LiteralSubtypeOfItsClass | src/ufdl/jobtypes/util/_is_subtype.py:21-23 | a subtype of a raw `str` or `int` value is also a subtype of that value's builtin class |
| Subtype.BoolValuesAreInts | src/ufdl/jobtypes/util/_is_ufdl_type.py:6-20 | a bool value is accepted as an `int`, but the `bool` class itself is rejected with `TypeError` |
| Subtype.InstancesAndValuesUnrelated | src/ufdl/jobtypes/util/_is_subtype.py:25-37 | type instances and raw values are never subtypes of one another |
| Servers.TableName | src/ufdl/jobtypes/base/_ServerResidentType.py:14-16 | only the seven server-resident classes name a table; the abstract base raises |
| Servers.Arg | src/ufdl/jobtypes/standard/server/_Domain.py:14 | indexing the type arguments succeeds exactly inside the tuple and yields that argument |
| Servers.Pair | src/ufdl/jobtypes/standard/server/_DockerImage.py:21 | unpacking into two names succeeds exactly for two arguments |
| Servers.RuleIfString | src/ufdl/jobtypes/standard/server/_DockerImage.py:24-25 | a rule entry is added exactly when the argument is a raw string |
| Servers.DockerImageRules | src/ufdl/jobtypes/standard/server/_DockerImage.py:19-34 | the rules form a dict whose every value is one of the domain's or framework's raw-string arguments |
| Servers.ExactIfString | src/ufdl/jobtypes/standard/server/_PretrainedModel.py:116-119 | `value()` must exist; an exact-match rule is produced exactly when it is a string |
| Servers.PretrainedModelRules | src/ufdl/jobtypes/standard/server/_PretrainedModel.py:107-121 | the rules form a list of at most three exact-match expressions |
| Servers.DomainRules | src/ufdl/jobtypes/standard/server/_Domain.py:13-14 | succeeds exactly for a raw string argument and filters on its lower-cased text under `name` |
| Servers.FrameworkRules | src/ufdl/jobtypes/standard/server/_Framework.py:13-17 | the `name` and `version` keys mapped to the two type arguments themselves |
| Servers.JobOutputRules | src/ufdl/jobtypes/standard/_JobOutput.py:15-16 | the formatted output type under `type`, failing exactly when that cannot be formatted |
| Servers.FilterRules | src/ufdl/jobtypes/standard/server/_CUDAVersion.py:47-48 | CUDA versions and hardware have no filter rules |
| Servers.NameField | src/ufdl/jobtypes/base/_NamedServerType.py:12-22 | only pretrained models, CUDA versions and hardware have a name field |
| Servers.Field | src/ufdl/jobtypes/standard/server/_Hardware.py:38-39 | `value[key]` succeeds exactly for a dict holding the key and yields its value |
| Servers.NameFilterMatchesExtracted | src/ufdl/jobtypes/standard/server/_Hardware.py:38-42 | the name filter built from a row's extracted name matches that row |
| Servers.DockerImageDomainInstanceFails | src/ufdl/jobtypes/standard/server/_DockerImage.py:22-23 | a Domain instance has one argument, so unpacking it into two raises `ValueError` |
| Servers.DockerImageDefaultRules | src/ufdl/jobtypes/standard/server/_DockerImage.py:48-50 | with the default bound classes the docker image rules are empty |
| Servers.DockerImageFrameworkRules | src/ufdl/jobtypes/standard/server/_DockerImage.py:28-33 | a framework with raw name and version filters on exactly those two values |
| Servers.PretrainedModelRuleOrder | src/ufdl/jobtypes/standard/server/_PretrainedModel.py:110-121 | with string literals the rules are domain description, framework name and framework version, in that order |
| Servers.PretrainedModelDefaultRulesFail | src/ufdl/jobtypes/standard/server/_PretrainedModel.py:111 | with the default bounds the rules raise, because the bare class `str` has no `value()` |
| Simple.ValidateWithSchema | src/ufdl/jobtypes/util/_json.py:40-59 | succeeds exactly when the value satisfies the schema, and otherwise reports that value |
| Simple.SimpleSchema | src/ufdl/jobtypes/util/_simple.py:24-32 | a literal's schema accepts exactly the values jsonschema counts as equal to it; a class's schema is its kind's |
| Simple.ParseSimpleJson | src/ufdl/jobtypes/util/_simple.py:35-37 | succeeds exactly on values valid under the simple schema and returns them unchanged |
| Simple.FormatSimpleJson | src/ufdl/jobtypes/util/_simple.py:40-42 | the type itself is used as the schema, so only the literal `True` (which accepts everything) lets a value through, unchanged; `False` rejects the value, a string literal raises TypeError when it contains `$schema` and is an invalid schema otherwise, and every other simple type raises TypeError |
| Simple.SchemaKeyLiteralFormatIsTypeError | src/ufdl/jobtypes/util/_simple.py:40-42 | formatting against the literal type `'$schema'` raises TypeError |
| Simple.EmptyLiteralFormatIsSchemaInvalid | src/ufdl/jobtypes/util/_simple.py:40-42 | formatting against the literal type `''` reports an invalid schema |
| Simple.ParseSimpleBinary | src/ufdl/jobtypes/util/_simple.py:45-55 | a literal type always rejects binary input; `str` succeeds exactly on valid UTF-8 |
| Simple.FormatSimpleBinary | src/ufdl/jobtypes/util/_simple.py:58-69 | a literal type rejects unequal values and encodes equal ones as its kind; `str` accepts exactly strings and encodes them as UTF-8 |
| Simple.StringBinaryRoundTrip | src/ufdl/jobtypes/util/_simple.py:52-53 | every string survives encoding then decoding as `str` |
| Simple.StringLiteralBinary | src/ufdl/jobtypes/util/_simple.py:59-63 | a string literal type encodes exactly its own string |
| Simple.LiteralJsonParse | src/ufdl/jobtypes/util/_simple.py:25-26 | JSON parsing against a literal accepts exactly the values jsonschema counts as equal to the literal, unchanged |
| Simple.OneRejectsTrueAsJson | src/ufdl/jobtypes/util/_simple.py:25-26 | the literal `1` rejects JSON `true` although Python calls them equal |
| Simple.IntLiteralAcceptsEqualFloat | src/ufdl/jobtypes/util/_simple.py:25-26 | the literal `1` accepts JSON `1.0` and the literal `1.0` accepts JSON `1` |
| Simple.IntClassJson | src/ufdl/jobtypes/util/_simple.py:29-30 | the `int` class accepts a float exactly when it is integral, and rejects booleans |
| Json.JsonEqualReflexive | src/ufdl/jobtypes/util/_simple.py:25-26 | every value whose dicts hold each key once equals itself |
| Json.ScalarJsonEqual | src/ufdl/jobtypes/util/_simple.py:25-26 | for values other than numbers, lists and dicts the equality is Python's `==` |
| Json.NumbersCompareByValue | src/ufdl/jobtypes/util/_simple.py:25-26 | an int equals the float of its value, and a boolean equals no number |
| Constructors.Instantiate | src/ufdl/jobtypes/base/_UFDLType.py:31-61 | the abstract classes raise TypeError for every call; any other call yields an instance of the class called with one argument per parameter, or an error |
| Constructors.ArrayCall | src/ufdl/jobtypes/standard/container/_Array.py:22-25 | `Array(...)` yields an Array instance with its two arguments, or an error |
| Constructors.PretrainedModelCall | src/ufdl/jobtypes/standard/server/_PretrainedModel.py:78-82 | the `__init__` override yields a PretrainedModel instance with its two arguments, or an error; `Instantiate` never reaches it because the class is abstract |
| Constructors.BlobCall | src/ufdl/jobtypes/standard/util/_BLOB.py:21-25 | `BLOB(...)` yields a BLOB instance with its one argument, or an error |
| Constructors.PlainCall | src/ufdl/jobtypes/base/_UFDLType.py:31-34 | a class without its own constructor yields an instance of itself with one argument per parameter, or an error |
| Constructors.WrapServerType | src/ufdl/jobtypes/standard/_PK.py:19-29 | `PK(...)` and `Name(...)` yield an instance of the class called with its one argument, or an error |
| Constructors.DefaultsAreBounds | src/ufdl/jobtypes/base/_UFDLType.py:58-59 | with no arguments every class takes its bounds as its arguments, except Array, the abstract classes and Name |
| Constructors.AbstractClassesCannotBeBuilt | src/ufdl/jobtypes/base/_NamedServerType.py:8-22 | NamedServerType, CUDAVersion, Hardware, PretrainedModel and Name raise TypeError for every call |
| Constructors.ArrayHasNoDefault | src/ufdl/jobtypes/standard/container/_Array.py:22-25 | `Array()` passes an empty tuple, so it never defaults and always fails |
| Constructors.ArrayRejectsOneArgument | src/ufdl/jobtypes/standard/container/_Array.py:23-25 | `Array(x)` always raises WrongNumberOfTypeArgs for one argument against two parameters |
| Constructors.ArrayTwoArguments | src/ufdl/jobtypes/standard/container/_Array.py:22-25 | `Array(e, s)` succeeds exactly when the engine accepts the pair `(e, s)` |
| Constructors.BareServerTypeIsWrapped | src/ufdl/jobtypes/standard/_Name.py:25-26 | `PK(t)` equals `PK((t,))` for a server-resident `t`, and `Name(t)` equals `Name((t,))` for a named one (both raise) |
| Constructors.PretrainedModelPacksArguments | src/ufdl/jobtypes/standard/server/_PretrainedModel.py:79-81 | the `__init__` override treats `(d, f)` and `((d, f),)` alike |
| Constructors.BlobHintAlwaysFails | src/ufdl/jobtypes/standard/util/_BLOB.py:22-25 | `BLOB(hint)` always raises `TypeError`: the hint becomes a class, not a tuple |
| Protocol.RecordSchema | src/ufdl/jobtypes/standard/server/_CUDAVersion.py:14-28 | the record schemas are strict objects: no property beyond the declared ones |
| Protocol.ArraySchema | src/ufdl/jobtypes/standard/container/_Array.py:46-58 | the array schema has the element schema as items, and is invalid exactly for a negative fixed size |
| Protocol.Validated | src/ufdl/jobtypes/standard/container/_Map.py:18 | validation passes exactly when the schema exists and accepts the value, which comes back unchanged; otherwise the schema's error or a validation failure |
| Protocol.JsonSchemaOf | src/ufdl/jobtypes/base/_UFDLJSONType.py:34-39 | an Array's schema is an array schema and a Map's an object schema |
| Protocol.ParseEntry | src/ufdl/jobtypes/standard/container/_Map.py:19-22 | parsing a map entry keeps its key |
| Protocol.FormatKey | src/ufdl/jobtypes/standard/container/_Map.py:28-31 | formatting a map key succeeds only for a two-character key, whose first character becomes the key |
| Protocol.FromRawJson | src/ufdl/jobtypes/standard/server/_CUDAVersion.py:50-51 | a record is built exactly from raw JSON that satisfies its strict schema |
| Protocol.ToRawJson | src/ufdl/jobtypes/standard/server/_CUDAVersion.py:53-55 | formatting accepts exactly records of the right class and yields their raw JSON; otherwise an expectation error |
| Protocol.DictSet | src/ufdl/jobtypes/standard/container/_Map.py:19-22 | assigning a key makes it map to the new value and leaves every other key as it was |
| Protocol.DictOf | src/ufdl/jobtypes/standard/container/_Map.py:28-31 | the dict a comprehension builds holds exactly the keys of its pairs |
| Protocol.FormatBinary | src/ufdl/jobtypes/standard/util/_BLOB.py:30-31 | formatting to binary, where it succeeds, returns the value unchanged |
| Utf8.EncodeChar | src/ufdl/jobtypes/util/_simple.py:67 | one character encodes to one to four bytes, all but the first continuation bytes |
| Utf8.Encode | src/ufdl/jobtypes/util/_simple.py:67 | the encoding takes between one and four bytes per character |
| Utf8.DecodeFirst | src/ufdl/jobtypes/util/_simple.py:53 | a decoded scalar takes one to four bytes from the front of the input |
| Utf8.DecodeEncodedChar | src/ufdl/jobtypes/util/_simple.py:53 | decoding the encoding of one character, whatever follows, yields that character and its length |
| Utf8.DecodeEncode | src/ufdl/jobtypes/util/_simple.py:52-53 | decoding undoes encoding, for every string |
| Values.StrictObjectValidates | src/ufdl/jobtypes/standard/server/_CUDAVersion.py:14-28 | a strict object schema with distinct property names accepts exactly the dicts holding every required key whose every entry is a listed property with a valid value |
| Values.StrictObjectUnlisted | src/ufdl/jobtypes/standard/server/_Hardware.py:14-28 | a dict with a key outside the properties is never a strict record |
| Values.ParseIsValidation | src/ufdl/jobtypes/base/_ValueType.py:89-91 | value types, Nothing, Framework and DockerImage parse by validating against their own schema |
| Values.ParseIsFromRaw | src/ufdl/jobtypes/standard/server/_CUDAVersion.py:50-51 | CUDA versions and hardware parse by building their record from raw JSON |
| Values.ValueTypeParseIsFormat | src/ufdl/jobtypes/base/_ValueType.py:89-95 | a value type parses and formats alike: a value passes exactly when its schema accepts it, unchanged |
| Values.ValueTypeAcceptsScalars | src/ufdl/jobtypes/base/_ValueType.py:97-103 | the unconstrained value type accepts exactly strings, numbers and booleans |
| Values.LiteralAcceptsEqualValues | src/ufdl/jobtypes/base/_ValueType.py:44 | a literal value type accepts exactly the values jsonschema counts as equal to its literal |
| Values.IntKindParse | src/ufdl/jobtypes/base/_ValueType.py:41 | the `int` value type accepts ints and integral floats, never booleans |
| Values.FloatKindParse | src/ufdl/jobtypes/base/_ValueType.py:42 | the `float` value type accepts every number, never booleans |
| Values.IntegerParse | src/ufdl/jobtypes/standard/simple/_Integer.py:13-16 | `Integer` accepts exactly Python ints, booleans included, unchanged, and raises `ValueError` otherwise |
| Values.BooleanParse | src/ufdl/jobtypes/standard/simple/_Boolean.py:13-16 | `Boolean` accepts exactly booleans, unchanged, and raises `ValueError` otherwise |
| Values.StringParse | src/ufdl/jobtypes/standard/simple/_String.py:10-13 | `String` accepts exactly strings, unchanged, and raises `ValueError` otherwise |
| Values.StandardFormatIsIdentity | src/ufdl/jobtypes/standard/simple/_Integer.py:18-19 | `Integer`, `Boolean` and `String` format every value unchanged |
| Values.IntegerParseDisagreesWithSchema | src/ufdl/jobtypes/standard/simple/_Integer.py:13-23 | `Integer` parses `true`, which its schema rejects, and rejects `2.0`, which its schema accepts |
| Values.ParseAcceptsExactlyTheSchema | src/ufdl/jobtypes/base/_UFDLJSONType.py:34-39 | wherever parsing validates (value types, Boolean, String, Nothing, Framework, the records), a value parses exactly when its own schema accepts it |
| Values.ValidatingParseAcceptsSchema | src/ufdl/jobtypes/standard/util/_Nothing.py:21-23 | for value types, Nothing and Framework, a value parses exactly when its own schema accepts it |
| Values.ScalarParseAcceptsSchema | src/ufdl/jobtypes/standard/simple/_String.py:10-20 | for Boolean and String, a value parses exactly when its own schema accepts it |
| Values.RecordParseAcceptsSchema | src/ufdl/jobtypes/standard/server/_Hardware.py:50-59 | for the records, a value parses exactly when its own schema accepts it |
| Values.FrameworkSchemaMeaning | src/ufdl/jobtypes/standard/server/_Framework.py:26-30 | the framework schema accepts exactly dicts with `name` and `version` strings of at most 32 characters and nothing else |
| Values.FrameworkParse | src/ufdl/jobtypes/standard/server/_Framework.py:19-21 | a framework parses exactly such dicts, unchanged, and reports a validation failure otherwise |
| Values.FrameworkFormatIsIdentity | src/ufdl/jobtypes/standard/server/_Framework.py:23-24 | a framework formats every value unchanged, checking nothing |
| Values.FrameworkNameTooLong | src/ufdl/jobtypes/standard/server/_Framework.py:29 | a framework name longer than 32 characters is rejected |
| Values.RecordRoundTrip | src/ufdl/jobtypes/standard/server/_CUDAVersion.py:50-55 | parsing then formatting a CUDA version or hardware record gives the same JSON back |
| Values.RecordFormatThenParse | src/ufdl/jobtypes/standard/server/_Hardware.py:50-55 | formatting accepts exactly records of the class's kind, else an expectation error; parsing the result gives the record back |
| Values.CUDAVersionSchemaRequired | src/ufdl/jobtypes/standard/server/_CUDAVersion.py:21-28 | a valid CUDA version holds its version, full version and minimum driver version |
| Values.CUDAVersionSchemaPk | src/ufdl/jobtypes/standard/server/_CUDAVersion.py:19 | a valid CUDA version's pk, when present, is a number of at least 1 |
| Values.CUDAVersionSchemaFullVersion | src/ufdl/jobtypes/standard/server/_CUDAVersion.py:25 | a valid CUDA version's full version is a string of at most 16 characters |
| Values.CUDAVersionFields | src/ufdl/jobtypes/standard/server/_CUDAVersion.py:50-51 | a CUDA version parses only from a dict with its three required fields |
| Values.HardwareSchemaRejectsUnknownKeys | src/ufdl/jobtypes/standard/server/_Hardware.py:14-28 | the hardware schema rejects any key outside its four properties |
| Values.HardwareRejectsUnknownKeys | src/ufdl/jobtypes/standard/server/_Hardware.py:50-51 | hardware JSON with an unknown key fails to parse with a validation failure |
| Values.BlobBinaryRoundTrip | src/ufdl/jobtypes/standard/util/_BLOB.py:27-31 | a BLOB parses bytes as they are and formats them back unchanged |
| Values.ModelBinary | src/ufdl/jobtypes/standard/_Model.py:16-22 | a model parses bytes as they are and formats exactly bytes and byte streams, else an expectation error |
| Values.BinaryTypesHaveNoJson | src/ufdl/jobtypes/standard/util/_BLOB.py:6-39 | BLOB and Model have no schema, JSON parser or JSON formatter |
| Values.JsonTypesFormatNoBinary | src/ufdl/jobtypes/base/_UFDLType.py:117-126 | no JSON type formats to binary |
| Values.JsonBinaryParse | src/ufdl/jobtypes/base/_UFDLJSONType.py:19-20 | a JSON type decodes bytes as UTF-8, loads the JSON text and parses it; each failing step's error is the result |
| Values.JsonBinaryOfText | src/ufdl/jobtypes/base/_UFDLJSONType.py:19-20 | the UTF-8 encoding of JSON text parses as the value the text loads to |
| Values.AbstractBinaryBases | src/ufdl/jobtypes/base/_UFDLBinaryType.py:17-26 | the bare type and binary bases parse no bytes |
| Values.DomainEncodesNothing | src/ufdl/jobtypes/standard/server/_Domain.py:16-18 | reading a Domain's schema raises RecursionError, parsing raises NotImplementedError and formatting finds no method |
| Values.SelfReadingSchemasRecurse | src/ufdl/jobtypes/base/_UFDLJSONType.py:33-39 | the schema of `UFDLJSONType`, `FiniteJSONType`, `ServerResidentType`, `NamedServerType`, Domain and DockerImage raises RecursionError |
| Values.MapOfRecursiveSchemaRecurses | src/ufdl/jobtypes/standard/container/_Map.py:33-37 | a Map whose element's schema recurses raises RecursionError too |
| Values.DockerImageEncodesNothing | src/ufdl/jobtypes/standard/server/_DockerImage.py:36-46 | a docker image's schema property reads itself, so its schema, parse and format all raise RecursionError |
| Values.NothingDoesNotRoundTrip | src/ufdl/jobtypes/standard/util/_Nothing.py:21-27 | `Nothing` parses `null` but cannot format it, so it does not round-trip |
| Values.StandardRoundTrips | src/ufdl/jobtypes/standard/simple/_Boolean.py:13-19 | Integer, Boolean and String round-trip every value they parse |
| Values.ConcreteClasses | src/ufdl/jobtypes/base/_ValueType.py:105-107 | value types, records, pretrained models, Nothing, BLOB and Model are concrete whatever their arguments |
| Values.OtherClassesAbstract | src/ufdl/jobtypes/base/_UFDLType.py:168-170 | every other non-container class inherits the base's abstractness |
| Values.Innermost | src/ufdl/jobtypes/standard/container/_Array.py:64-65 | following first arguments through arrays, maps, PKs and names ends at a non-wrapper or an argument-less wrapper |
| Values.WrappersFollowInnermost | src/ufdl/jobtypes/standard/container/_Map.py:44-45 | wrapping a type in arrays, maps, PKs and names leaves its abstractness unchanged |
| Finite.PKListsPrimaryKeys | src/ufdl/jobtypes/standard/_PK.py:31-35 | a PK lists the `pk` field of each of its sub-type's rows, in order, failing exactly when a row has none |
| Finite.PKParseNeverSucceeds | src/ufdl/jobtypes/standard/_PK.py:37-43 | parsing a PK always fails: a non-int is an expectation error, a unique match indexes into the int (`TypeError`), and any other count raises |
| Finite.FiniteFormatIsMembership | src/ufdl/jobtypes/standard/_PK.py:45-51 | PKs and names format exactly the values equal, as jsonschema compares, to one their listing holds, unchanged, and report a validation failure otherwise |
| Finite.FiniteFormatNeedsListing | src/ufdl/jobtypes/standard/_Name.py:34-47 | when the listing fails, formatting a PK or name fails with the listing's error |
| Finite.NameParse | src/ufdl/jobtypes/standard/_Name.py:29-32 | a name parses only from a string, which is looked up on the sub-type by name |
| Finite.NameListsNames | src/ufdl/jobtypes/standard/_Name.py:38-43 | a name lists its sub-type's rows' names, in order, and each name's filter matches the row it came from |
| Finite.NothingIsNull | src/ufdl/jobtypes/standard/util/_Nothing.py:21-34 | `Nothing` parses exactly `null`, lists exactly `[null]`, and fails to format anything |
| Finite.ListAllValuesParsesRows | src/ufdl/jobtypes/base/_ServerResidentType.py:22-29 | listing parses every backend row in order, failing with the first row that does not parse |
| Finite.ListAllValuesPropagates | src/ufdl/jobtypes/base/_ServerResidentType.py:26-29 | a failing table name, filter rule or backend listing is the listing's error |
| Finite.ListingBeforeInitialisation | src/ufdl/jobtypes/initialise/_initialisation.py:67-69 | listing before initialisation raises NotInitialised |
| Finite.JobOutputParseRejectsNonInt | src/ufdl/jobtypes/standard/_JobOutput.py:19-20 | a job output parses only from an integer pk; anything else raises `ValueError` |
| Finite.JobOutputParseDownloads | src/ufdl/jobtypes/standard/_JobOutput.py:22-24 | a job output pk is downloaded from the `JobOutput` table and its bytes parsed by the output type |
| Finite.JobOutputFormatNotImplemented | src/ufdl/jobtypes/standard/_JobOutput.py:26-27 | a job output cannot be formatted |
| Finite.JobOutputFiltersByType | src/ufdl/jobtypes/standard/_JobOutput.py:15-16 | job outputs are filtered by the formatted output type under `type` |
| Finite.JobOutputSchemaEnumeratesPks | src/ufdl/jobtypes/standard/_JobOutput.py:29-34 | the job output schema enumerates the `pk` of each listed output, in order |
| Finite.JobOutputSchemaRejectsRecordRows | src/ufdl/jobtypes/standard/_JobOutput.py:31-34 | the listing parses each row as a job output, which rejects the dict rows the backend returns, so the schema raises `ValueError` |
| Finite.InstanceClassIsStable | src/ufdl/jobtypes/standard/server/_PretrainedModel.py:84-96 | with a builder that succeeds, the instance class is built once and every later access returns the same class |
| Containers.ArrayParseElements | src/ufdl/jobtypes/standard/container/_Array.py:27-33 | a parsed array is a tuple of the list's elements, each parsed by the element type, after the array schema accepted the list |
| Containers.ArrayParseFixedSize | src/ufdl/jobtypes/standard/container/_Array.py:49-53 | an array whose size argument is the literal `n` parses only lists of exactly `n` items |
| Containers.ArraySchemaBounds | src/ufdl/jobtypes/standard/container/_Array.py:45-57 | with size literal `n` the schema is the element schema with exactly `n` elements, invalid for negative `n` |
| Containers.ArraySchemaUnbounded | src/ufdl/jobtypes/standard/container/_Array.py:54-57 | without an integer size the schema bounds nothing |
| Containers.ArrayFormatElements | src/ufdl/jobtypes/standard/container/_Array.py:35-43 | formatting accepts only tuples and yields the list of the elements each formatted by the element type |
| Containers.ArrayFormatSizeMismatch | src/ufdl/jobtypes/standard/container/_Array.py:38-39 | a tuple of the wrong size for a fixed-size array raises `ValueError` |
| Containers.ArrayParsedSize | src/ufdl/jobtypes/standard/container/_Array.py:27-28 | a parsed array's list has the size its size argument fixes |
| Containers.ArrayFormatsTuple | src/ufdl/jobtypes/standard/container/_Array.py:35-43 | a tuple of the right size whose elements all format yields the list of their formats |
| Containers.ArrayRoundTrip | src/ufdl/jobtypes/standard/container/_Array.py:27-43 | when the element type round-trips, formatting a parsed array gives the original list back |
| Containers.ValueTypeRoundTrips | src/ufdl/jobtypes/base/_ValueType.py:89-95 | every value type round-trips |
| Containers.MapParseKeepsKeys | src/ufdl/jobtypes/standard/container/_Map.py:17-22 | a parsed map keeps the dict's keys and parses each value by the element type |
| Containers.MapSchema | src/ufdl/jobtypes/standard/container/_Map.py:33-37 | a map's schema is an object whose additional properties take the element schema |
| Containers.MapFormatChecksKeys | src/ufdl/jobtypes/standard/container/_Map.py:25-27 | formatting a map rejects non-dicts and dicts with a non-string key with an expectation error |
| Containers.MapFormatUnpacksKeys | src/ufdl/jobtypes/standard/container/_Map.py:28-31 | iterating the dict yields keys, which are unpacked into two names: keys of any length but two raise `ValueError` |
| Containers.MapFormatAsWritten | src/ufdl/jobtypes/standard/container/_Map.py:28-31 | a two-character key `ab` formats to the entry `a: "b"`, whatever the value was |
| Containers.MapFormatKeys | src/ufdl/jobtypes/standard/container/_Map.py:24-31 | a formatted map's keys are exactly the first characters of the two-character keys |
| Finite.PretrainedModelType.constructor | src/ufdl/jobtypes/standard/server/_PretrainedModel.py:78-82 | a new pretrained model keeps its arguments and has no instance class yet |
| Finite.PretrainedModelType.InstanceClassOf | src/ufdl/jobtypes/standard/server/_PretrainedModel.py:84-96 | while the slot is empty an access runs the build and caches its class only if it succeeds; once filled, accesses return the cached class unchanged |
| Finite.InstanceClassAsWrittenNeverCached | src/ufdl/jobtypes/standard/server/_PretrainedModel.py:84-96 | as written every access raises AttributeError and the slot stays empty |
| Protocol.SpecialisedInstanceClass | src/ufdl/jobtypes/standard/server/_PretrainedModel.py:86-94 | building the class raises IndexError for fewer than two arguments and AttributeError for any framework argument that is not a pretrained model |
| Finite.PretrainedModelEncodingsRaise | src/ufdl/jobtypes/standard/server/_PretrainedModel.py:123-132 | a pretrained-model type has no schema and neither parses nor formats JSON: each raises AttributeError |

## Left out

- I/O: the backend's list, retrieve and download functions are parameters (`Registry.Backend`). Nothing about a real server is modelled.
- Foreign code is taken as given, as parameters of `Context.Foreign` and `Classes.FloatSyntax`:
  - `json.loads`;
  - the int/float/bool byte serialisers of wai.common;
  - Python's float `repr` and `float()`.
- Float literals: parsing and printing of floats goes through `FloatSyntax`. No property of float text is proved.
- `validate_with_schema` is taken to validate a value against the instance's own `json_schema`. The jsonschema library behind it is modelled by `Json.Validates` on the schema shapes the package builds.
- `StrictJSONObject`: the records of CUDA versions and hardware keep their raw JSON, validated against the record's strict schema. The record machinery itself is not modelled, nor the `PretrainedModelInstance` record and its specialisation.
- `standard/util/_Compressed.py` (ZIP archiving), `standard/util/_JSON.py` and `standard/server/_Dataset.py` are not part of this model.
- The weak-reference cache of `ValueType.generate_subclass` and the `__init_subclass__` checks are not modelled. Literal classes are values (`Classes.ClassId.LitC`), so two requests for the same literal give equal classes.
- `generate_subclass` of a value that is neither a kind nor a literal raises. Such a value has no representation, so that error path is not modelled.
- The exception classes' messages are not modelled; each exception is one `Errors.Error` constructor.
- `Servers.TableName`: its contract states which classes have a table. The table names themselves (`"cuda"`, `"hardware"`, ...) are stated only by its body.
- `Protocol.JsonSchemaOf`: its contract states only the shape of array and map schemas. The schemas of the other classes are stated by the lemmas in `Values`, `Containers` and `Finite`.
- `Protocol.ParseJson`, `Protocol.FormatJson`, `Protocol.ParseBinary` and `Protocol.ListAllValues` carry no contract of their own. Their behaviour class by class is stated by the lemmas in `Values`, `Containers` and `Finite`.
- `Containers.ArrayRoundTrip`: it is proved for element types that round-trip. `Values` shows which classes do.
- `Values.WrappersFollowInnermost` excludes a container with no arguments, whose `is_abstract` raises `IndexError`.
- `Utf8`: Python strings are modelled as sequences of Dafny `char`, which cannot hold lone surrogates. Encoding such a string, which Python rejects, is not modelled.
- `Finite.PretrainedModelType`: it models only the caching of `instance_class`. A class the build would return belongs to the record machinery left out above; as written no build succeeds.
- Enumerable's `enumerate()` returns a fresh copy in Python. Sets are values in the model, so the copy cannot be told apart from the stored set.
- Instances of the abstract classes: the lemmas about CUDA-version, hardware and pretrained-model instances (`Values.CUDAVersion*`, `Values.Hardware*`, `Values.RecordRoundTrip`, `Values.RecordFormatThenParse`, `Servers.PretrainedModel*`, `Finite.PretrainedModelType`) and about `Name` instances (`Finite.Name*`, `Finite.FiniteFormatIsMembership` for Name) describe instances the package as written cannot create.
- Constructors.PretrainedModelCall: it models an `__init__` that Python never runs, because PretrainedModel is abstract.
- Classes.Bounds: `Name`'s bound `NamedServerType()` is a value here. Only `Engine.Construct` raises for it; formatting the bare class `Name`, which computes the same bound, is modelled as if the bound existed.
- Finite.JobOutputSchemaEnumeratesPks: it rests on the reading of the SyntaxError at `standard/_JobOutput.py:31-34` given above.
- Finite.JobOutputSchemaRejectsRecordRows: it rests on the same reading of `standard/_JobOutput.py:31-34`.
- Text.Lower: ASCII only. Python's `lower()` also lowers non-ASCII letters and can lengthen text (`"İ"` becomes two characters), which contradicts the length this contract keeps.
- Text.IsIdentifier: ASCII only. Python's `isidentifier()` also accepts non-ASCII letters (`"é"`).
- Text.ParseInt: ASCII digits only. Python's `int()` also reads other Unicode decimal digits (`"٣"` is 3).
- Servers.DomainRules: the lower-cased name is the ASCII `Text.Lower`, so non-ASCII domain names are not lowered as Python would.
- Registry.BuildReverseOutcome: the identifier test is the ASCII `Text.IsIdentifier`, so names such as `"é"` that Python accepts are rejected here.
- Grammar.NotIntText: it holds for ASCII text only. Text starting with another Unicode decimal digit is read by Python as an int.
- Text.Join: its own contract states only the one-part case. `Text.JoinAppend` and `Text.JoinLength` state the longer joins.
- Format.FormatArgs: its own contract states only the brackets. `Format.FormatArgsText` states the interior.
- Engine.StrArgs: its own contract states only the brackets. `Engine.StrArgsText` states the interior.
- Engine.StrAll: its own contract states only the count. `Engine.StrAllElements` and `Engine.StrAllFailure` state the contents.
- Grammar.ParseNamed: its own contract states only that the result is a class or an instance. `Grammar.NamedClassWithArguments` states the branch of a UFDL class with arguments.
- Grammar.Resolve: its own contract states only that the result is a class or an instance. `Grammar.ResolveBare`, `Grammar.ResolveBuiltinWithArguments` and `Grammar.ResolveClassWithArguments` state the branches.
- Grammar.ParseArgs: its own contract states only the count. `Grammar.ParseArgsPieces` states the contents.
- Grammar.ParseAll: its own contract states only the count. `Grammar.ParseAllPieces` states the contents.
- ValueSets.SetOf: Dafny's equality stands for Python's hash and `==`. So `Enumerable(1, True, 1.0)` keeps three values rather than one, and an unhashable value does not raise TypeError.
- Protocol.ArraySchema: a negative fixed size is reported as an invalid schema when the schema is built. In the package the schema is built without complaint, and jsonschema's `check_schema` rejects it only when a value is validated. No value gets through either way.
- Containers.ArraySchemaBounds: states the same build-time error for a negative size, with the same difference in timing.
