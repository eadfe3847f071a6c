/**
 * The process-wide registry: the name/type-class mappings and the three backend
 * functions (list, retrieve, download), with `initialise_server` installing them.
 */
module Registry {
  import opened Wrappers
  import opened Json
  import opened Errors
  import opened Classes
  import Text

  /** An exact-match filter expression on one field of a server row. */
  datatype Rule = Exact(field: string, value: Value)

  /** A value in a filter-rule dict: a plain JSON value, or a type argument object. */
  datatype FilterValue = Plain(v: Value) | TypeObject(t: TypeArg)

  /** Filter rules: a field-to-value dict, or a list of filter expressions. */
  datatype Filters = RuleDict(entries: seq<(string, FilterValue)>) | RuleList(rules: seq<Rule>)

  datatype Backend = Backend(
    list: (string, Filters) -> Res<seq<Value>>,
    retrieve: (string, int) -> Res<Value>,
    download: (string, int) -> Res<seq<byte>>)

  /** The functions installed before initialisation. */
  function StubBackend(): (b: Backend)
    ensures forall table, filters :: b.list(table, filters) == Err(NotInitialised)
    ensures forall table, pk :: b.retrieve(table, pk) == Err(NotInitialised)
    ensures forall table, pk :: b.download(table, pk) == Err(NotInitialised)
  {
    Backend((t, f) => Err(NotInitialised), (t, pk) => Err(NotInitialised), (t, pk) => Err(NotInitialised))
  }

  /** `NAME_TO_TYPE_MAP` and `TYPE_TO_NAME_MAP`; `None` until initialisation. */
  datatype Tables = Tables(nameToType: Option<map<string, TypeObj>>, typeToName: Option<map<TypeObj, string>>)

  /** `name_type_translate` given a name. */
  function TranslateName(tb: Tables, name: string): Res<Option<TypeObj>>
  {
    match tb.nameToType
    case None => Err(NotInitialised)
    case Some(m) => Ok(if name in m then Some(m[name]) else None)
  }

  /** `name_type_translate` given a type class. */
  function TranslateType(tb: Tables, t: TypeObj): Res<Option<string>>
  {
    match tb.typeToName
    case None => Err(NotInitialised)
    case Some(m) => Ok(if t in m then Some(m[t]) else None)
  }

  /** The caller's dict, given as its items in iteration order. */
  predicate DistinctNames(pairs: seq<(string, TypeObj)>)
  {
    forall i, j :: 0 <= i < j < |pairs| ==> pairs[i].0 != pairs[j].0
  }

  /** `dict(pairs)`. */
  function MapOf(pairs: seq<(string, TypeObj)>): (m: map<string, TypeObj>)
    ensures forall n :: n in m <==> exists i :: 0 <= i < |pairs| && pairs[i].0 == n
    ensures DistinctNames(pairs) ==> forall i :: 0 <= i < |pairs| ==> m[pairs[i].0] == pairs[i].1
  {
    if |pairs| == 0 then map[]
    else
      var init := pairs[..|pairs| - 1];
      var last := pairs[|pairs| - 1];
      assert forall i :: 0 <= i < |init| ==> init[i] == pairs[i];
      MapOf(init)[last.0 := last.1]
  }

  /**
   * The validating loop that fills the reverse map: the outcome and the map as
   * it stands when the loop ends or raises.
   */
  function BuildReverse(pairs: seq<(string, TypeObj)>, acc: map<TypeObj, string>): (Res<()>, map<TypeObj, string>)
  {
    if |pairs| == 0 then (Ok(()), acc)
    else if !Text.IsIdentifier(pairs[0].0) then (Err(ValueError), acc)
    else if pairs[0].1 in acc then (Err(ValueError), acc)
    else BuildReverse(pairs[1..], acc[pairs[0].1 := pairs[0].0])
  }

  predicate DistinctTypes(pairs: seq<(string, TypeObj)>)
  {
    forall i, j :: 0 <= i < j < |pairs| ==> pairs[i].1 != pairs[j].1
  }

  predicate AllIdentifiers(pairs: seq<(string, TypeObj)>)
  {
    forall i :: 0 <= i < |pairs| ==> Text.IsIdentifier(pairs[i].0)
  }

  /**
   * Initialisation succeeds exactly when every name is an identifier and no type
   * class has two names; it then maps each type class to its name and nothing else.
   */
  lemma {:induction false} BuildReverseOutcome(pairs: seq<(string, TypeObj)>, acc: map<TypeObj, string>)
    requires forall i :: 0 <= i < |pairs| ==> pairs[i].1 !in acc
    ensures BuildReverse(pairs, acc).0.Ok? <==> AllIdentifiers(pairs) && DistinctTypes(pairs)
    ensures BuildReverse(pairs, acc).0.Ok? ==>
      var m := BuildReverse(pairs, acc).1;
      && (forall i :: 0 <= i < |pairs| ==> pairs[i].1 in m && m[pairs[i].1] == pairs[i].0)
      && (forall t :: t in m <==> t in acc || exists i :: 0 <= i < |pairs| && pairs[i].1 == t)
      && (forall t :: t in acc ==> t in m && m[t] == acc[t])
  {
    if |pairs| > 0 {
      var rest := pairs[1..];
      assert forall i :: 0 < i < |pairs| ==> pairs[i] == rest[i - 1];
      if !Text.IsIdentifier(pairs[0].0) {
        assert !AllIdentifiers(pairs);
      } else if pairs[0].1 in acc {
        assert false;
      } else {
        var acc' := acc[pairs[0].1 := pairs[0].0];
        if forall i :: 0 <= i < |rest| ==> rest[i].1 !in acc' {
          BuildReverseOutcome(rest, acc');
          if AllIdentifiers(pairs) && DistinctTypes(pairs) {
            assert AllIdentifiers(rest) && DistinctTypes(rest);
          }
          if BuildReverse(pairs, acc).0.Ok? {
            assert AllIdentifiers(rest) && DistinctTypes(rest);
            forall i, j | 0 <= i < j < |pairs| ensures pairs[i].1 != pairs[j].1 {
              if i > 0 {
                assert rest[i - 1].1 != rest[j - 1].1;
              }
            }
          }
        } else {
          var k :| 0 <= k < |rest| && rest[k].1 in acc';
          assert rest[k].1 == pairs[0].1;
          assert pairs[k + 1].1 == pairs[0].1;
          assert !DistinctTypes(pairs);
          BuildReverseStopsAt(rest, acc', k);
        }
      }
    }
  }

  /** A type class already in the map makes the loop raise at or before its pair. */
  lemma {:induction false} BuildReverseStopsAt(pairs: seq<(string, TypeObj)>, acc: map<TypeObj, string>, k: nat)
    requires k < |pairs| && pairs[k].1 in acc
    ensures BuildReverse(pairs, acc).0.Err?
  {
    if Text.IsIdentifier(pairs[0].0) && pairs[0].1 !in acc {
      BuildReverseStopsAt(pairs[1..], acc[pairs[0].1 := pairs[0].0], k - 1);
    }
  }

  /** After a successful initialisation each name and its type class translate to each other. */
  lemma TranslationAfterInit(pairs: seq<(string, TypeObj)>)
    requires DistinctNames(pairs)
    requires BuildReverse(pairs, map[]).0.Ok?
    ensures var tb := Tables(Some(MapOf(pairs)), Some(BuildReverse(pairs, map[]).1));
      && (forall i :: 0 <= i < |pairs| ==>
            TranslateName(tb, pairs[i].0) == Ok(Some(pairs[i].1)) && TranslateType(tb, pairs[i].1) == Ok(Some(pairs[i].0)))
      && (forall n :: (forall i :: 0 <= i < |pairs| ==> pairs[i].0 != n) ==> TranslateName(tb, n) == Ok(None))
      && (forall t :: (forall i :: 0 <= i < |pairs| ==> pairs[i].1 != t) ==> TranslateType(tb, t) == Ok(None))
  {
    var m := BuildReverse(pairs, map[]).1;
    var tb := Tables(Some(MapOf(pairs)), Some(m));
    NamesTranslate(pairs, tb);
    TypesTranslate(pairs, tb);
  }

  /** With `dict(pairs)` as the forward map, each name translates to its type class and no other name translates. */
  lemma NamesTranslate(pairs: seq<(string, TypeObj)>, tb: Tables)
    requires DistinctNames(pairs) && tb.nameToType == Some(MapOf(pairs))
    ensures forall i :: 0 <= i < |pairs| ==> TranslateName(tb, pairs[i].0) == Ok(Some(pairs[i].1))
    ensures forall n :: (forall i :: 0 <= i < |pairs| ==> pairs[i].0 != n) ==> TranslateName(tb, n) == Ok(None)
  {
    forall n | (forall i :: 0 <= i < |pairs| ==> pairs[i].0 != n)
      ensures TranslateName(tb, n) == Ok(None)
    {
      assert n !in MapOf(pairs);
    }
  }

  /** The reverse map a successful loop builds translates each pair's type class back to its name, and nothing else. */
  lemma TypesTranslate(pairs: seq<(string, TypeObj)>, tb: Tables)
    requires BuildReverse(pairs, map[]).0.Ok? && tb.typeToName == Some(BuildReverse(pairs, map[]).1)
    ensures forall i :: 0 <= i < |pairs| ==> TranslateType(tb, pairs[i].1) == Ok(Some(pairs[i].0))
    ensures forall t :: (forall i :: 0 <= i < |pairs| ==> pairs[i].1 != t) ==> TranslateType(tb, t) == Ok(None)
  {
    BuildReverseOutcome(pairs, map[]);
  }

  /** The registry's state: the installed backend and the two mappings. */
  class Registry {
    var backend: Backend
    var tables: Tables

    /** The uninitialised registry. */
    constructor()
      ensures backend == StubBackend() && tables == Tables(None, None)
    {
      backend := StubBackend();
      tables := Tables(None, None);
    }

    /**
     * `initialise_server`: the backend and the name map are replaced first, then the
     * reverse map is filled pair by pair and may be left partial when a pair is rejected.
     */
    method InitialiseServer(b: Backend, pairs: seq<(string, TypeObj)>) returns (r: Res<()>)
      requires DistinctNames(pairs)
      modifies this
      ensures backend == b
      ensures tables.nameToType == Some(MapOf(pairs))
      ensures tables.typeToName.Some? && (r, tables.typeToName.value) == BuildReverse(pairs, map[])
    {
      backend := b;
      var reverse: map<TypeObj, string> := map[];
      tables := Tables(Some(MapOf(pairs)), Some(reverse));
      var i := 0;
      while i < |pairs|
        invariant 0 <= i <= |pairs|
        invariant backend == b && tables == Tables(Some(MapOf(pairs)), Some(reverse))
        invariant BuildReverse(pairs[i..], reverse) == BuildReverse(pairs, map[])
      {
        var (name, t) := pairs[i];
        assert pairs[i..][1..] == pairs[i + 1..];
        if !Text.IsIdentifier(name) {
          return Err(ValueError);
        }
        if t in reverse {
          return Err(ValueError);
        }
        reverse := reverse[t := name];
        tables := tables.(typeToName := Some(reverse));
        i := i + 1;
      }
      return Ok(());
    }

    function NameTypeTranslateName(name: string): Res<Option<TypeObj>>
      reads this
    {
      TranslateName(tables, name)
    }

    function NameTypeTranslateType(t: TypeObj): Res<Option<string>>
      reads this
    {
      TranslateType(tables, t)
    }

    /** `list_function`, `retrieve_function`, `download_function`: forwarded unchanged. */
    function ListFunction(table: string, filters: Filters): Res<seq<Value>>
      reads this
    {
      backend.list(table, filters)
    }

    function RetrieveFunction(table: string, pk: int): Res<Value>
      reads this
    {
      backend.retrieve(table, pk)
    }

    function DownloadFunction(table: string, pk: int): Res<seq<byte>>
      reads this
    {
      backend.download(table, pk)
    }
  }

  /** Before initialisation every translation and every backend call raises NotInitialised. */
  method UninitialisedRegistryRaises(name: string, t: TypeObj, table: string, filters: Filters, pk: int)
    returns (r: Registry)
    ensures r.NameTypeTranslateName(name) == Err(NotInitialised)
    ensures r.NameTypeTranslateType(t) == Err(NotInitialised)
    ensures r.ListFunction(table, filters) == Err(NotInitialised)
    ensures r.RetrieveFunction(table, pk) == Err(NotInitialised)
    ensures r.DownloadFunction(table, pk) == Err(NotInitialised)
  {
    r := new Registry();
  }
}
