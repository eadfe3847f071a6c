/**
 * Python values exchanged by the type system (JSON elements plus the few other
 * Python objects the core passes around: tuples, bytes, byte streams and record
 * objects), and a small JSON-Schema language with its validation predicate.
 */
module Json {
  import opened Wrappers

  newtype byte = b: int | 0 <= b < 256

  /** The record classes built on wai.json's StrictJSONObject. */
  datatype RecordKind = CUDAVersionInstance | HardwareInstance

  datatype Value =
    | Null
    | Bool(b: bool)
    | Int(i: int)
    | Float(f: real)
    | Str(s: string)
    | Bytes(data: seq<byte>)
    | Stream(content: seq<byte>)                 // a BufferedIOBase over these bytes
    | List(items: seq<Value>)
    | Tuple(elems: seq<Value>)
    | Dict(entries: seq<Entry>)                  // in insertion order
    | Record(kind: RecordKind, raw: Value)      // a record object and its raw JSON

  datatype Entry = Entry(key: Value, val: Value)

  /** The value stored under `key` in a dict (its first entry with that key). */
  function Lookup(entries: seq<Entry>, key: Value): (r: Option<Value>)
    ensures r.Some? <==> exists i :: 0 <= i < |entries| && entries[i].key == key
    ensures r.Some? ==> exists i :: 0 <= i < |entries| && entries[i] == Entry(key, r.value)
  {
    if |entries| == 0 then None
    else if entries[0].key == key then Some(entries[0].val)
    else
      var r := Lookup(entries[1..], key);
      assert forall i :: 0 < i < |entries| ==> entries[i] == entries[1..][i - 1];
      r
  }

  /** The keys of a dict, in insertion order. */
  function Keys(entries: seq<Entry>): (ks: seq<Value>)
    ensures |ks| == |entries|
    ensures forall i :: 0 <= i < |entries| ==> ks[i] == entries[i].key
  {
    if |entries| == 0 then [] else [entries[0].key] + Keys(entries[1..])
  }

  datatype Property = Property(name: string, schema: Schema)

  /** The JSON-Schema shapes the core builds (wai.json.schema helpers). */
  datatype Schema =
    | AnyS                                       // the boolean schema `true`
    | FalseS                                     // the boolean schema `false`
    | ConstS(c: Value)
    | EnumS(options: seq<Value>)
    | StringS(maxLength: Option<nat>)
    | NumberS(integerOnly: bool, minimum: Option<int>)
    | BoolS
    | NullS
    | ArrayS(items: Schema, minItems: Option<nat>, maxItems: Option<nat>)
    | ObjectS(properties: seq<Property>, required: seq<string>, additional: Schema)
    | AnyOfS(alternatives: seq<Schema>)

  predicate IsIntegral(f: real) { f.Floor as real == f }

  /**
   * The equality jsonschema uses for `const` and `enum`: numbers compare by
   * value whether int or float, booleans equal only booleans, lists compare
   * item by item, and dicts of one size compare key by key. Other objects
   * compare as Python's `==` does on them.
   */
  predicate JsonEqual(a: Value, b: Value)
    decreases a
  {
    match a
    case Int(i) => (b.Int? && b.i == i) || (b.Float? && b.f == i as real)
    case Float(f) => (b.Float? && b.f == f) || (b.Int? && b.i as real == f)
    case List(xs) =>
      b.List? && |xs| == |b.items| && forall k :: 0 <= k < |xs| ==> JsonEqual(xs[k], b.items[k])
    case Dict(es) =>
      && b.Dict? && |es| == |b.entries|
      && forall k :: 0 <= k < |es| ==>
           Lookup(b.entries, es[k].key).Some? && JsonEqual(es[k].val, Lookup(b.entries, es[k].key).value)
    case _ => a == b
  }

  /** A value a Python program can hold: every dict, however deep, has each key once. */
  predicate Canonical(v: Value)
    decreases v
  {
    match v
    case List(xs) => forall k :: 0 <= k < |xs| ==> Canonical(xs[k])
    case Tuple(xs) => forall k :: 0 <= k < |xs| ==> Canonical(xs[k])
    case Dict(es) =>
      && (forall i, j :: 0 <= i < j < |es| ==> es[i].key != es[j].key)
      && forall k :: 0 <= k < |es| ==> Canonical(es[k].val)
    case Record(_, raw) => Canonical(raw)
    case _ => true
  }

  /** Every value a program can hold equals itself. */
  lemma {:induction false} JsonEqualReflexive(a: Value)
    requires Canonical(a)
    ensures JsonEqual(a, a)
    decreases a
  {
    match a
    case List(xs) =>
      forall k | 0 <= k < |xs| ensures JsonEqual(xs[k], xs[k]) {
        JsonEqualReflexive(xs[k]);
      }
    case Dict(es) =>
      forall k | 0 <= k < |es| ensures Lookup(es, es[k].key) == Some(es[k].val) && JsonEqual(es[k].val, es[k].val) {
        LookupDistinct(es, k);
        JsonEqualReflexive(es[k].val);
      }
    case _ =>
  }

  /** In a dict whose keys are distinct, looking up a key finds its entry. */
  lemma {:induction false} LookupDistinct(es: seq<Entry>, k: nat)
    requires k < |es|
    requires forall i, j :: 0 <= i < j < |es| ==> es[i].key != es[j].key
    ensures Lookup(es, es[k].key) == Some(es[k].val)
  {
    if k > 0 {
      assert es[0].key != es[k].key;
      LookupDistinct(es[1..], k - 1);
    }
  }

  /** For values other than numbers, lists and dicts the equality is Python's `==`. */
  lemma ScalarJsonEqual(a: Value, b: Value)
    requires !a.Int? && !a.Float? && !a.List? && !a.Dict?
    ensures JsonEqual(a, b) <==> a == b
  {
  }

  /** An int equals the float of the same value, while a bool equals no number. */
  lemma NumbersCompareByValue(i: int, x: bool)
    ensures JsonEqual(Int(i), Float(i as real)) && JsonEqual(Float(i as real), Int(i))
    ensures !JsonEqual(Bool(x), Int(i)) && !JsonEqual(Int(i), Bool(x))
    ensures !JsonEqual(Bool(x), Float(i as real)) && !JsonEqual(Float(i as real), Bool(x))
  {
  }

  /**
   * Validation as JSON Schema defines it: integers are numbers (a float with an
   * integral value counts as an integer), booleans are not numbers, only lists are
   * arrays and only dicts are objects, and `const` and `enum` compare by `JsonEqual`.
   */
  predicate Validates(s: Schema, v: Value)
    decreases s
  {
    match s
    case AnyS => true
    case FalseS => false
    case ConstS(c) => JsonEqual(v, c)
    case EnumS(options) => exists k :: 0 <= k < |options| && JsonEqual(v, options[k])
    case StringS(maxLength) =>
      v.Str? && (maxLength.None? || |v.s| <= maxLength.value)
    case NumberS(integerOnly, minimum) =>
      (v.Int? || (v.Float? && (!integerOnly || IsIntegral(v.f))))
      && (minimum.Some? ==> (if v.Int? then v.i >= minimum.value else v.Float? && v.f >= minimum.value as real))
    case BoolS => v.Bool?
    case NullS => v.Null?
    case ArrayS(items, minItems, maxItems) =>
      && v.List?
      && (minItems.Some? ==> |v.items| >= minItems.value)
      && (maxItems.Some? ==> |v.items| <= maxItems.value)
      && forall i :: 0 <= i < |v.items| ==> Validates(items, v.items[i])
    case ObjectS(properties, required, additional) =>
      && v.Dict?
      && (forall n :: n in required ==> Lookup(v.entries, Str(n)).Some?)
      && (forall i, j :: 0 <= i < |v.entries| && 0 <= j < |properties| && v.entries[i].key == Str(properties[j].name)
            ==> Validates(properties[j].schema, v.entries[i].val))
      && (forall i :: 0 <= i < |v.entries| && (forall j :: 0 <= j < |properties| ==> v.entries[i].key != Str(properties[j].name))
            ==> Validates(additional, v.entries[i].val))
    case AnyOfS(alternatives) =>
      exists j :: 0 <= j < |alternatives| && Validates(alternatives[j], v)
  }
}
