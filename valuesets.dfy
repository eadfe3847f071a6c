/**
 * The value-set classes: `Enumerable`, a finite set of values given at
 * construction, and `Single`, the enumerable set of exactly one value.
 * Neither ever changes its values after construction, so they are `const`.
 */
module ValueSets {

  /**
   * The distinct elements of a sequence: Python's `set(values)`, with Dafny's
   * equality on `T` standing for Python's hash and `==`.
   */
  function SetOf<T(!new)>(vs: seq<T>): (s: set<T>)
    ensures forall v :: v in s <==> v in vs
  {
    if |vs| == 0 then {} else SetOf(vs[..|vs| - 1]) + {vs[|vs| - 1]}
  }

  ghost predicate Distinct<T>(vs: seq<T>)
  {
    forall i, j :: 0 <= i < j < |vs| ==> vs[i] != vs[j]
  }

  /** A sequence extended by one value repeats nothing exactly when its front repeats nothing and lacks that value. */
  lemma DistinctSnoc<T>(vs: seq<T>)
    requires |vs| > 0
    ensures Distinct(vs) <==> Distinct(vs[..|vs| - 1]) && vs[|vs| - 1] !in vs[..|vs| - 1]
  {
    var init := vs[..|vs| - 1];
    if Distinct(init) && vs[|vs| - 1] !in init {
      forall i, j | 0 <= i < j < |vs|
        ensures vs[i] != vs[j]
      {
        assert vs[i] == init[i];
        if j < |vs| - 1 {
          assert vs[j] == init[j];
        }
      }
    }
  }

  /** Duplicates collapse: the set is never larger than the sequence, and as large exactly when no value repeats. */
  lemma {:induction false} SetOfSize<T(!new)>(vs: seq<T>)
    ensures |SetOf(vs)| <= |vs|
    ensures |SetOf(vs)| == |vs| <==> Distinct(vs)
  {
    if |vs| > 0 {
      var init := vs[..|vs| - 1];
      var last := vs[|vs| - 1];
      SetOfSize(init);
      DistinctSnoc(vs);
      if last in init {
        assert SetOf(vs) == SetOf(init);
      } else {
        assert last !in SetOf(init);
        assert |SetOf(vs)| == |SetOf(init)| + 1;
      }
    }
  }

  /** `Enumerable(*values)`. */
  class Enumerable<T(==, !new)> {
    const values: set<T>

    constructor(vs: seq<T>)
      ensures values == SetOf(vs)
    {
      values := SetOf(vs);
    }

    /** `test(v)`: whether `v` was among the constructor's values. */
    predicate Test(v: T)
    {
      v in values
    }

    /** `enumerate()`: a copy of the values (a set is a value here, so the copy is implicit). */
    method Enumerate() returns (s: set<T>)
      ensures s == values
      ensures forall v :: v in s <==> Test(v)
    {
      s := values;
    }

    /** `size()`. */
    function Size(): nat
    {
      |values|
    }
  }

  /** What the constructor promises about `test` and `size` for the values it was given. */
  method EnumerableOf<T(==, !new)>(vs: seq<T>) returns (e: Enumerable<T>)
    ensures forall v :: e.Test(v) <==> v in vs
    ensures e.Size() <= |vs|
    ensures e.Size() == |vs| <==> Distinct(vs)
  {
    e := new Enumerable(vs);
    SetOfSize(vs);
  }

  /** `Single(value)`: the enumerable set holding only `value`. */
  class Single<T(==, !new)> {
    const value: T
    const elements: Enumerable<T>

    predicate Valid()
    {
      elements.values == {value}
    }

    constructor(v: T)
      ensures value == v && Valid()
    {
      value := v;
      elements := new Enumerable([v]);
    }

    predicate Test(x: T)
      requires Valid()
      ensures Test(x) <==> x == value
    {
      elements.Test(x)
    }

    method Enumerate() returns (s: set<T>)
      requires Valid()
      ensures s == {value}
    {
      s := elements.Enumerate();
    }

    function Size(): (n: nat)
      requires Valid()
      ensures n == 1
    {
      elements.Size()
    }
  }
}
