/**
 * The counting heuristics over a list of predicates. A `Counter` maps each
 * distinct predicate to how often it occurs;
 * `h_max` is the largest count and `h_add` the sum of the counts. `h_null`
 * ignores its argument.
 */
module Heuristic {
  import opened Results

  /** `h_null`: the trivial estimate, zero whatever the predicates. */
  function HNull<T>(predicates: seq<T>): (r: nat)
    ensures r == 0
  {
    0
  }

  /** How often `x` occurs in `xs`. */
  function Count<T(==,!new)>(xs: seq<T>, x: T): nat
  {
    multiset(xs)[x]
  }

  /** The keys of `Counter(xs)`: the distinct elements of `xs`, each once. */
  function Keys<T(==,!new)>(xs: seq<T>): (r: seq<T>)
    ensures forall x :: x in r <==> x in xs
    ensures forall i, j :: 0 <= i < j < |r| ==> r[i] != r[j]
    ensures |r| <= |xs|
  {
    if xs == [] then []
    else
      var init, last := xs[..|xs| - 1], xs[|xs| - 1];
      assert forall x :: x in xs <==> x in init || x == last;
      Keys(init) + (if last in init then [] else [last])
  }

  /** The values of `Counter(xs)`: the `i`-th is the count of the `i`-th key. */
  function Counts<T(==,!new)>(xs: seq<T>): (r: seq<nat>)
    ensures |r| == |Keys(xs)|
    ensures forall i :: 0 <= i < |r| ==> r[i] == Count(xs, Keys(xs)[i])
  {
    var keys := Keys(xs);
    seq(|keys|, i requires 0 <= i < |keys| => Count(xs, keys[i]))
  }

  function Sum(values: seq<nat>): nat
  {
    if values == [] then 0 else Sum(values[..|values| - 1]) + values[|values| - 1]
  }

  /** The largest of a non-empty list of values. */
  function Max(values: seq<nat>): (r: nat)
    requires values != []
    ensures forall i :: 0 <= i < |values| ==> values[i] <= r
    ensures exists i :: 0 <= i < |values| && values[i] == r
  {
    if |values| == 1 then values[0]
    else
      var m := Max(values[..|values| - 1]);
      var last := values[|values| - 1];
      assert forall i :: 0 <= i < |values| - 1 ==> values[..|values| - 1][i] == values[i];
      if last > m then last else m
  }

  /** `h_max`: the count of the most frequent predicate; `max` of no values fails. */
  function HMax<T(==,!new)>(predicates: seq<T>): (r: Option<nat>)
    ensures r.None? <==> predicates == []
    ensures r.Some? ==> forall x :: Count(predicates, x) <= r.value
    ensures r.Some? ==> exists x :: x in predicates && Count(predicates, x) == r.value
  {
    if predicates == [] then None
    else
      MaxCount(predicates);
      Some(Max(Counts(predicates)))
  }

  /** The largest value of a non-empty `Counter` is the count of its most frequent element. */
  lemma MaxCount<T(!new)>(predicates: seq<T>)
    requires predicates != []
    ensures Counts(predicates) != []
    ensures forall x :: Count(predicates, x) <= Max(Counts(predicates))
    ensures exists x :: x in predicates && Count(predicates, x) == Max(Counts(predicates))
  {
    var keys, counts := Keys(predicates), Counts(predicates);
    assert predicates[0] in keys;
    var m := Max(counts);
    var i :| 0 <= i < |counts| && counts[i] == m;
    assert keys[i] in predicates;
    forall x
      ensures Count(predicates, x) <= m
    {
      if x in predicates {
        var j :| 0 <= j < |keys| && keys[j] == x;
        assert counts[j] == Count(predicates, x);
      }
    }
  }

  /** `h_add`: the sum of the counts of the predicates, which is their number. */
  function HAdd<T(==,!new)>(predicates: seq<T>): (r: nat)
    ensures r == |predicates|
  {
    CountsSum(predicates);
    Sum(Counts(predicates))
  }

  /** The names under which the planner can select a counting heuristic. */
  datatype Kind = MaxKind | AddKind

  /** `TYPES[name]`; an unknown name is a missing key. */
  function Lookup(name: string): (r: Option<Kind>)
    ensures r == Some(MaxKind) <==> name == "max"
    ensures r == Some(AddKind) <==> name == "add"
    ensures r.None? <==> name != "max" && name != "add"
  {
    if name == "max" then Some(MaxKind)
    else if name == "add" then Some(AddKind)
    else None
  }

  /** The heuristic a kind selects, applied to a list of predicates. */
  function Evaluate<T(==,!new)>(kind: Kind, predicates: seq<T>): (r: Option<nat>)
    ensures r.None? <==> kind == MaxKind && predicates == []
    ensures kind == AddKind ==> r == Some(|predicates|)
  {
    match kind
    case MaxKind => HMax(predicates)
    case AddKind => Some(HAdd(predicates))
  }

  // ---------------------------------------------------------------------------
  // Properties
  // ---------------------------------------------------------------------------

  lemma {:induction false} SumAppend(xs: seq<nat>, ys: seq<nat>)
    ensures Sum(xs + ys) == Sum(xs) + Sum(ys)
  {
    if ys == [] {
      assert xs + ys == xs;
    } else {
      assert (xs + ys)[..|xs + ys| - 1] == xs + ys[..|ys| - 1];
      SumAppend(xs, ys[..|ys| - 1]);
    }
  }

  /** Raising one value by one raises the sum by one. */
  lemma {:induction false} SumBump(xs: seq<nat>, ys: seq<nat>, k: nat)
    requires |xs| == |ys| && k < |xs|
    requires ys[k] == xs[k] + 1
    requires forall i :: 0 <= i < |xs| && i != k ==> ys[i] == xs[i]
    ensures Sum(ys) == Sum(xs) + 1
  {
    var n := |xs| - 1;
    if k < n {
      SumBump(xs[..n], ys[..n], k);
    } else {
      assert xs[..n] == ys[..n];
    }
  }

  /** The counts of `xs + [x]`, given those of `xs`. */
  lemma CountsAppend<T(!new)>(xs: seq<T>, x: T)
    ensures x in xs ==> Keys(xs + [x]) == Keys(xs)
    ensures x !in xs ==> Keys(xs + [x]) == Keys(xs) + [x]
    ensures forall y :: y != x ==> Count(xs + [x], y) == Count(xs, y)
    ensures Count(xs + [x], x) == Count(xs, x) + 1
  {
    assert (xs + [x])[..|xs|] == xs;
  }

  /** The counts of a `Counter` add up to the length of the list it counts. */
  lemma {:induction false} CountsSum<T(!new)>(predicates: seq<T>)
    ensures Sum(Counts(predicates)) == |predicates|
  {
    if predicates != [] {
      var xs, x := predicates[..|predicates| - 1], predicates[|predicates| - 1];
      assert predicates == xs + [x];
      CountsSum(xs);
      CountsAppend(xs, x);
      var before, after := Counts(xs), Counts(predicates);
      if x in xs {
        var k :| 0 <= k < |Keys(xs)| && Keys(xs)[k] == x;
        SumBump(before, after, k);
      } else {
        assert after == before + [1];
        SumAppend(before, [1]);
        assert Sum([1]) == Sum([]) + 1;
      }
    }
  }

  /** A non-empty list has `1 <= h_max <= h_add`, and `h_null` is below both. */
  lemma HeuristicsOrdered<T(!new)>(predicates: seq<T>)
    requires predicates != []
    ensures HMax(predicates).Some?
    ensures HNull(predicates) < HMax(predicates).value <= HAdd(predicates)
  {
    var m := HMax(predicates).value;
    var x :| x in predicates && Count(predicates, x) == m;
    assert multiset(predicates)[x] <= |multiset(predicates)|;
    assert predicates[0] in multiset(predicates);
  }
}
