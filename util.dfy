/**
 * Containers and set helpers of planning/util.py: the three frontier
 * disciplines (a LIFO stack, a FIFO queue and a priority queue with
 * decrease-key), `frozenset_of_tuples` and `reduced_powerset`.
 */
module Util {
  import opened Results

  // ---------------------------------------------------------------------------
  // Sets of tuples
  // ---------------------------------------------------------------------------

  /**
   * `frozenset_of_tuples`: the set of the items of `data`. Items are already
   * sequences here, so `tuple(item)` is the item itself.
   */
  function FrozensetOfTuples<T(==,!new)>(data: seq<seq<T>>): (r: set<seq<T>>)
    ensures forall x :: x in r <==> x in data
    ensures |r| <= |data|
  {
    if data == [] then {}
    else FrozensetOfTuples(data[..|data| - 1]) + {data[|data| - 1]}
  }

  /** Duplicates collapse: adding an item that is already present changes nothing. */
  lemma FrozensetOfTuplesDuplicate<T(!new)>(data: seq<seq<T>>, x: seq<T>)
    requires x in data
    ensures FrozensetOfTuples(data + [x]) == FrozensetOfTuples(data)
    ensures |FrozensetOfTuples(data + [x])| < |data + [x]|
  {
    assert (data + [x])[..|data|] == data;
  }

  /** The order of the items does not matter. */
  lemma FrozensetOfTuplesSwap<T(!new)>(xs: seq<seq<T>>, ys: seq<seq<T>>)
    ensures FrozensetOfTuples(xs + ys) == FrozensetOfTuples(ys + xs)
  {
    assert forall x :: x in xs + ys <==> x in ys + xs;
  }

  lemma SubsetCardinality<T>(s: set<T>, t: set<T>)
    requires s <= t
    ensures |s| <= |t|
  {
    assert t == s + (t - s);
  }

  /** Every subset of `u`. */
  function Subsets<T>(u: set<T>): set<set<T>>
  {
    set s | s <= u
  }

  /**
   * `reduced_powerset`: the non-empty proper subsets of `u` (the source of
   * this helper is not part of the repository's util.py; its behaviour is the
   * one tests/test_util.py demands).
   */
  function ReducedPowerset<T>(u: set<T>): (r: set<set<T>>)
    ensures r <= Subsets(u)
    ensures {} !in r && u !in r
  {
    set s | s <= u && s != {} && s != u
  }

  /** Membership in the reduced powerset, both directions. */
  lemma ReducedPowersetMember<T>(u: set<T>, s: set<T>)
    ensures s in ReducedPowerset(u) <==> s <= u && s != {} && s != u
  {
  }

  /** `reduced_powerset([])` is empty. */
  lemma ReducedPowersetOfEmpty<T>()
    ensures ReducedPowerset<T>({}) == {}
  {
    forall s: set<T> | s <= {}
      ensures s == {}
    {
    }
  }

  /** A one-element set has no non-empty proper subset. */
  lemma ReducedPowersetOfSingleton<T>(x: T)
    ensures ReducedPowerset({x}) == {}
  {
    forall s | s <= {x}
      ensures s == {} || s == {x}
    {
      if x in s {
        assert s == {x};
      }
    }
  }

  /** `reduced_powerset([1, 2, 3])` holds exactly the six subsets of tests/test_util.py. */
  lemma ReducedPowersetOfThree()
    ensures ReducedPowerset({1, 2, 3}) == {{1}, {2}, {3}, {1, 2}, {1, 3}, {2, 3}}
  {
    var expected: set<set<int>> := {{1}, {2}, {3}, {1, 2}, {1, 3}, {2, 3}};
    forall s | s in ReducedPowerset({1, 2, 3})
      ensures s in expected
    {
      assert s <= {1, 2, 3};
      if 1 in s {
        if 2 in s {
          assert 3 !in s;
          assert s == {1, 2};
        } else if 3 in s {
          assert s == {1, 3};
        } else {
          assert s == {1};
        }
      } else if 2 in s {
        if 3 in s {
          assert s == {2, 3};
        } else {
          assert s == {2};
        }
      } else {
        var y :| y in s;
        assert s == {3};
      }
    }
    forall s | s in expected
      ensures s in ReducedPowerset({1, 2, 3})
    {
      ReducedPowersetMember({1, 2, 3}, s);
      if s == {1} { assert 2 !in s; }
      else if s == {2} { assert 1 !in s; }
      else if s == {3} { assert 1 !in s; }
      else if s == {1, 2} { assert 3 !in s; }
      else if s == {1, 3} { assert 2 !in s; }
      else { assert 1 !in s; }
    }
  }

  // ---------------------------------------------------------------------------
  // Sequence reversal (the deque of Queue holds its items newest first)
  // ---------------------------------------------------------------------------

  function Reverse<T>(s: seq<T>): (r: seq<T>)
    ensures |r| == |s|
  {
    if s == [] then [] else Reverse(s[1..]) + [s[0]]
  }

  lemma {:induction false} ReverseAt<T>(s: seq<T>, k: nat)
    requires k < |s|
    ensures Reverse(s)[k] == s[|s| - 1 - k]
  {
    if k < |s| - 1 {
      ReverseAt(s[1..], k);
    }
  }

  /** Prepending to the deque appends to the oldest-first view. */
  lemma ReversePrepend<T>(x: T, s: seq<T>)
    ensures Reverse([x] + s) == Reverse(s) + [x]
  {
    assert ([x] + s)[1..] == s;
  }

  /** Dropping the right end of the deque drops the oldest item of the view. */
  lemma {:induction false} ReverseDropLast<T>(s: seq<T>)
    requires s != []
    ensures Reverse(s[..|s| - 1]) == Reverse(s)[1..]
  {
    if |s| > 1 {
      var t := s[1..];
      assert s[..|s| - 1] == [s[0]] + t[..|t| - 1];
      ReversePrepend(s[0], t[..|t| - 1]);
      ReverseDropLast(t);
    }
  }

  // ---------------------------------------------------------------------------
  // Stack: a list used last-in-first-out
  // ---------------------------------------------------------------------------

  class Stack<T> {
    /** The list `_data`, oldest item first. */
    var data: seq<T>

    constructor ()
      ensures data == []
    {
      data := [];
    }

    /** `push`: `_data.append(item)`. */
    method Push(item: T)
      modifies this
      ensures data == old(data) + [item]
    {
      data := data + [item];
    }

    /**
     * `pop`: removes and returns the most recently pushed item that is still
     * held; popping an empty stack raises, which is `None` here.
     */
    method Pop() returns (r: Option<T>)
      modifies this
      ensures old(data) == [] ==> r == None && data == old(data)
      ensures old(data) != [] ==>
                r == Some(old(data)[|old(data)| - 1]) && data == old(data)[..|old(data)| - 1]
    {
      if data == [] {
        r := None;
      } else {
        r := Some(data[|data| - 1]);
        data := data[..|data| - 1];
      }
    }

    /** `is_empty`: the stack holds no item. */
    function IsEmpty(): (r: bool)
      reads this
      ensures r <==> data == []
    {
      |data| == 0
    }
  }

  // ---------------------------------------------------------------------------
  // Queue: a deque filled with appendleft and emptied from the right
  // ---------------------------------------------------------------------------

  class Queue<T> {
    /** The deque `_data`, left end first: the newest item is at index 0. */
    var data: seq<T>

    /** The items in the order they will leave: oldest first. */
    ghost function Contents(): seq<T>
      reads this
    {
      Reverse(data)
    }

    constructor ()
      ensures data == [] && Contents() == []
    {
      data := [];
    }

    /** `push`: `_data.appendleft(item)`; the item joins the back of the line. */
    method Push(item: T)
      modifies this
      ensures data == [item] + old(data)
      ensures Contents() == old(Contents()) + [item]
    {
      ReversePrepend(item, data);
      data := [item] + data;
    }

    /**
     * `pop`: `_data.pop()` takes the right end, which is the oldest item
     * still held; an empty deque raises, which is `None` here.
     */
    method Pop() returns (r: Option<T>)
      modifies this
      ensures old(data) == [] ==> r == None && data == old(data)
      ensures old(data) != [] ==>
                r == Some(old(Contents())[0]) && Contents() == old(Contents())[1..]
      ensures old(data) != [] ==> data == old(data)[..|old(data)| - 1]
    {
      if data == [] {
        r := None;
      } else {
        ReverseAt(data, 0);
        ReverseDropLast(data);
        r := Some(data[|data| - 1]);
        data := data[..|data| - 1];
      }
    }

    /** `is_empty`: no item is waiting. */
    function IsEmpty(): (r: bool)
      reads this
      ensures r <==> Contents() == []
    {
      |data| == 0
    }
  }

  // ---------------------------------------------------------------------------
  // PriorityQueue: entries (priority, count, item) ordered by priority, then count
  // ---------------------------------------------------------------------------

  /** A heap entry: the insertion counter breaks ties between equal priorities. */
  datatype Entry<T> = Entry(priority: int, count: nat, item: T)

  /** Entry `a` leaves the heap before entry `b`: tuple order on (priority, count). */
  predicate Before<T>(a: Entry<T>, b: Entry<T>)
  {
    a.priority < b.priority || (a.priority == b.priority && a.count < b.count)
  }

  /** The items of a list of entries, in list order. */
  function ItemsOf<T>(entries: seq<Entry<T>>): (r: seq<T>)
    ensures |r| == |entries|
    ensures forall i :: 0 <= i < |entries| ==> r[i] == entries[i].item
  {
    if entries == [] then []
    else ItemsOf(entries[..|entries| - 1]) + [entries[|entries| - 1].item]
  }

  /** The list with the element at index `k` removed. */
  function RemoveAt<T>(s: seq<T>, k: nat): (r: seq<T>)
    requires k < |s|
    ensures |r| == |s| - 1
    ensures multiset(r) + multiset{s[k]} == multiset(s)
    ensures forall i :: 0 <= i < k ==> r[i] == s[i]
    ensures forall i :: k <= i < |r| ==> r[i] == s[i + 1]
  {
    assert s == s[..k] + [s[k]] + s[k + 1..];
    s[..k] + s[k + 1..]
  }

  /** The index of the first entry that no other entry leaves before. */
  function MinIndex<T>(entries: seq<Entry<T>>): (k: nat)
    requires entries != []
    ensures k < |entries|
    ensures forall j :: 0 <= j < |entries| ==> !Before(entries[j], entries[k])
  {
    if |entries| == 1 then 0
    else
      var m := MinIndex(entries[..|entries| - 1]);
      if Before(entries[|entries| - 1], entries[m]) then |entries| - 1 else m
  }

  /** With distinct counters the minimum entry is unique. */
  lemma MinimumIsUnique<T>(entries: seq<Entry<T>>, k: nat)
    requires entries != [] && k < |entries|
    requires DistinctCounts(entries)
    requires forall j :: 0 <= j < |entries| ==> !Before(entries[j], entries[k])
    ensures k == MinIndex(entries)
  {
    var m := MinIndex(entries);
    assert !Before(entries[m], entries[k]) && !Before(entries[k], entries[m]);
  }

  /** No two entries share a counter value. */
  predicate DistinctCounts<T>(entries: seq<Entry<T>>)
  {
    forall i, j :: 0 <= i < j < |entries| ==> entries[i].count != entries[j].count
  }

  /** The index of the first entry holding `item`, or `|entries|` when there is none. */
  function FindItem<T(==)>(entries: seq<Entry<T>>, item: T): (k: nat)
    ensures k <= |entries|
    ensures k < |entries| ==> entries[k].item == item
    ensures forall i :: 0 <= i < k ==> entries[i].item != item
  {
    if entries == [] then 0
    else if entries[0].item == item then 0
    else 1 + FindItem(entries[1..], item)
  }

  /** The number of entries holding `item`. */
  function Occurrences<T(==)>(entries: seq<Entry<T>>, item: T): nat
  {
    multiset(ItemsOf(entries))[item]
  }

  /**
   * A decrease-key replaces an entry rather than duplicating it: the item is
   * held as often as before.
   */
  lemma {:induction false} ReplaceKeepsOccurrences<T>(entries: seq<Entry<T>>, k: nat, priority: int)
    requires k < |entries|
    ensures Occurrences(RemoveAt(entries, k) + [Entry(priority, entries[k].count, entries[k].item)], entries[k].item)
            == Occurrences(entries, entries[k].item)
  {
    var e := Entry(priority, entries[k].count, entries[k].item);
    var rest := RemoveAt(entries, k);
    ItemsOfAppend(rest, e);
    ItemsOfRemoveAt(entries, k);
  }

  lemma ItemsOfAppend<T>(entries: seq<Entry<T>>, e: Entry<T>)
    ensures ItemsOf(entries + [e]) == ItemsOf(entries) + [e.item]
  {
    assert (entries + [e])[..|entries|] == entries;
  }

  lemma ItemsOfRemoveAt<T>(entries: seq<Entry<T>>, k: nat)
    requires k < |entries|
    ensures multiset(ItemsOf(RemoveAt(entries, k))) + multiset{entries[k].item} == multiset(ItemsOf(entries))
  {
    var items := ItemsOf(entries);
    assert ItemsOf(RemoveAt(entries, k)) == RemoveAt(items, k);
  }

  class PriorityQueue<T(==)> {
    /** The heap list `_data`; its heap layout is not modelled, only its entries. */
    var data: seq<Entry<T>>
    /** `_count`: the counter handed to the next pushed entry. */
    var count: nat

    /** Every entry carries a counter already handed out, and no two share one. */
    ghost predicate Valid()
      reads this
    {
      && (forall i :: 0 <= i < |data| ==> data[i].count < count)
      && DistinctCounts(data)
    }

    /** The items waiting in the queue. */
    function Items(): (r: seq<T>)
      reads this
      ensures |r| == |data|
    {
      ItemsOf(data)
    }

    constructor ()
      ensures Valid() && data == [] && count == 0
    {
      data := [];
      count := 0;
    }

    /** `push`: adds the entry (priority, _count, item) and advances `_count` by one. */
    method Push(item: T, priority: int)
      requires Valid()
      modifies this
      ensures Valid()
      ensures data == old(data) + [Entry(priority, old(count), item)]
      ensures count == old(count) + 1
    {
      data := data + [Entry(priority, count, item)];
      count := count + 1;
    }

    /**
     * `pop`: removes and returns the item of the entry of least priority,
     * the earliest pushed among equal priorities; an empty heap raises,
     * which is `None` here.
     */
    method Pop() returns (r: Option<T>)
      requires Valid()
      modifies this
      ensures Valid() && count == old(count)
      ensures old(data) == [] ==> r == None && data == old(data)
      ensures old(data) != [] ==>
                && r == Some(old(data)[MinIndex(old(data))].item)
                && data == RemoveAt(old(data), MinIndex(old(data)))
    {
      if data == [] {
        return None;
      }
      var m := 0;
      var i := 1;
      while i < |data|
        invariant 1 <= i <= |data|
        invariant m == MinIndex(data[..i])
      {
        assert data[..i + 1][..i] == data[..i];
        if Before(data[i], data[m]) {
          m := i;
        }
        i := i + 1;
      }
      assert data[..i] == data;
      r := Some(data[m].item);
      data := RemoveAt(data, m);
    }

    /** `is_empty`: the heap holds no entry. */
    function IsEmpty(): (r: bool)
      reads this
      ensures r <==> Items() == []
    {
      |data| == 0
    }

    /**
     * `update`: scans for the first entry holding `item`. A present entry of
     * priority at most `priority` is kept as it is; a present entry of higher
     * priority is replaced by one of priority `priority` that keeps its
     * counter; an absent item is pushed.
     */
    method Update(item: T, priority: int)
      requires Valid()
      modifies this
      ensures Valid()
      ensures var k := FindItem(old(data), item);
              if k == |old(data)| then
                data == old(data) + [Entry(priority, old(count), item)] && count == old(count) + 1
              else if old(data)[k].priority <= priority then
                data == old(data) && count == old(count)
              else
                data == RemoveAt(old(data), k) + [Entry(priority, old(data)[k].count, item)]
                && count == old(count)
    {
      var index := 0;
      while index < |data|
        invariant 0 <= index <= |data|
        invariant forall i :: 0 <= i < index ==> data[i].item != item
      {
        if data[index].item == item {
          FindItemAt(data, item, index);
          if data[index].priority <= priority {
            return;
          }
          var c := data[index].count;
          data := RemoveAt(data, index) + [Entry(priority, c, item)];
          return;
        }
        index := index + 1;
      }
      FindItemAt(data, item, index);
      Push(item, priority);
    }
  }

  lemma FindItemAt<T>(entries: seq<Entry<T>>, item: T, k: nat)
    requires k <= |entries|
    requires k < |entries| ==> entries[k].item == item
    requires forall i :: 0 <= i < k ==> entries[i].item != item
    ensures FindItem(entries, item) == k
  {
  }
}
