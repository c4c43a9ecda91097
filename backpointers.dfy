/**
 * The fringe of the two standalone breadth-first planners (planner.py and
 * propositional_planner.py). The fringe is one flat list in which a state is
 * followed by the plan that reached it; a plan is `None` or a pair
 * `(act, plan)` of its last action and the plan before it.
 */
module Backpointers {
  /** A back-pointer chain: `None`, or the newest action with the chain before it. */
  datatype Chain<A> = Nil | Cons(act: A, rest: Chain<A>)

  /** The number of actions on a chain. */
  function Length<A>(c: Chain<A>): nat
  {
    match c
    case Nil => 0
    case Cons(_, rest) => Length(rest) + 1
  }

  /** The actions of a chain in the order they were taken: oldest first, the head of the chain last. */
  function ChainPlan<A>(c: Chain<A>): (r: seq<A>)
    ensures |r| == Length(c)
  {
    match c
    case Nil => []
    case Cons(a, rest) => ChainPlan(rest) + [a]
  }

  /** The chain that records the actions of `plan`, taken in order. */
  function ChainOf<A>(plan: seq<A>): (c: Chain<A>)
    ensures Length(c) == |plan|
  {
    if plan == [] then Nil else Cons(plan[|plan| - 1], ChainOf(plan[..|plan| - 1]))
  }

  /** Reading a chain as a plan and recording it again gives back the chain. */
  lemma {:induction false} ChainOfChainPlan<A>(c: Chain<A>)
    ensures ChainOf(ChainPlan(c)) == c
  {
    match c
    case Nil =>
    case Cons(a, rest) =>
      ChainOfChainPlan(rest);
      var plan := ChainPlan(rest) + [a];
      assert plan[..|plan| - 1] == ChainPlan(rest);
  }

  /** Recording a plan as a chain and reading it back gives back the plan. */
  lemma {:induction false} ChainPlanOfChainOf<A>(plan: seq<A>)
    ensures ChainPlan(ChainOf(plan)) == plan
  {
    if plan != [] {
      ChainPlanOfChainOf(plan[..|plan| - 1]);
      assert plan[..|plan| - 1] + [plan[|plan| - 1]] == plan;
    }
  }

  /**
   * The plan reconstruction of `solve`: start from `[act]` and insert each
   * action met down the chain at the front.
   */
  method ReconstructPlan<A>(act: A, plan: Chain<A>) returns (fullPlan: seq<A>)
    ensures fullPlan == ChainPlan(plan) + [act]
    ensures |fullPlan| == Length(plan) + 1
  {
    fullPlan := [act];
    var rest := plan;
    while rest.Cons?
      invariant ChainPlan(rest) + fullPlan == ChainPlan(plan) + [act]
      decreases rest
    {
      assert ChainPlan(rest) == ChainPlan(rest.rest) + [rest.act];
      fullPlan := [rest.act] + fullPlan;
      rest := rest.rest;
    }
  }

  /** An entry of the flat fringe: a state, or the plan that reached the state before it. */
  datatype FringeEntry<S, A> = StateEntry(state: S) | PlanEntry(plan: Chain<A>)

  /** The fringe alternates a state and its plan, so it has even length. */
  predicate Alternating<S, A>(fringe: seq<FringeEntry<S, A>>)
  {
    && |fringe| % 2 == 0
    && forall k :: 0 <= k < |fringe| ==> (fringe[k].StateEntry? <==> k % 2 == 0)
  }

  /** The states waiting in the fringe. */
  ghost function FringeStates<S, A>(fringe: seq<FringeEntry<S, A>>): set<S>
  {
    set k | 0 <= k < |fringe| && fringe[k].StateEntry? :: fringe[k].state
  }

  /** `fringe.pop(0)` twice takes a state and then its plan, and leaves an alternating fringe. */
  lemma PopPair<S, A>(fringe: seq<FringeEntry<S, A>>)
    requires Alternating(fringe) && fringe != []
    ensures |fringe| >= 2 && fringe[0].StateEntry? && fringe[1].PlanEntry?
    ensures Alternating(fringe[2..])
    ensures FringeStates(fringe) == FringeStates(fringe[2..]) + {fringe[0].state}
  {
    var rest := fringe[2..];
    forall k | 0 <= k < |rest|
      ensures rest[k].StateEntry? <==> k % 2 == 0
    {
      assert rest[k] == fringe[k + 2];
    }
    forall s | s in FringeStates(fringe)
      ensures s in FringeStates(rest) + {fringe[0].state}
    {
      var k :| 0 <= k < |fringe| && fringe[k].StateEntry? && fringe[k].state == s;
      if k >= 2 {
        assert rest[k - 2] == fringe[k];
      } else {
        assert k == 0;
      }
    }
    forall s | s in FringeStates(rest)
      ensures s in FringeStates(fringe)
    {
      var k :| 0 <= k < |rest| && rest[k].StateEntry? && rest[k].state == s;
      assert fringe[k + 2] == rest[k];
    }
  }

  /** `fringe.append(new_state)` then `fringe.append((act, plan))` keeps the fringe alternating. */
  lemma PushPair<S, A>(fringe: seq<FringeEntry<S, A>>, s: S, c: Chain<A>)
    requires Alternating(fringe)
    ensures Alternating(fringe + [StateEntry(s), PlanEntry(c)])
    ensures FringeStates(fringe + [StateEntry(s), PlanEntry(c)]) == FringeStates(fringe) + {s}
  {
    var longer := fringe + [StateEntry(s), PlanEntry(c)];
    assert longer[|fringe|] == StateEntry(s);
    forall t | t in FringeStates(longer)
      ensures t in FringeStates(fringe) + {s}
    {
      var k :| 0 <= k < |longer| && longer[k].StateEntry? && longer[k].state == t;
      if k < |fringe| {
        assert fringe[k] == longer[k];
      }
    }
    forall t | t in FringeStates(fringe)
      ensures t in FringeStates(longer)
    {
      var k :| 0 <= k < |fringe| && fringe[k].StateEntry? && fringe[k].state == t;
      assert longer[k] == fringe[k];
    }
  }
}
