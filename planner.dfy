/**
 * planner.py: the standalone classical planner. Its states are sets of facts;
 * `solve` runs a breadth-first search over a flat fringe that alternates a
 * state and the back-pointer chain of the plan that reached it. Parsing and
 * grounding happen before the search and are not part of this model: the
 * parser's initial state, goals and ground actions arrive as a `Problem`.
 */
module Planner {
  import opened Actions
  import opened Results
  import opened Backpointers
  import Search
  import Util

  /** `Planner.applicable`: the positive facts all hold in the state and none of the negative ones does. */
  function Applicable(state: State, positive: set<Fact>, negative: set<Fact>): (r: bool)
    ensures r <==> (forall f :: f in positive ==> f in state) && (forall f :: f in negative ==> f !in state)
  {
    positive <= state && negative !! state
  }

  /** `Planner.apply`: the negative effects leave the state, then the positive effects join it. */
  function Apply(state: State, positive: set<Fact>, negative: set<Fact>): (r: State)
    ensures forall f :: f in r <==> f in positive || (f in state && f !in negative)
  {
    (state - negative) + positive
  }

  /** The planner's transition model is the one of the search module. */
  lemma AgreesWithSearch(problem: Search.Problem, node: Search.Node, a: GroundAction)
    ensures Applicable(node.state, a.positivePreconditions, a.negativePreconditions) == Search.Enabled(node, a)
    ensures Apply(node.state, a.addEffects, a.delEffects) == Search.Apply(node, a).state
    ensures Applicable(node.state, problem.positiveGoals, problem.negativeGoals) == Search.AtGoal(problem, node)
  {
  }

  type Fringe = seq<FringeEntry<State, GroundAction>>

  /** The chain `c` is an executable plan from the initial state and leads to `s`. */
  ghost predicate PairReached(problem: Search.Problem, s: State, c: Chain<GroundAction>)
  {
    var plan := ChainPlan(c);
    Search.Executable(problem, Search.Root(problem), plan) && Search.Execute(Search.Root(problem), plan).state == s
  }

  /** The fringe alternates states and plans, and each plan reaches the state before it. */
  ghost predicate FringeReached(problem: Search.Problem, fringe: Fringe)
  {
    Alternating(fringe) && PairsReached(problem, fringe)
  }

  ghost predicate PairsReached(problem: Search.Problem, fringe: Fringe)
    decreases |fringe|
  {
    fringe == [] ||
    (&& |fringe| >= 2 && fringe[0].StateEntry? && fringe[1].PlanEntry?
     && PairReached(problem, fringe[0].state, fringe[1].plan)
     && PairsReached(problem, fringe[2..]))
  }

  lemma {:induction false} PairsReachedAppend(problem: Search.Problem, fringe: Fringe, t: State, c: Chain<GroundAction>)
    requires PairsReached(problem, fringe) && PairReached(problem, t, c)
    ensures PairsReached(problem, fringe + [StateEntry(t), PlanEntry(c)])
    decreases |fringe|
  {
    var longer := fringe + [StateEntry(t), PlanEntry(c)];
    if fringe == [] {
      assert longer[2..] == [];
    } else {
      PairsReachedAppend(problem, fringe[2..], t, c);
      assert longer[2..] == fringe[2..] + [StateEntry(t), PlanEntry(c)];
    }
  }

  /**
   * What the search loop of `solve` keeps true: the fringe's states are
   * reached and visited, the initial state is visited, no visited state is a
   * goal, and every visited state that has left the fringe, except those in
   * `except`, has all its successors visited.
   */
  ghost predicate PlannerInvariant(problem: Search.Problem, visited: set<State>, fringe: Fringe, except: set<State>)
  {
    && FringeReached(problem, fringe)
    && FringeStates(fringe) <= visited
    && problem.state in visited
    && Search.SafeVisited(problem, visited)
    && forall s :: s in visited && s !in FringeStates(fringe) && s !in except ==>
         Search.Closed(problem, visited, multiset{}, s)
  }

  /**
   * `pushed` lists the visited states in the order they were visited: the
   * initial state first, each state at most once, each of them reachable.
   */
  ghost predicate PushedOnce(problem: Search.Problem, visited: set<State>, pushed: seq<State>)
  {
    && pushed != [] && pushed[0] == problem.state
    && Search.Distinct(pushed)
    && (forall s :: s in visited <==> s in pushed)
    && Search.VisitedReachable(problem, visited)
  }

  /**
   * `Planner.solve` after parsing and grounding: the empty plan when the
   * initial state satisfies the goal, otherwise the first plan breadth-first
   * search finds. A returned plan solves the problem, and `None` means no
   * executable plan reaches the goal. `pushed` lists the states in the order
   * they were pushed: the initial state first, none twice, each reachable,
   * and when no plan is returned every reachable state is among them.
   */
  method Solve(problem: Search.Problem) returns (plan: Option<seq<GroundAction>>, ghost pushed: seq<State>)
    ensures Applicable(problem.state, problem.positiveGoals, problem.negativeGoals) ==> plan == Some([])
    ensures plan.Some? ==> Search.Solves(problem, plan.value)
    ensures plan.None? ==>
              forall p :: Search.Executable(problem, Search.Root(problem), p) ==>
                !Search.AtGoal(problem, Search.Execute(Search.Root(problem), p))
    ensures Search.Distinct(pushed) && pushed != [] && pushed[0] == problem.state
    ensures forall i :: 0 <= i < |pushed| ==> Search.Reachable(problem, pushed[i])
    ensures plan.None? ==>
              forall p :: Search.Executable(problem, Search.Root(problem), p) ==>
                Search.Execute(Search.Root(problem), p).state in pushed
  {
    pushed := [problem.state];
    var visited := {problem.state};
    InitialPushed(problem);
    if Applicable(problem.state, problem.positiveGoals, problem.negativeGoals) {
      assert Search.AtGoal(problem, Search.Root(problem));
      PushedReachable(problem, visited, pushed);
      return Some([]), pushed;
    }
    var fringe: Fringe := [StateEntry(problem.state), PlanEntry(Nil)];
    InitialInvariant(problem, fringe);
    while fringe != []
      invariant PlannerInvariant(problem, visited, fringe, {})
      invariant PushedOnce(problem, visited, pushed)
      decreases Util.Subsets(Search.Universe(problem)) - visited, |fringe|
    {
      var found;
      found, visited, fringe, pushed := Turn(problem, visited, fringe, pushed);
      if found.Some? {
        PushedReachable(problem, visited, pushed);
        return found, pushed;
      }
    }
    Exhausted(problem, visited, pushed);
    plan := None;
  }

  /**
   * One turn of the outer loop of `solve`: pop the first pair of the fringe
   * and try every ground action on its state. Without a plan, either more
   * states are visited or the fringe is shorter.
   */
  method Turn(problem: Search.Problem, visited: set<State>, fringe: Fringe, ghost pushed: seq<State>)
    returns (found: Option<seq<GroundAction>>, visited': set<State>, fringe': Fringe, ghost pushed': seq<State>)
    requires fringe != [] && PlannerInvariant(problem, visited, fringe, {})
    requires PushedOnce(problem, visited, pushed)
    ensures found.Some? ==> Search.Solves(problem, found.value)
    ensures PushedOnce(problem, visited', pushed')
    ensures found.None? ==> PlannerInvariant(problem, visited', fringe', {})
    ensures found.None? ==>
              || Util.Subsets(Search.Universe(problem)) - visited' < Util.Subsets(Search.Universe(problem)) - visited
              || (visited' == visited && |fringe'| < |fringe|)
  {
    PopPair(fringe);
    var state := fringe[0].state;
    var chain := fringe[1].plan;
    PopKeepsInvariant(problem, visited, fringe);
    found, visited', fringe', pushed' := Expand(problem, state, chain, visited, fringe[2..], pushed);
    if found.None? && visited' != visited {
      Progress(Search.Universe(problem), problem, visited, visited');
    }
  }

  /** The initial state alone is a valid trace. */
  lemma InitialPushed(problem: Search.Problem)
    ensures PushedOnce(problem, {problem.state}, [problem.state])
  {
    assert Search.Execute(Search.Root(problem), []).state == problem.state;
  }

  /** Every pushed state is reachable. */
  lemma PushedReachable(problem: Search.Problem, visited: set<State>, pushed: seq<State>)
    requires PushedOnce(problem, visited, pushed)
    ensures forall i :: 0 <= i < |pushed| ==> Search.Reachable(problem, pushed[i])
  {
    forall i | 0 <= i < |pushed|
      ensures Search.Reachable(problem, pushed[i])
    {
      assert pushed[i] in visited;
    }
  }

  lemma InitialInvariant(problem: Search.Problem, fringe: Fringe)
    requires !Applicable(problem.state, problem.positiveGoals, problem.negativeGoals)
    requires fringe == [StateEntry(problem.state), PlanEntry(Nil)]
    ensures PlannerInvariant(problem, {problem.state}, fringe, {})
  {
    assert Search.Execute(Search.Root(problem), []) == Search.Root(problem);
    assert PairReached(problem, fringe[0].state, fringe[1].plan);
    assert fringe[0].state in FringeStates(fringe);
    assert Search.SafeVisited(problem, {problem.state}) by {
      assert !Search.AtGoal(problem, Search.Node(problem.state, 0, []));
    }
  }

  /** Popping the first pair leaves the invariant in force, with the popped state still to be closed. */
  lemma PopKeepsInvariant(problem: Search.Problem, visited: set<State>, fringe: Fringe)
    requires PlannerInvariant(problem, visited, fringe, {}) && fringe != []
    ensures |fringe| >= 2 && fringe[0].StateEntry? && fringe[1].PlanEntry?
    ensures PairReached(problem, fringe[0].state, fringe[1].plan) && fringe[0].state in visited
    ensures PlannerInvariant(problem, visited, fringe[2..], {fringe[0].state})
  {
    PopPair(fringe);
    assert fringe[0].state in FringeStates(fringe);
  }

  /** Visited sets only grow inside the subsets of the universe, so the search makes progress. */
  lemma Progress(universe: set<Fact>, problem: Search.Problem, visited: set<State>, visited': set<State>)
    requires universe == Search.Universe(problem)
    requires visited < visited'
    requires Search.SafeVisited(problem, visited')
    ensures Util.Subsets(universe) - visited' < Util.Subsets(universe) - visited
  {
    var t :| t in visited' && t !in visited;
    assert t in Util.Subsets(universe) - visited;
  }

  /** Once the fringe is exhausted, no executable plan reaches the goal and every reachable state was pushed. */
  lemma Exhausted(problem: Search.Problem, visited: set<State>, pushed: seq<State>)
    requires PlannerInvariant(problem, visited, [], {}) && PushedOnce(problem, visited, pushed)
    ensures forall p :: Search.Executable(problem, Search.Root(problem), p) ==>
              !Search.AtGoal(problem, Search.Execute(Search.Root(problem), p))
    ensures forall p :: Search.Executable(problem, Search.Root(problem), p) ==>
              Search.Execute(Search.Root(problem), p).state in pushed
    ensures forall i :: 0 <= i < |pushed| ==> Search.Reachable(problem, pushed[i])
  {
    assert Search.SearchInvariant(problem, visited, multiset{});
    Search.ExhaustedMeansUnsolvable(problem, visited);
    PushedReachable(problem, visited, pushed);
  }

  /**
   * The inner loop of `solve`: tries every ground action on `state`; returns
   * the first plan that reaches a goal state not yet visited, and otherwise
   * visits and queues every new successor, which closes `state`.
   */
  method Expand(problem: Search.Problem, state: State, chain: Chain<GroundAction>,
                visited: set<State>, fringe: Fringe, ghost pushed: seq<State>)
    returns (found: Option<seq<GroundAction>>, visited': set<State>, fringe': Fringe, ghost pushed': seq<State>)
    requires PairReached(problem, state, chain) && state in visited
    requires PlannerInvariant(problem, visited, fringe, {state})
    requires PushedOnce(problem, visited, pushed)
    ensures found.Some? ==> Search.Solves(problem, found.value)
    ensures found.None? ==> PlannerInvariant(problem, visited', fringe', {})
    ensures found.None? ==> Grows(visited, fringe, visited', fringe')
    ensures PushedOnce(problem, visited', pushed')
  {
    visited', fringe', pushed' := visited, fringe, pushed;
    for i := 0 to |problem.groundActions|
      invariant PlannerInvariant(problem, visited', fringe', {state})
      invariant PushedOnce(problem, visited', pushed')
      invariant Grows(visited, fringe, visited', fringe')
      invariant ClosedUpTo(problem, visited', state, i)
    {
      ghost var before, beforeFringe := visited', fringe';
      found, visited', fringe', pushed' := Try(problem, state, chain, i, visited', fringe', pushed');
      if found.Some? {
        return;
      }
      GrowsTransitive(visited, fringe, before, beforeFringe, visited', fringe');
    }
    ExpandedIsClosed(problem, state, visited', fringe');
    found := None;
  }

  /** The visited set only grows, and the fringe changes only when it does. */
  ghost predicate Grows(visited: set<State>, fringe: Fringe, visited': set<State>, fringe': Fringe)
  {
    visited <= visited' && (visited' == visited ==> fringe' == fringe)
  }

  lemma GrowsTransitive(v0: set<State>, f0: Fringe, v1: set<State>, f1: Fringe, v2: set<State>, f2: Fringe)
    requires Grows(v0, f0, v1, f1) && Grows(v1, f1, v2, f2)
    ensures Grows(v0, f0, v2, f2)
  {
    if v2 == v0 {
      assert v1 == v0;
    }
  }

  /**
   * One turn of the inner loop of `solve`: if action `i` applies to `state`
   * and leads to a state not yet visited, either that state is a goal and
   * the plan to it is returned, or it is visited and queued.
   */
  method Try(problem: Search.Problem, state: State, chain: Chain<GroundAction>, i: nat,
             visited: set<State>, fringe: Fringe, ghost pushed: seq<State>)
    returns (found: Option<seq<GroundAction>>, visited': set<State>, fringe': Fringe, ghost pushed': seq<State>)
    requires i < |problem.groundActions|
    requires PairReached(problem, state, chain) && state in visited
    requires PlannerInvariant(problem, visited, fringe, {state})
    requires PushedOnce(problem, visited, pushed)
    requires ClosedUpTo(problem, visited, state, i)
    ensures found.Some? ==> Search.Solves(problem, found.value)
    ensures PushedOnce(problem, visited', pushed')
    ensures found.None? ==> PlannerInvariant(problem, visited', fringe', {state})
    ensures found.None? ==> ClosedUpTo(problem, visited', state, i + 1)
    ensures found.None? ==> Grows(visited, fringe, visited', fringe')
  {
    visited', fringe', pushed' := visited, fringe, pushed;
    found := None;
    var act := problem.groundActions[i];
    if Applicable(state, act.positivePreconditions, act.negativePreconditions) {
      var newState := Apply(state, act.addEffects, act.delEffects);
      if newState !in visited {
        StepReached(problem, state, chain, act);
        if Applicable(newState, problem.positiveGoals, problem.negativeGoals) {
          var fullPlan := ReconstructPlan(act, chain);
          GoalFound(problem, newState, Cons(act, chain));
          return Some(fullPlan), visited', fringe', pushed';
        }
        PushKeepsInvariant(problem, visited, fringe, state, newState, Cons(act, chain));
        ClosedUpToGrows(problem, visited, state, i, newState);
        Search.DistinctAppend(pushed, newState);
        PushReachable(problem, visited, newState, Cons(act, chain));
        visited' := visited + {newState};
        fringe' := fringe + [StateEntry(newState), PlanEntry(Cons(act, chain))];
        pushed' := pushed + [newState];
      }
    }
  }

  /** Visiting a state some chain reaches keeps every visited state reachable. */
  lemma PushReachable(problem: Search.Problem, visited: set<State>, t: State, c: Chain<GroundAction>)
    requires Search.VisitedReachable(problem, visited) && PairReached(problem, t, c)
    ensures Search.VisitedReachable(problem, visited + {t})
  {
    assert Search.Executable(problem, Search.Root(problem), ChainPlan(c));
  }

  /** The successor of `state` by `a`, when `a` applies, is visited. */
  ghost predicate Successor(a: GroundAction, state: State, visited: set<State>)
  {
    Applicable(state, a.positivePreconditions, a.negativePreconditions) ==>
      Apply(state, a.addEffects, a.delEffects) in visited
  }

  /** Each of the first `n` ground actions that applies to `s` takes it to a visited state. */
  ghost predicate ClosedUpTo(problem: Search.Problem, visited: set<State>, s: State, n: nat)
    requires n <= |problem.groundActions|
  {
    n == 0 || (ClosedUpTo(problem, visited, s, n - 1) && Successor(problem.groundActions[n - 1], s, visited))
  }

  lemma {:induction false} ClosedUpToSuccessor(problem: Search.Problem, visited: set<State>, s: State, n: nat, k: nat)
    requires n <= |problem.groundActions| && ClosedUpTo(problem, visited, s, n) && k < n
    ensures Successor(problem.groundActions[k], s, visited)
  {
    if k < n - 1 {
      ClosedUpToSuccessor(problem, visited, s, n - 1, k);
    }
  }

  lemma {:induction false} ClosedUpToGrows(problem: Search.Problem, visited: set<State>, s: State, n: nat, t: State)
    requires n <= |problem.groundActions| && ClosedUpTo(problem, visited, s, n)
    ensures ClosedUpTo(problem, visited + {t}, s, n)
  {
    if n > 0 {
      ClosedUpToGrows(problem, visited, s, n - 1, t);
      assert Successor(problem.groundActions[n - 1], s, visited);
    }
  }

  /** Following an applicable ground action extends a reaching chain. */
  lemma StepReached(problem: Search.Problem, state: State, chain: Chain<GroundAction>, a: GroundAction)
    requires PairReached(problem, state, chain)
    requires a in problem.groundActions && Applicable(state, a.positivePreconditions, a.negativePreconditions)
    ensures PairReached(problem, Apply(state, a.addEffects, a.delEffects), Cons(a, chain))
    ensures Apply(state, a.addEffects, a.delEffects) <= Search.Universe(problem)
  {
    var plan := ChainPlan(chain);
    var node := Search.Execute(Search.Root(problem), plan);
    AgreesWithSearch(problem, node, a);
    Search.ExecutableStep(problem, Search.Root(problem), plan, a);
    Search.ExecuteInUniverse(problem, plan + [a]);
  }

  /** A reaching chain that ends in a goal state is a solution once reconstructed. */
  lemma GoalFound(problem: Search.Problem, s: State, c: Chain<GroundAction>)
    requires PairReached(problem, s, c)
    requires Applicable(s, problem.positiveGoals, problem.negativeGoals)
    ensures Search.Solves(problem, ChainPlan(c))
  {
    assert Search.AtGoal(problem, Search.Execute(Search.Root(problem), ChainPlan(c)));
  }

  /** Visiting and queueing a reached non-goal state keeps the invariant. */
  lemma PushKeepsInvariant(problem: Search.Problem, visited: set<State>, fringe: Fringe, current: State,
                           t: State, c: Chain<GroundAction>)
    requires PlannerInvariant(problem, visited, fringe, {current})
    requires PairReached(problem, t, c) && t <= Search.Universe(problem)
    requires !Applicable(t, problem.positiveGoals, problem.negativeGoals)
    ensures PlannerInvariant(problem, visited + {t}, fringe + [StateEntry(t), PlanEntry(c)], {current})
  {
    var fringe' := fringe + [StateEntry(t), PlanEntry(c)];
    PushPair(fringe, t, c);
    PairsReachedAppend(problem, fringe, t, c);
    assert !Search.AtGoal(problem, Search.Node(t, 0, []));
    forall s | s in visited + {t} && s !in FringeStates(fringe') && s !in {current}
      ensures Search.Closed(problem, visited + {t}, multiset{}, s)
    {
      ClosedGrows(problem, visited, visited + {t}, s);
    }
  }

  lemma ClosedGrows(problem: Search.Problem, visited: set<State>, visited': set<State>, s: State)
    requires visited <= visited'
    requires Search.Closed(problem, visited, multiset{}, s)
    ensures Search.Closed(problem, visited', multiset{}, s)
  {
  }

  /** After the inner loop every successor of `state` is visited, so `state` is closed. */
  lemma ExpandedIsClosed(problem: Search.Problem, state: State, visited: set<State>, fringe: Fringe)
    requires PlannerInvariant(problem, visited, fringe, {state})
    requires ClosedUpTo(problem, visited, state, |problem.groundActions|)
    ensures PlannerInvariant(problem, visited, fringe, {})
  {
    forall a | a in problem.groundActions && Search.Enabled(Search.Node(state, 0, []), a)
      ensures Search.Covered(visited, multiset{}, Search.Apply(Search.Node(state, 0, []), a).state)
    {
      var j :| 0 <= j < |problem.groundActions| && problem.groundActions[j] == a;
      ClosedUpToSuccessor(problem, visited, state, |problem.groundActions|, j);
      AgreesWithSearch(problem, Search.Node(state, 0, []), a);
    }
    assert Search.Closed(problem, visited, multiset{}, state);
  }
}
