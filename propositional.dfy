/**
 * propositional_planner.py: the oldest breadth-first planner. It works on
 * the parser's propositional actions directly, and its states, preconditions,
 * effects and goals are Python lists of facts: the order of a state matters
 * when the planner compares it with the states it has visited. Reading the
 * domain and problem files is not part of this model; their parsed contents
 * arrive as a `PropositionalProblem`.
 */
module Propositional {
  import opened Actions
  import opened Results
  import opened Backpointers
  import Planner
  import Search

  /** A state as the propositional planner holds it: a list of facts. */
  type ListState = seq<Fact>

  /** An action of the parser with its preconditions and effects as lists. */
  datatype PropositionalAction = PropositionalAction(
    name: string,
    positivePreconditions: seq<Fact>,
    negativePreconditions: seq<Fact>,
    addEffects: seq<Fact>,
    delEffects: seq<Fact>)

  /** What `solve` reads from the parser. */
  datatype PropositionalProblem = PropositionalProblem(
    state: ListState,
    positiveGoals: seq<Fact>,
    negativeGoals: seq<Fact>,
    actions: seq<PropositionalAction>)

  /** The facts of a list. */
  function SetOf(s: seq<Fact>): (r: set<Fact>)
    ensures forall f :: f in r <==> f in s
  {
    set f | f in s
  }

  predicate NoDuplicates(s: seq<Fact>)
  {
    forall i, j :: 0 <= i < j < |s| ==> s[i] != s[j]
  }

  // ---------------------------------------------------------------------------
  // applicable
  // ---------------------------------------------------------------------------

  /** Every positive fact is in the state and no negative fact is. */
  predicate Holds(state: ListState, positive: seq<Fact>, negative: seq<Fact>)
  {
    (forall f :: f in positive ==> f in state) && (forall f :: f in negative ==> f !in state)
  }

  /**
   * `Propositional_Planner.applicable`: scans the positive facts, then the
   * negative ones, and answers false at the first fact that fails.
   */
  method Applicable(state: ListState, positive: seq<Fact>, negative: seq<Fact>) returns (r: bool)
    ensures r <==> Holds(state, positive, negative)
  {
    for i := 0 to |positive|
      invariant forall j :: 0 <= j < i ==> positive[j] in state
    {
      if positive[i] !in state {
        return false;
      }
    }
    for i := 0 to |negative|
      invariant forall j :: 0 <= j < i ==> negative[j] !in state
    {
      if negative[i] in state {
        return false;
      }
    }
    return true;
  }

  /** On lists, `applicable` is the set-based test of planner.py. */
  lemma HoldsAgreesWithPlanner(state: ListState, positive: seq<Fact>, negative: seq<Fact>)
    ensures Holds(state, positive, negative) == Planner.Applicable(SetOf(state), SetOf(positive), SetOf(negative))
  {
  }

  // ---------------------------------------------------------------------------
  // apply
  // ---------------------------------------------------------------------------

  /** The facts of `state` not deleted, in their order in `state`. */
  function Survivors(state: ListState, del: seq<Fact>): (r: ListState)
    ensures forall f :: f in r <==> f in state && f !in del
    ensures |r| <= |state|
  {
    if state == [] then []
    else
      var init, last := state[..|state| - 1], state[|state| - 1];
      Survivors(init, del) + (if last in del then [] else [last])
  }

  /** `acc` followed by each fact of `adds` that is not yet present, in the order of `adds`. */
  function AddNew(acc: ListState, adds: seq<Fact>): (r: ListState)
    ensures forall f :: f in r <==> f in acc || f in adds
    ensures |acc| <= |r| && r[..|acc|] == acc
  {
    if adds == [] then acc
    else
      var before, last := AddNew(acc, adds[..|adds| - 1]), adds[|adds| - 1];
      assert (before + [last])[..|acc|] == before[..|acc|];
      if last in before then before else before + [last]
  }

  /** The state `apply` builds. */
  function ApplyList(state: ListState, act: PropositionalAction): ListState
  {
    AddNew(Survivors(state, act.delEffects), act.addEffects)
  }

  /**
   * `Propositional_Planner.apply`: copies the facts of the state that the
   * action does not delete, then appends each add effect not already there.
   */
  method Apply(state: ListState, act: PropositionalAction) returns (newState: ListState)
    ensures newState == ApplyList(state, act)
  {
    newState := [];
    for i := 0 to |state|
      invariant newState == Survivors(state[..i], act.delEffects)
    {
      SurvivorsStep(state, act.delEffects, i);
      if state[i] !in act.delEffects {
        newState := newState + [state[i]];
      }
    }
    assert state[..|state|] == state;
    ghost var survivors := newState;
    for i := 0 to |act.addEffects|
      invariant newState == AddNew(survivors, act.addEffects[..i])
    {
      AddNewStep(survivors, act.addEffects, i);
      if act.addEffects[i] !in newState {
        newState := newState + [act.addEffects[i]];
      }
    }
    assert act.addEffects[..|act.addEffects|] == act.addEffects;
  }

  /** One more fact of the state passes through the delete filter or not. */
  lemma SurvivorsStep(state: ListState, del: seq<Fact>, i: nat)
    requires i < |state|
    ensures Survivors(state[..i + 1], del) == Survivors(state[..i], del) + (if state[i] in del then [] else [state[i]])
  {
    assert state[..i + 1][..i] == state[..i];
  }

  /** One more add effect is appended unless it is already present. */
  lemma AddNewStep(acc: ListState, adds: seq<Fact>, i: nat)
    requires i < |adds|
    ensures AddNew(acc, adds[..i + 1]) ==
              if adds[i] in AddNew(acc, adds[..i]) then AddNew(acc, adds[..i]) else AddNew(acc, adds[..i]) + [adds[i]]
  {
    assert adds[..i + 1][..i] == adds[..i];
  }

  /** A fact is in the new state iff it was in the state and not deleted, or it is added. */
  lemma ApplyMembers(state: ListState, act: PropositionalAction, f: Fact)
    ensures f in ApplyList(state, act) <==> (f in state && f !in act.delEffects) || f in act.addEffects
  {
  }

  /** On lists, `apply` is the set-based `apply` of planner.py. */
  lemma ApplyAgreesWithPlanner(state: ListState, act: PropositionalAction)
    ensures SetOf(ApplyList(state, act)) == Planner.Apply(SetOf(state), SetOf(act.addEffects), SetOf(act.delEffects))
  {
  }

  /** Filtering distributes over concatenation: survivors keep their relative order. */
  lemma {:induction false} SurvivorsAppend(xs: ListState, ys: ListState, del: seq<Fact>)
    ensures Survivors(xs + ys, del) == Survivors(xs, del) + Survivors(ys, del)
  {
    if ys != [] {
      var init := ys[..|ys| - 1];
      assert (xs + ys)[..|xs + ys| - 1] == xs + init;
      SurvivorsAppend(xs, init, del);
    } else {
      assert xs + ys == xs;
    }
  }

  /**
   * The new state starts with the survivors, in their order, and then holds
   * only add effects that are not survivors.
   */
  lemma ApplyOrder(state: ListState, act: PropositionalAction)
    ensures ApplyList(state, act)[..|Survivors(state, act.delEffects)|] == Survivors(state, act.delEffects)
    ensures forall i :: |Survivors(state, act.delEffects)| <= i < |ApplyList(state, act)| ==>
              ApplyList(state, act)[i] in act.addEffects && ApplyList(state, act)[i] !in Survivors(state, act.delEffects)
  {
    AddNewSuffix(Survivors(state, act.delEffects), act.addEffects);
  }

  lemma {:induction false} AddNewSuffix(acc: ListState, adds: seq<Fact>)
    ensures forall i :: |acc| <= i < |AddNew(acc, adds)| ==> AddNew(acc, adds)[i] in adds && AddNew(acc, adds)[i] !in acc
  {
    if adds != [] {
      var init, last := adds[..|adds| - 1], adds[|adds| - 1];
      AddNewSuffix(acc, init);
      var before := AddNew(acc, init);
      assert forall x :: x in init ==> x in adds;
      var r := AddNew(acc, adds);
      if last !in before {
        assert r == before + [last];
        assert last !in acc by {
          assert before[..|acc|] == acc;
          forall k | 0 <= k < |acc|
            ensures acc[k] != last
          {
            assert before[k] == acc[k];
          }
        }
        forall i | |acc| <= i < |r|
          ensures r[i] in adds && r[i] !in acc
        {
          if i < |before| {
            assert r[i] == before[i];
            assert before[i] in init;
          } else {
            assert r[i] == last && last in adds;
          }
        }
      }
    }
  }

  lemma {:induction false} SurvivorsNoDuplicates(state: ListState, del: seq<Fact>)
    requires NoDuplicates(state)
    ensures NoDuplicates(Survivors(state, del))
  {
    if state != [] {
      var init := state[..|state| - 1];
      SurvivorsNoDuplicates(init, del);
    }
  }

  lemma {:induction false} AddNewNoDuplicates(acc: ListState, adds: seq<Fact>)
    requires NoDuplicates(acc)
    ensures NoDuplicates(AddNew(acc, adds))
  {
    if adds != [] {
      AddNewNoDuplicates(acc, adds[..|adds| - 1]);
    }
  }

  /**
   * States are compared as lists: the same facts in another order make a
   * different state, so `new_state not in visited` can let it through.
   */
  lemma OrderMatters(f: Fact, g: Fact)
    requires f != g
    ensures SetOf([f, g]) == SetOf([g, f]) && [f, g] != [g, f]
  {
    assert [f, g][0] != [g, f][0];
  }

  /** A state without duplicates stays without duplicates. */
  lemma ApplyNoDuplicates(state: ListState, act: PropositionalAction)
    requires NoDuplicates(state)
    ensures NoDuplicates(ApplyList(state, act))
  {
    SurvivorsNoDuplicates(state, act.delEffects);
    AddNewNoDuplicates(Survivors(state, act.delEffects), act.addEffects);
  }

  // ---------------------------------------------------------------------------
  // Plans
  // ---------------------------------------------------------------------------

  /** The state reached by applying the actions of `plan` in turn. */
  function Run(state: ListState, plan: seq<PropositionalAction>): ListState
  {
    if plan == [] then state else ApplyList(Run(state, plan[..|plan| - 1]), plan[|plan| - 1])
  }

  /** Every action of `plan` is an action of the problem whose preconditions hold when its turn comes. */
  ghost predicate Executable(problem: PropositionalProblem, plan: seq<PropositionalAction>)
  {
    plan == [] ||
    (var init, last := plan[..|plan| - 1], plan[|plan| - 1];
     Executable(problem, init) && last in problem.actions
     && Holds(Run(problem.state, init), last.positivePreconditions, last.negativePreconditions))
  }

  predicate GoalHolds(problem: PropositionalProblem, state: ListState)
  {
    Holds(state, problem.positiveGoals, problem.negativeGoals)
  }

  ghost predicate Solves(problem: PropositionalProblem, plan: seq<PropositionalAction>)
  {
    Executable(problem, plan) && GoalHolds(problem, Run(problem.state, plan))
  }

  /** The facts of the list state a plan reaches are the set state planner.py reaches with it. */
  lemma {:induction false} RunAgreesWithPlanner(state: ListState, plan: seq<PropositionalAction>)
    ensures SetOf(Run(state, plan)) == SetRun(SetOf(state), plan)
  {
    if plan != [] {
      RunAgreesWithPlanner(state, plan[..|plan| - 1]);
      ApplyAgreesWithPlanner(Run(state, plan[..|plan| - 1]), plan[|plan| - 1]);
    }
  }

  /** Running a plan with the set-based `apply` of planner.py. */
  function SetRun(state: State, plan: seq<PropositionalAction>): State
  {
    if plan == [] then state
    else
      var last := plan[|plan| - 1];
      Planner.Apply(SetRun(state, plan[..|plan| - 1]), SetOf(last.addEffects), SetOf(last.delEffects))
  }

  // ---------------------------------------------------------------------------
  // The finite space of list states
  // ---------------------------------------------------------------------------

  /** Every fact the planner can meet: those of the initial state and the add effects. */
  ghost function Universe(problem: PropositionalProblem): set<Fact>
  {
    SetOf(problem.state) + set i, f | 0 <= i < |problem.actions| && f in problem.actions[i].addEffects :: f
  }

  /** How often a reachable state can hold each fact: as often as the initial state, or once. */
  ghost function Bound(problem: PropositionalProblem): multiset<Fact>
  {
    multiset(problem.state) + multiset(Universe(problem))
  }

  /** The shape of every reachable state. */
  ghost predicate Shaped(problem: PropositionalProblem, s: ListState)
  {
    (forall i :: 0 <= i < |s| ==> s[i] in Universe(problem)) && multiset(s) <= Bound(problem)
  }

  /** All lists of at most `n` facts from `u`. */
  ghost function Lists(u: set<Fact>, n: nat): set<ListState>
  {
    if n == 0 then {[]}
    else Lists(u, n - 1) + set l, x | l in Lists(u, n - 1) && x in u :: l + [x]
  }

  lemma {:induction false} InLists(u: set<Fact>, n: nat, l: ListState)
    requires |l| <= n && forall i :: 0 <= i < |l| ==> l[i] in u
    ensures l in Lists(u, n)
  {
    if n > 0 {
      if |l| < n {
        InLists(u, n - 1, l);
      } else {
        var init := l[..|l| - 1];
        InLists(u, n - 1, init);
        assert l == init + [l[|l| - 1]];
      }
    }
  }

  /** The space the search runs in: every shaped state. */
  ghost function Space(problem: PropositionalProblem): set<ListState>
  {
    Lists(Universe(problem), |Bound(problem)|)
  }

  lemma ShapedInSpace(problem: PropositionalProblem, s: ListState)
    requires Shaped(problem, s)
    ensures s in Space(problem)
  {
    var m := Bound(problem);
    assert m == multiset(s) + (m - multiset(s));
    assert |multiset(s)| == |s|;
    InLists(Universe(problem), |m|, s);
  }

  lemma {:induction false} SurvivorsCount(state: ListState, del: seq<Fact>, f: Fact)
    ensures multiset(Survivors(state, del))[f] == if f in del then 0 else multiset(state)[f]
  {
    if state != [] {
      var init, last := state[..|state| - 1], state[|state| - 1];
      SurvivorsCount(init, del, f);
      assert state == init + [last];
      var tail := if last in del then [] else [last];
      assert Survivors(state, del) == Survivors(init, del) + tail;
      assert multiset(Survivors(state, del)) == multiset(Survivors(init, del)) + multiset(tail);
      assert multiset(state) == multiset(init) + multiset{last};
    }
  }

  lemma {:induction false} AddNewCount(acc: ListState, adds: seq<Fact>, f: Fact)
    ensures multiset(AddNew(acc, adds))[f] == if f in acc then multiset(acc)[f] else if f in adds then 1 else 0
  {
    if adds != [] {
      var init := adds[..|adds| - 1];
      AddNewCount(acc, init, f);
    }
  }

  lemma InitialShaped(problem: PropositionalProblem)
    ensures Shaped(problem, problem.state)
  {
  }

  /** Applying an action of the problem keeps the shape. */
  lemma ApplyShaped(problem: PropositionalProblem, s: ListState, a: PropositionalAction)
    requires Shaped(problem, s) && a in problem.actions
    ensures Shaped(problem, ApplyList(s, a))
  {
    var k :| 0 <= k < |problem.actions| && problem.actions[k] == a;
    var r := ApplyList(s, a);
    var survivors := Survivors(s, a.delEffects);
    forall i | 0 <= i < |r|
      ensures r[i] in Universe(problem)
    {
      assert r[i] in r;
    }
    forall f
      ensures multiset(r)[f] <= Bound(problem)[f]
    {
      SurvivorsCount(s, a.delEffects, f);
      AddNewCount(survivors, a.addEffects, f);
      if f in a.addEffects {
        assert f in Universe(problem);
      }
    }
  }

  // ---------------------------------------------------------------------------
  // solve
  // ---------------------------------------------------------------------------

  type Fringe = seq<FringeEntry<ListState, PropositionalAction>>

  /** The chain `c` is an executable plan from the initial state and leads to `s`. */
  ghost predicate PairReached(problem: PropositionalProblem, s: ListState, c: Chain<PropositionalAction>)
  {
    Executable(problem, ChainPlan(c)) && Run(problem.state, ChainPlan(c)) == s
  }

  /** The fringe alternates states and plans, and each plan reaches the state before it. */
  ghost predicate FringeReached(problem: PropositionalProblem, fringe: Fringe)
  {
    Alternating(fringe) && PairsReached(problem, fringe)
  }

  ghost predicate PairsReached(problem: PropositionalProblem, fringe: Fringe)
    decreases |fringe|
  {
    fringe == [] ||
    (&& |fringe| >= 2 && fringe[0].StateEntry? && fringe[1].PlanEntry?
     && PairReached(problem, fringe[0].state, fringe[1].plan)
     && PairsReached(problem, fringe[2..]))
  }

  lemma {:induction false} PairsReachedAppend(problem: PropositionalProblem, fringe: Fringe, t: ListState, c: Chain<PropositionalAction>)
    requires PairsReached(problem, fringe) && PairReached(problem, t, c)
    ensures PairsReached(problem, fringe + [StateEntry(t), PlanEntry(c)])
    decreases |fringe|
  {
    var longer := fringe + [StateEntry(t), PlanEntry(c)];
    if fringe == [] {
      assert longer[2..] == [];
    } else {
      PairsReachedAppend(problem, fringe[2..], t, c);
      assert longer[2..] == fringe[2..] + [StateEntry(t), PlanEntry(c)];
    }
  }

  /** Every applicable action takes `s` to a visited state. */
  ghost predicate Closed(problem: PropositionalProblem, visited: seq<ListState>, s: ListState)
  {
    ClosedUpTo(problem, visited, s, |problem.actions|)
  }

  /** Each of the first `n` actions of the problem that applies to `s` takes it to a visited state. */
  ghost predicate ClosedUpTo(problem: PropositionalProblem, visited: seq<ListState>, s: ListState, n: nat)
    requires n <= |problem.actions|
  {
    n == 0 || (ClosedUpTo(problem, visited, s, n - 1) && Successor(problem.actions[n - 1], s, visited))
  }

  /** The successor of `state` by `a`, when `a` applies, is visited. */
  ghost predicate Successor(a: PropositionalAction, state: ListState, visited: seq<ListState>)
  {
    Holds(state, a.positivePreconditions, a.negativePreconditions) ==> ApplyList(state, a) in visited
  }

  lemma {:induction false} ClosedUpToSuccessor(problem: PropositionalProblem, visited: seq<ListState>, s: ListState, n: nat, k: nat)
    requires n <= |problem.actions| && ClosedUpTo(problem, visited, s, n) && k < n
    ensures Successor(problem.actions[k], s, visited)
  {
    if k < n - 1 {
      ClosedUpToSuccessor(problem, visited, s, n - 1, k);
    }
  }

  lemma {:induction false} ClosedUpToGrows(problem: PropositionalProblem, visited: seq<ListState>, s: ListState, n: nat, t: ListState)
    requires n <= |problem.actions| && ClosedUpTo(problem, visited, s, n)
    ensures ClosedUpTo(problem, visited + [t], s, n)
  {
    if n > 0 {
      ClosedUpToGrows(problem, visited, s, n - 1, t);
      assert Successor(problem.actions[n - 1], s, visited);
    }
  }

  /** The visited list as a set. */
  ghost function Seen(visited: seq<ListState>): set<ListState>
  {
    set s | s in visited
  }

  /**
   * What the search loop of `solve` keeps true: the fringe's states are
   * reached and visited, the visited list has no repeats, the initial state
   * is visited, every visited state is shaped and not a goal, and each one
   * that has left the fringe, except those in `except`, is closed.
   */
  ghost predicate SolveInvariant(problem: PropositionalProblem, visited: seq<ListState>, fringe: Fringe, except: set<ListState>)
  {
    && FringeReached(problem, fringe)
    && FringeStates(fringe) <= Seen(visited)
    && problem.state in visited
    && Search.Distinct(visited)
    && (forall s :: s in visited ==> Shaped(problem, s) && !GoalHolds(problem, s))
    && ClosedBut(problem, visited, fringe, except)
  }

  /** Every visited state that has left the fringe, except those in `except`, is closed. */
  ghost predicate ClosedBut(problem: PropositionalProblem, visited: seq<ListState>, fringe: Fringe, except: set<ListState>)
  {
    forall s :: s in visited && s !in FringeStates(fringe) && s !in except ==> Closed(problem, visited, s)
  }

  lemma ClosedButAfterPush(problem: PropositionalProblem, visited: seq<ListState>, fringe: Fringe, except: set<ListState>,
                           t: ListState, c: Chain<PropositionalAction>)
    requires ClosedBut(problem, visited, fringe, except) && Alternating(fringe)
    ensures ClosedBut(problem, visited + [t], fringe + [StateEntry(t), PlanEntry(c)], except)
  {
    PushPair(fringe, t, c);
    forall s | s in visited + [t] && s !in FringeStates(fringe + [StateEntry(t), PlanEntry(c)]) && s !in except
      ensures Closed(problem, visited + [t], s)
    {
      ClosedUpToGrows(problem, visited, s, |problem.actions|, t);
    }
  }

  /**
   * `Propositional_Planner.solve` after reading the files: the empty plan
   * when the initial state satisfies the goal, otherwise the first plan
   * breadth-first search finds. A returned plan solves the problem, and
   * `None` means no executable plan reaches the goal.
   */
  method Solve(problem: PropositionalProblem) returns (plan: Option<seq<PropositionalAction>>, ghost seen: seq<ListState>)
    ensures GoalHolds(problem, problem.state) ==> plan == Some([])
    ensures plan.Some? ==> Solves(problem, plan.value)
    ensures plan.None? ==> forall p :: Executable(problem, p) ==> !GoalHolds(problem, Run(problem.state, p))
    ensures Search.Distinct(seen)
    ensures seen != [] ==> seen[0] == problem.state
    ensures plan.None? ==> forall p :: Executable(problem, p) ==> Run(problem.state, p) in seen
  {
    seen := [];
    var done := Applicable(problem.state, problem.positiveGoals, problem.negativeGoals);
    if done {
      return Some([]), seen;
    }
    var visited: seq<ListState> := [problem.state];
    var fringe: Fringe := [StateEntry(problem.state), PlanEntry(Nil)];
    InitialInvariant(problem, fringe);
    ghost var space := Space(problem);
    while fringe != []
      invariant SolveInvariant(problem, visited, fringe, {})
      invariant visited != [] && visited[0] == problem.state
      decreases space - Seen(visited), |fringe|
    {
      PopKeepsInvariant(problem, visited, fringe);
      var state := fringe[0].state;
      var chain := fringe[1].plan;
      var rest := fringe[2..];
      var found;
      ghost var before := visited;
      found, visited, fringe := Expand(problem, state, chain, visited, rest);
      assert visited[..|before|] == before;
      if found.Some? {
        return found, visited;
      }
      if |visited| != |before| {
        Progress(problem, before, visited);
      }
    }
    Exhausted(problem, visited);
    plan, seen := None, visited;
  }

  lemma InitialInvariant(problem: PropositionalProblem, fringe: Fringe)
    requires !GoalHolds(problem, problem.state)
    requires fringe == [StateEntry(problem.state), PlanEntry(Nil)]
    ensures SolveInvariant(problem, [problem.state], fringe, {})
  {
    assert PairReached(problem, fringe[0].state, fringe[1].plan);
    assert fringe[0].state in FringeStates(fringe);
    InitialShaped(problem);
  }

  lemma PopKeepsInvariant(problem: PropositionalProblem, visited: seq<ListState>, fringe: Fringe)
    requires SolveInvariant(problem, visited, fringe, {}) && fringe != []
    ensures |fringe| >= 2 && fringe[0].StateEntry? && fringe[1].PlanEntry?
    ensures PairReached(problem, fringe[0].state, fringe[1].plan) && fringe[0].state in visited
    ensures SolveInvariant(problem, visited, fringe[2..], {fringe[0].state})
  {
    PopPair(fringe);
    var rest := fringe[2..];
    assert fringe[0].state in FringeStates(fringe);
  }

  /** A longer visited list covers more of the finite space. */
  lemma Progress(problem: PropositionalProblem, visited: seq<ListState>, visited': seq<ListState>)
    requires |visited| < |visited'| && visited'[..|visited|] == visited
    requires forall i, j :: 0 <= i < j < |visited'| ==> visited'[i] != visited'[j]
    requires forall s :: s in visited' ==> Shaped(problem, s)
    ensures Space(problem) - Seen(visited') < Space(problem) - Seen(visited)
  {
    var t := visited'[|visited|];
    assert t !in visited by {
      forall k | 0 <= k < |visited|
        ensures visited[k] != t
      {
        assert visited'[k] == visited[k];
      }
    }
    assert t in visited';
    ShapedInSpace(problem, t);
    assert t in Space(problem) - Seen(visited);
    forall s | s in Seen(visited)
      ensures s in Seen(visited')
    {
      var k :| 0 <= k < |visited| && visited[k] == s;
      assert visited'[k] == s;
    }
  }

  /** With every visited state closed, every executable plan ends in a visited state. */
  lemma {:induction false} ClosedHoldsReachable(problem: PropositionalProblem, visited: seq<ListState>, plan: seq<PropositionalAction>)
    requires problem.state in visited
    requires forall s :: s in visited ==> Closed(problem, visited, s)
    requires Executable(problem, plan)
    ensures Run(problem.state, plan) in visited
  {
    if plan != [] {
      var init, last := plan[..|plan| - 1], plan[|plan| - 1];
      ClosedHoldsReachable(problem, visited, init);
      var k :| 0 <= k < |problem.actions| && problem.actions[k] == last;
      ClosedUpToSuccessor(problem, visited, Run(problem.state, init), |problem.actions|, k);
    }
  }

  lemma Exhausted(problem: PropositionalProblem, visited: seq<ListState>)
    requires SolveInvariant(problem, visited, [], {})
    ensures forall p :: Executable(problem, p) ==> Run(problem.state, p) in visited && !GoalHolds(problem, Run(problem.state, p))
  {
    forall p | Executable(problem, p)
      ensures Run(problem.state, p) in visited && !GoalHolds(problem, Run(problem.state, p))
    {
      ClosedHoldsReachable(problem, visited, p);
    }
  }

  /**
   * The inner loop of `solve`: tries every action on `state`; returns the
   * first plan that reaches a goal state not yet visited, and otherwise
   * visits and queues every new successor, which closes `state`.
   */
  method Expand(problem: PropositionalProblem, state: ListState, chain: Chain<PropositionalAction>,
                visited: seq<ListState>, fringe: Fringe)
    returns (found: Option<seq<PropositionalAction>>, visited': seq<ListState>, fringe': Fringe)
    requires PairReached(problem, state, chain) && state in visited
    requires SolveInvariant(problem, visited, fringe, {state})
    ensures found.Some? ==> Solves(problem, found.value)
    ensures found.None? ==> SolveInvariant(problem, visited', fringe', {})
    ensures found.None? ==> Extends(visited, fringe, visited', fringe')
    ensures found.Some? ==> Search.Distinct(visited') && Extends(visited, fringe, visited', fringe')
  {
    visited', fringe' := visited, fringe;
    for i := 0 to |problem.actions|
      invariant SolveInvariant(problem, visited', fringe', {state})
      invariant Extends(visited, fringe, visited', fringe')
      invariant ClosedUpTo(problem, visited', state, i)
    {
      ghost var before, beforeFringe := visited', fringe';
      found, visited', fringe' := Try(problem, state, chain, i, visited', fringe');
      if found.Some? {
        return;
      }
      ExtendsTransitive(visited, fringe, before, beforeFringe, visited', fringe');
    }
    ExpandedIsClosed(problem, state, visited', fringe');
    found := None;
  }

  /** The visited list only grows at its end, and the fringe changes only when it grows. */
  ghost predicate Extends(visited: seq<ListState>, fringe: Fringe, visited': seq<ListState>, fringe': Fringe)
  {
    |visited| <= |visited'| && visited'[..|visited|] == visited && (|visited'| == |visited| ==> fringe' == fringe)
  }

  lemma ExtendsTransitive(v0: seq<ListState>, f0: Fringe, v1: seq<ListState>, f1: Fringe, v2: seq<ListState>, f2: Fringe)
    requires Extends(v0, f0, v1, f1) && Extends(v1, f1, v2, f2)
    ensures Extends(v0, f0, v2, f2)
  {
    assert v2[..|v0|] == v2[..|v1|][..|v0|];
  }

  /**
   * One turn of the inner loop of `solve`: if action `i` applies to `state`
   * and leads to a state not yet visited, either that state is a goal and
   * the plan to it is returned, or it is visited and queued.
   */
  method Try(problem: PropositionalProblem, state: ListState, chain: Chain<PropositionalAction>, i: nat,
             visited: seq<ListState>, fringe: Fringe)
    returns (found: Option<seq<PropositionalAction>>, visited': seq<ListState>, fringe': Fringe)
    requires i < |problem.actions|
    requires PairReached(problem, state, chain) && state in visited
    requires SolveInvariant(problem, visited, fringe, {state})
    requires ClosedUpTo(problem, visited, state, i)
    ensures found.Some? ==> Solves(problem, found.value)
    ensures found.None? ==> SolveInvariant(problem, visited', fringe', {state})
    ensures found.None? ==> ClosedUpTo(problem, visited', state, i + 1)
    ensures found.None? ==> Extends(visited, fringe, visited', fringe')
    ensures found.Some? ==> visited' == visited && fringe' == fringe
  {
    visited', fringe' := visited, fringe;
    found := None;
    var act := problem.actions[i];
    var enabled := Applicable(state, act.positivePreconditions, act.negativePreconditions);
    if enabled {
      var newState := Apply(state, act);
      if newState !in visited {
        StepReached(problem, state, chain, act);
        var goal := Applicable(newState, problem.positiveGoals, problem.negativeGoals);
        if goal {
          var fullPlan := ReconstructPlan(act, chain);
          return Some(fullPlan), visited', fringe';
        }
        PushKeepsInvariant(problem, visited, fringe, state, newState, Cons(act, chain));
        ClosedUpToGrows(problem, visited, state, i, newState);
        visited' := visited + [newState];
        fringe' := fringe + [StateEntry(newState), PlanEntry(Cons(act, chain))];
        assert visited'[..|visited|] == visited;
      }
    }
  }

  /** Following an applicable action extends a reaching chain, and the new state keeps the shape. */
  lemma StepReached(problem: PropositionalProblem, state: ListState, chain: Chain<PropositionalAction>, a: PropositionalAction)
    requires PairReached(problem, state, chain) && Shaped(problem, state)
    requires a in problem.actions && Holds(state, a.positivePreconditions, a.negativePreconditions)
    ensures PairReached(problem, ApplyList(state, a), Cons(a, chain))
    ensures Shaped(problem, ApplyList(state, a))
  {
    var plan := ChainPlan(chain);
    assert (plan + [a])[..|plan|] == plan;
    ApplyShaped(problem, state, a);
  }

  /** Visiting and queueing a reached, shaped, non-goal state keeps the invariant. */
  lemma PushKeepsInvariant(problem: PropositionalProblem, visited: seq<ListState>, fringe: Fringe, current: ListState,
                           t: ListState, c: Chain<PropositionalAction>)
    requires SolveInvariant(problem, visited, fringe, {current})
    requires PairReached(problem, t, c) && Shaped(problem, t) && !GoalHolds(problem, t) && t !in visited
    ensures SolveInvariant(problem, visited + [t], fringe + [StateEntry(t), PlanEntry(c)], {current})
  {
    var fringe' := fringe + [StateEntry(t), PlanEntry(c)];
    var visited' := visited + [t];
    PushPair(fringe, t, c);
    PairsReachedAppend(problem, fringe, t, c);
    Search.DistinctAppend(visited, t);
    ClosedButAfterPush(problem, visited, fringe, {current}, t, c);
    SeenAppend(visited, t);
  }

  /** Appending `t` to the visited list adds exactly `t` to the states seen. */
  lemma SeenAppend(visited: seq<ListState>, t: ListState)
    ensures Seen(visited + [t]) == Seen(visited) + {t}
    ensures forall s :: s in visited + [t] <==> s in visited || s == t
  {
  }

  /** After the inner loop `state` is closed, so it need no longer be excepted. */
  lemma ExpandedIsClosed(problem: PropositionalProblem, state: ListState, visited: seq<ListState>, fringe: Fringe)
    requires SolveInvariant(problem, visited, fringe, {state})
    requires Closed(problem, visited, state)
    ensures SolveInvariant(problem, visited, fringe, {})
  {
  }
}
