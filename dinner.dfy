/**
 * The dinner example: the three-action domain the planner test solves with
 * breadth-first search. `cook` needs `clean` and adds `dinner`, `wrap` needs
 * `quiet` and adds `present`, `carry` needs `garbage` and removes `garbage`
 * and `clean`. Every action costs 1.
 */
module Dinner {
  import opened Actions
  import opened Results
  import opened Search
  import opened Relax

  const Clean: Fact := ["clean"]
  const Quiet: Fact := ["quiet"]
  const Garbage: Fact := ["garbage"]
  const DinnerFact: Fact := ["dinner"]
  const Present: Fact := ["present"]

  const Cook := GroundAction("cook", [], {Clean}, {}, {DinnerFact}, {}, 1)
  const Wrap := GroundAction("wrap", [], {Quiet}, {}, {Present}, {}, 1)
  const Carry := GroundAction("carry", [], {Garbage}, {}, {}, {Garbage, Clean}, 1)

  /**
   * Start with a clean, quiet kitchen full of garbage; end with dinner, a
   * present and no garbage. The test reads this problem from the file
   * `pb1.pddl` of the dinner example, which is not part of this model. The
   * facts here are those of the classic dinner problem, and the plan the
   * test expects (tests/test_planner.py:33-43) solves it.
   */
  function DinnerProblem(): (r: Problem)
    ensures !AtGoal(r, Root(r))
    ensures |r.groundActions| == 3 && NoNegativePreconditions(r.groundActions)
    ensures forall a :: a in r.groundActions ==> a.cost == 1
  {
    Problem("pb1", {Clean, Quiet, Garbage}, {DinnerFact, Present}, {Garbage}, [Cook, Wrap, Carry])
  }

  /** A three-action plan solves the problem when each action is enabled in turn and the last state is a goal. */
  lemma ThreeStepPlan(a: GroundAction, b: GroundAction, c: GroundAction)
    requires a in DinnerProblem().groundActions && Enabled(Root(DinnerProblem()), a)
    requires b in DinnerProblem().groundActions && Enabled(Apply(Root(DinnerProblem()), a), b)
    requires c in DinnerProblem().groundActions && Enabled(Apply(Apply(Root(DinnerProblem()), a), b), c)
    requires AtGoal(DinnerProblem(), Apply(Apply(Apply(Root(DinnerProblem()), a), b), c))
    ensures Solves(DinnerProblem(), [a, b, c])
  {
    var p := DinnerProblem();
    var root := Root(p);
    assert Executable(p, root, []);
    ExecutableStep(p, root, [], a);
    assert [] + [a] == [a];
    ExecutableStep(p, root, [a], b);
    assert [a] + [b] == [a, b];
    ExecutableStep(p, root, [a, b], c);
    assert [a, b] + [c] == [a, b, c];
  }

  /** The plan the planner test expects solves the problem. */
  lemma ExpectedPlanSolves()
    ensures Solves(DinnerProblem(), [Cook, Wrap, Carry])
  {
    var n1 := Apply(Root(DinnerProblem()), Cook);
    assert Quiet in n1.state && Garbage in n1.state && DinnerFact in n1.state;
    var n2 := Apply(n1, Wrap);
    assert Garbage in n2.state && DinnerFact in n2.state && Present in n2.state;
    var n3 := Apply(n2, Carry);
    assert DinnerFact in n3.state && Present in n3.state && Garbage !in n3.state;
    ThreeStepPlan(Cook, Wrap, Carry);
  }

  /** Cooking and wrapping may swap. */
  lemma SwappedPlanSolves()
    ensures Solves(DinnerProblem(), [Wrap, Cook, Carry])
  {
    var n1 := Apply(Root(DinnerProblem()), Wrap);
    assert Clean in n1.state && Garbage in n1.state && Present in n1.state;
    var n2 := Apply(n1, Cook);
    assert Garbage in n2.state && DinnerFact in n2.state && Present in n2.state;
    var n3 := Apply(n2, Carry);
    assert DinnerFact in n3.state && Present in n3.state && Garbage !in n3.state;
    ThreeStepPlan(Wrap, Cook, Carry);
  }

  /** Wrapping may also wait until the garbage is out. */
  lemma LateWrapSolves()
    ensures Solves(DinnerProblem(), [Cook, Carry, Wrap])
  {
    var n1 := Apply(Root(DinnerProblem()), Cook);
    assert Quiet in n1.state && Garbage in n1.state && DinnerFact in n1.state;
    var n2 := Apply(n1, Carry);
    assert Quiet in n2.state && DinnerFact in n2.state && Garbage !in n2.state;
    var n3 := Apply(n2, Wrap);
    assert DinnerFact in n3.state && Present in n3.state && Garbage !in n3.state;
    ThreeStepPlan(Cook, Carry, Wrap);
  }

  /** Each goal fact is added, and the garbage removed, by one action only. */
  lemma OnlyAdders(a: GroundAction)
    requires a in DinnerProblem().groundActions
    ensures DinnerFact in a.addEffects ==> a == Cook
    ensures Present in a.addEffects ==> a == Wrap
    ensures Garbage in a.delEffects ==> a == Carry
    ensures Clean !in a.addEffects
  {
    assert a == Cook || a == Wrap || a == Carry;
  }

  lemma NothingAddsClean()
    ensures forall a :: a in DinnerProblem().groundActions ==> Clean !in a.addEffects
  {
    forall a | a in DinnerProblem().groundActions
      ensures Clean !in a.addEffects
    {
      OnlyAdders(a);
    }
  }

  /** Which action a solving plan must contain, and where. */
  lemma SolutionUses(plan: seq<GroundAction>) returns (i: nat, j: nat, k: nat)
    requires Solves(DinnerProblem(), plan)
    ensures i < |plan| && plan[i] == Cook
    ensures j < |plan| && plan[j] == Wrap
    ensures k < |plan| && plan[k] == Carry
  {
    var p := DinnerProblem();
    var root := Root(p);
    var last := Execute(root, plan);
    assert DinnerFact in last.state && Present in last.state && Garbage !in last.state;
    TrueFactWasAdded(root, plan, DinnerFact);
    i :| 0 <= i < |plan| && DinnerFact in plan[i].addEffects;
    ExecutableAt(p, root, plan, i);
    OnlyAdders(plan[i]);
    TrueFactWasAdded(root, plan, Present);
    j :| 0 <= j < |plan| && Present in plan[j].addEffects;
    ExecutableAt(p, root, plan, j);
    OnlyAdders(plan[j]);
    FalseFactWasDeleted(root, plan, Garbage);
    k :| 0 <= k < |plan| && Garbage in plan[k].delEffects;
    ExecutableAt(p, root, plan, k);
    OnlyAdders(plan[k]);
  }

  /** No plan shorter than three actions solves the problem. */
  lemma SolutionsNeedThreeActions(plan: seq<GroundAction>)
    requires Solves(DinnerProblem(), plan)
    ensures |plan| >= 3
  {
    var i, j, k := SolutionUses(plan);
  }

  /** Right after `carry`, the kitchen is not clean. */
  lemma CarryRemovesClean(plan: seq<GroundAction>, k: nat)
    requires k < |plan| && plan[k] == Carry
    ensures Clean !in Execute(Root(DinnerProblem()), plan[..k + 1]).state
  {
    var prefix := plan[..k + 1];
    assert prefix[..|prefix| - 1] == plan[..k];
    assert prefix[|prefix| - 1] == Carry;
  }

  /** Once `carry` has removed `clean`, nothing can cook: no action adds `clean` back. */
  lemma CookComesBeforeCarry(plan: seq<GroundAction>, i: nat, k: nat)
    requires Executable(DinnerProblem(), Root(DinnerProblem()), plan)
    requires i < |plan| && plan[i] == Cook
    requires k < |plan| && plan[k] == Carry
    ensures i < k
  {
    if k < i {
      ExecutableAt(DinnerProblem(), Root(DinnerProblem()), plan, i);
      CarryRemovesClean(plan, k);
      NothingAddsClean();
      NeverAddedStaysFalse(DinnerProblem(), Root(DinnerProblem()), plan, k + 1, i, Clean);
      assert false;
    }
  }

  /** The shortest solutions are exactly the three orders that cook before carrying the garbage out. */
  lemma ShortestSolutions(plan: seq<GroundAction>)
    requires |plan| == 3
    ensures Solves(DinnerProblem(), plan) <==>
              plan == [Cook, Wrap, Carry] || plan == [Wrap, Cook, Carry] || plan == [Cook, Carry, Wrap]
  {
    if Solves(DinnerProblem(), plan) {
      var i, j, k := SolutionUses(plan);
      CookComesBeforeCarry(plan, i, k);
      assert i != j && j != k;
    } else {
      ExpectedPlanSolves();
      SwappedPlanSolves();
      LateWrapSolves();
    }
  }

  /**
   * `breadth_first_search` on the dinner example returns a plan that solves
   * it; being a shortest plan, it has three actions and is one of the three
   * orders that cook before carrying the garbage out.
   */
  method SolveDinner() returns (plan: seq<GroundAction>)
    ensures Solves(DinnerProblem(), plan)
    ensures |plan| == 3
    ensures plan == [Cook, Wrap, Carry] || plan == [Wrap, Cook, Carry] || plan == [Cook, Carry, Wrap]
  {
    var r := BreadthFirstSearch(DinnerProblem());
    ExpectedPlanSolves();
    assert r.Some?;
    plan := r.value;
    assert |plan| <= |[Cook, Wrap, Carry]|;
    SolutionsNeedThreeActions(plan);
    ShortestSolutions(plan);
  }

  // ---------------------------------------------------------------------------
  // The precondition relaxations of the dinner example
  // ---------------------------------------------------------------------------

  /**
   * As written, `parameterize` yields relaxations of the dinner example, yet
   * in each one cooking still needs a clean kitchen: the tuples it subtracts
   * are whole precondition sets, which are never facts.
   */
  lemma DinnerParameterizeAsWritten()
    ensures AsWrittenParameterize(DinnerProblem()).Success?
    ensures AsWrittenParameterize(DinnerProblem()).value != map[]
    ensures forall p :: p in AsWrittenParameterize(DinnerProblem()).value ==>
              AsWrittenParameterize(DinnerProblem()).value[p].groundActions[0].positivePreconditions == {Clean}
  {
    var problem := DinnerProblem();
    var c := DinnerPosSet();
    AsWrittenParameterizeAt(problem, {c});
    DinnerFactsNonEmpty();
    AsWrittenRelaxesNothing(problem);
  }

  lemma DinnerFactsNonEmpty()
    ensures NonEmptyFacts(DinnerProblem())
  {
    var ga := DinnerProblem().groundActions;
    forall i | 0 <= i < |ga|
      ensures NonEmptyAction(ga[i])
    {
      NonEmptyDinnerAction(ga[i]);
    }
  }

  lemma NonEmptyDinnerAction(a: GroundAction)
    requires a in DinnerProblem().groundActions
    ensures NonEmptyAction(a)
  {
    if a == Cook {
      assert a.positivePreconditions == {Clean};
    } else if a == Wrap {
      assert a.positivePreconditions == {Quiet};
    } else {
      assert a.delEffects == {Garbage, Clean};
    }
  }

  /** `pos_set` as written holds the tuple of `cook`'s preconditions and at least one other tuple. */
  lemma DinnerPosSet() returns (c: PyValue)
    ensures c in AsWrittenPosSet(DinnerProblem().groundActions)
    ensures {c} != AsWrittenPosSet(DinnerProblem().groundActions)
  {
    var ga := DinnerProblem().groundActions;
    EnumerateSingleton(Clean);
    EnumerateSingleton(Quiet);
    c := TupleOfFacts([Clean]);
    var q := TupleOfFacts([Quiet]);
    assert c == TupleOfFacts(Enumerate(ga[0].positivePreconditions));
    assert q == TupleOfFacts(Enumerate(ga[1].positivePreconditions));
    assert c.items[0].items[0] == Str("clean");
    assert q.items[0].items[0] == Str("quiet");
    assert q in AsWrittenPosSet(ga);
  }

  /** With `pos_set` the set of precondition facts, relaxing `clean` lets cooking start unconditionally. */
  lemma DinnerParameterizeCorrected()
    ensures Parameterize(DinnerProblem()).Success?
    ensures {Clean} in Parameterize(DinnerProblem()).value
    ensures Parameterize(DinnerProblem()).value[{Clean}].groundActions[0].positivePreconditions == {}
  {
    var ga := DinnerProblem().groundActions;
    assert Clean in ga[0].positivePreconditions && Quiet in ga[1].positivePreconditions;
    assert Clean in PreconditionFacts(ga) && Quiet in PreconditionFacts(ga);
    ParameterizeAt(DinnerProblem(), {Clean});
  }
}
