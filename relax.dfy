/**
 * planning/relax.py: the relaxed problem with its precondition counter, and
 * the two relaxing transformations (dropping a set of facts from every
 * action, dropping every delete effect) together with the parameterized
 * family of precondition relaxations.
 */
module Relax {
  import opened Actions
  import opened Results
  import opened Search
  import Util

  // ---------------------------------------------------------------------------
  // Linking facts to actions
  // ---------------------------------------------------------------------------

  /** `_link_facts` files an action under each fact of its positive preconditions and add effects. */
  predicate Linked(action: GroundAction, f: Fact)
  {
    f in action.positivePreconditions || f in action.addEffects
  }

  /** `facts[f]` after `_link_facts`: the actions filed under `f`, in ground-action order. */
  function LinkedActions(actions: seq<GroundAction>, f: Fact): (r: seq<GroundAction>)
    ensures forall a :: a in r <==> a in actions && Linked(a, f)
    ensures |r| <= |actions|
  {
    if actions == [] then []
    else
      var last := actions[|actions| - 1];
      LinkedActions(actions[..|actions| - 1], f) + (if Linked(last, f) then [last] else [])
  }

  /** The keys of `facts` after `_link_facts`: every fact some action is filed under. */
  function LinkedFacts(actions: seq<GroundAction>): (r: set<Fact>)
    ensures forall f :: f in r <==> exists i :: 0 <= i < |actions| && Linked(actions[i], f)
  {
    if actions == [] then {}
    else
      var last := actions[|actions| - 1];
      LinkedFacts(actions[..|actions| - 1]) + last.positivePreconditions + last.addEffects
  }

  /** The dictionary `_link_facts` builds. */
  function Links(actions: seq<GroundAction>): (r: map<Fact, seq<GroundAction>>)
    ensures forall f :: f in r <==> exists i :: 0 <= i < |actions| && Linked(actions[i], f)
    ensures forall f, a :: f in r ==> (a in r[f] <==> a in actions && Linked(a, f))
  {
    map f | f in LinkedFacts(actions) :: LinkedActions(actions, f)
  }

  /** `precond_count` after `_link_facts`: each ground action counted by the size of its positive preconditions. */
  function PreconditionCounts(actions: seq<GroundAction>): (r: map<GroundAction, int>)
    ensures forall a :: a in r <==> a in actions
    ensures forall a :: a in r ==> r[a] == |a.positivePreconditions| && r[a] >= 0
  {
    map a | a in actions :: |a.positivePreconditions|
  }

  /** Reading a `defaultdict(list)`: a missing fact has no actions. */
  function LinksOf(links: map<Fact, seq<GroundAction>>, f: Fact): seq<GroundAction>
  {
    if f in links then links[f] else []
  }

  /** An action is filed under exactly its precondition and add-effect facts. */
  lemma LinksFileEveryFact(actions: seq<GroundAction>, a: GroundAction, f: Fact)
    requires a in actions
    ensures a in LinksOf(Links(actions), f) <==> Linked(a, f)
    ensures PreconditionCounts(actions)[a] == |a.positivePreconditions|
  {
    if Linked(a, f) {
      var i :| 0 <= i < |actions| && actions[i] == a;
      assert f in LinkedFacts(actions);
    }
  }

  /** A fact no action is filed under has no actions. */
  lemma UnlinkedFactHasNoActions(actions: seq<GroundAction>, f: Fact)
    requires f !in LinkedFacts(actions)
    ensures LinkedActions(actions, f) == []
  {
    var r := LinkedActions(actions, f);
    if r != [] {
      assert false;
    }
  }

  /** Linking one more action. */
  lemma LinksAppend(done: seq<GroundAction>, act: GroundAction)
    ensures LinkedFacts(done + [act]) == LinkedFacts(done) + act.positivePreconditions + act.addEffects
    ensures forall f :: LinkedActions(done + [act], f) == LinkedActions(done, f) + (if Linked(act, f) then [act] else [])
    ensures PreconditionCounts(done + [act]) == PreconditionCounts(done)[act := |act.positivePreconditions|]
  {
    assert (done + [act])[..|done|] == done;
    var m, m' := PreconditionCounts(done + [act]), PreconditionCounts(done)[act := |act.positivePreconditions|];
    assert forall a :: a in done + [act] <==> a in done || a == act;
    assert m.Keys == m'.Keys;
  }

  /**
   * `_link_facts`: counts the positive preconditions of every ground action and
   * files each action under each fact of its positive preconditions and add
   * effects. It fails (the source's assertion) on the first action with a
   * negative precondition.
   */
  method LinkFacts(actions: seq<GroundAction>) returns (r: Result<(map<Fact, seq<GroundAction>>, map<GroundAction, int>), string>)
    ensures r.Failure? <==> !NoNegativePreconditions(actions)
    ensures r.Success? ==> r.value.0 == Links(actions) && r.value.1 == PreconditionCounts(actions)
  {
    var counts: map<GroundAction, int> := map[];
    for i := 0 to |actions|
      invariant counts == PreconditionCounts(actions[..i])
    {
      assert actions[..i + 1] == actions[..i] + [actions[i]];
      LinksAppend(actions[..i], actions[i]);
      counts := counts[actions[i] := |actions[i].positivePreconditions|];
    }
    assert actions[..|actions|] == actions;
    var facts: map<Fact, seq<GroundAction>> := map[];
    for i := 0 to |actions|
      invariant NoNegativePreconditions(actions[..i])
      invariant facts == Links(actions[..i])
    {
      var act := actions[i];
      if act.negativePreconditions != {} {
        assert !NoNegativePreconditions(actions);
        return Failure("action has negative preconditions");
      }
      assert actions[..i + 1] == actions[..i] + [act];
      facts := FileAction(facts, actions[..i], act);
    }
    assert actions[..|actions|] == actions;
    r := Success((facts, counts));
  }

  /** The inner loop of `_link_facts`: file one more action under each of its linked facts. */
  method FileAction(facts: map<Fact, seq<GroundAction>>, done: seq<GroundAction>, act: GroundAction)
    returns (facts': map<Fact, seq<GroundAction>>)
    requires facts == Links(done)
    ensures facts' == Links(done + [act])
  {
    var remaining := act.positivePreconditions + act.addEffects;
    ghost var filed := {};
    facts' := facts;
    while remaining != {}
      invariant remaining + filed == act.positivePreconditions + act.addEffects
      invariant remaining !! filed
      invariant PartlyFiled(facts', done, act, filed)
      decreases remaining
    {
      var p :| p in remaining;
      FileStep(facts', done, act, filed, p);
      facts' := facts'[p := LinksOf(facts', p) + [act]];
      filed := filed + {p};
      remaining := remaining - {p};
    }
    FiledAll(facts', done, act);
  }

  /** `facts` after filing `act` under the facts of `filed`, having filed every action of `done`. */
  ghost predicate PartlyFiled(facts: map<Fact, seq<GroundAction>>, done: seq<GroundAction>, act: GroundAction, filed: set<Fact>)
  {
    && facts.Keys == LinkedFacts(done) + filed
    && forall f :: f in facts ==> facts[f] == LinkedActions(done, f) + (if f in filed then [act] else [])
  }

  lemma FileStep(facts: map<Fact, seq<GroundAction>>, done: seq<GroundAction>, act: GroundAction, filed: set<Fact>, p: Fact)
    requires PartlyFiled(facts, done, act, filed) && p !in filed
    ensures PartlyFiled(facts[p := LinksOf(facts, p) + [act]], done, act, filed + {p})
  {
    var facts' := facts[p := LinksOf(facts, p) + [act]];
    if p !in facts {
      UnlinkedFactHasNoActions(done, p);
    }
    assert LinksOf(facts, p) == LinkedActions(done, p);
    assert facts'.Keys == LinkedFacts(done) + (filed + {p});
    forall f | f in facts'
      ensures facts'[f] == LinkedActions(done, f) + (if f in filed + {p} then [act] else [])
    {
      if f != p {
        assert facts'[f] == facts[f];
      }
    }
  }

  lemma FiledAll(facts: map<Fact, seq<GroundAction>>, done: seq<GroundAction>, act: GroundAction)
    requires PartlyFiled(facts, done, act, act.positivePreconditions + act.addEffects)
    ensures facts == Links(done + [act])
  {
    var m := Links(done + [act]);
    LinksAppend(done, act);
    LinksKeys(done + [act]);
    assert facts.Keys == m.Keys;
    forall f | f in facts
      ensures facts[f] == m[f]
    {
      var filed := act.positivePreconditions + act.addEffects;
      assert f in filed <==> Linked(act, f);
    }
    MapsAgree(facts, m);
  }

  /** Two maps with the same keys and the same value at every key are equal. */
  lemma MapsAgree<K, V>(a: map<K, V>, b: map<K, V>)
    requires a.Keys == b.Keys && forall k :: k in a ==> a[k] == b[k]
    ensures a == b
  {
  }

  /** The facts `_link_facts` files something under are the keys of its dictionary. */
  lemma LinksKeys(actions: seq<GroundAction>)
    ensures Links(actions).Keys == LinkedFacts(actions)
    ensures forall f :: f in Links(actions) ==> Links(actions)[f] == LinkedActions(actions, f)
  {
  }

  // ---------------------------------------------------------------------------
  // Counters
  // ---------------------------------------------------------------------------

  /** `counter[k]`: a missing key counts 0. */
  function CounterGet(c: map<GroundAction, int>, k: GroundAction): (r: int)
    ensures k in c ==> r == c[k]
    ensures k !in c ==> r == 0
  {
    if k in c then c[k] else 0
  }

  /** `c += d` on Counters: add the counts key by key, then keep only the positive ones. */
  function CounterAdd(c: map<GroundAction, int>, d: map<GroundAction, int>): (r: map<GroundAction, int>)
    ensures forall k :: k in r ==> r[k] > 0
    ensures forall k :: k in c || k in d ==>
              CounterGet(c, k) + CounterGet(d, k) > 0 ==> k in r && r[k] == CounterGet(c, k) + CounterGet(d, k)
    ensures forall k :: k in r ==> CounterGet(r, k) == CounterGet(c, k) + CounterGet(d, k)
    ensures forall k :: k !in r ==> CounterGet(c, k) + CounterGet(d, k) <= 0
  {
    map k | k in c.Keys + d.Keys && CounterGet(c, k) + CounterGet(d, k) > 0 :: CounterGet(c, k) + CounterGet(d, k)
  }

  /** The actions filed under some fact of `state`. */
  function LinkedTo(links: map<Fact, seq<GroundAction>>, state: State): set<GroundAction>
  {
    set f, a | f in state && a in LinksOf(links, f) :: a
  }

  /** The facts of `state` under which `a` is filed. */
  function SupportingFacts(links: map<Fact, seq<GroundAction>>, state: State, a: GroundAction): set<Fact>
  {
    set f | f in state && a in LinksOf(links, f)
  }

  /**
   * `subtraction` in `RelaxedProblem.applicable`: minus one for each fact of
   * the state an action is filed under.
   */
  function Subtraction(links: map<Fact, seq<GroundAction>>, state: State): (r: map<GroundAction, int>)
    ensures r.Keys == LinkedTo(links, state)
    ensures forall a :: a in r ==> r[a] == -|SupportingFacts(links, state, a)| && r[a] < 0
  {
    SupportIsNonEmpty(links, state);
    map a | a in LinkedTo(links, state) :: -|SupportingFacts(links, state, a)|
  }

  lemma SupportIsNonEmpty(links: map<Fact, seq<GroundAction>>, state: State)
    ensures forall a :: a in LinkedTo(links, state) ==> |SupportingFacts(links, state, a)| > 0
  {
    forall a | a in LinkedTo(links, state)
      ensures |SupportingFacts(links, state, a)| > 0
    {
      var f :| f in state && a in LinksOf(links, f);
      assert f in SupportingFacts(links, state, a);
    }
  }

  /** Indexing a `defaultdict(list)` with each fact of the state inserts the missing ones with no actions. */
  function TouchKeys(links: map<Fact, seq<GroundAction>>, state: State): (r: map<Fact, seq<GroundAction>>)
    ensures r.Keys == links.Keys + state
    ensures forall f :: f in r ==> r[f] == LinksOf(links, f)
  {
    map f | f in links.Keys + state :: LinksOf(links, f)
  }

  /** The result of `applicable`: some action touched by the subtraction has no precondition left to meet. */
  predicate Flagged(counts: map<GroundAction, int>, subtraction: map<GroundAction, int>)
    ensures Flagged(counts, subtraction) ==> subtraction != map[]
    ensures (exists k :: k in subtraction && k !in counts) ==> Flagged(counts, subtraction)
  {
    exists k :: k in subtraction && CounterGet(counts, k) <= 0
  }

  // ---------------------------------------------------------------------------
  // The relaxed problem
  // ---------------------------------------------------------------------------

  /**
   * `RelaxedProblem`: the underlying problem (the parser's output, taken as a
   * value), the links and counters of `_link_facts`, the last subtraction and
   * the estimated number of actions. The source computes the estimate by
   * calling `heuristic()` with no argument, which no heuristic accepts, so
   * here it is an unconstrained parameter of the constructor.
   */
  class RelaxedProblem {
    const problem: Problem
    const estimatedNumActions: int
    var linkedFacts: map<Fact, seq<GroundAction>>
    var precondCount: map<GroundAction, int>
    var subtraction: map<GroundAction, int>

    constructor (problem: Problem, estimatedNumActions: int,
                 linkedFacts: map<Fact, seq<GroundAction>>, precondCount: map<GroundAction, int>)
      ensures this.problem == problem && this.estimatedNumActions == estimatedNumActions
      ensures this.linkedFacts == linkedFacts && this.precondCount == precondCount
      ensures subtraction == map[]
    {
      this.problem := problem;
      this.estimatedNumActions := estimatedNumActions;
      this.linkedFacts := linkedFacts;
      this.precondCount := precondCount;
      subtraction := map[];
    }

    /**
     * `h`: the estimate minus the facts already true. It never exceeds the
     * estimate, and reaches it only in the empty state.
     */
    function H(state: State): (r: int)
      ensures r <= estimatedNumActions
      ensures r == estimatedNumActions <==> state == {}
    {
      estimatedNumActions - |state|
    }

    /**
     * `RelaxedProblem.apply`: the delete-free successor, costed by the
     * estimate of the facts it still lacks.
     */
    function Apply(node: Node, action: GroundAction): (r: Node)
      ensures forall f :: f in r.state <==> f in node.state || f in action.addEffects
      ensures node.state <= r.state
      ensures r.cost == node.cost + H(r.state) && r.actions == node.actions + [action]
      ensures r.state == Search.Apply(node, WithoutDeleteEffects(action)).state
    {
      var state := node.state + action.addEffects;
      Node(state, node.cost + H(state), node.actions + [action])
    }

    /**
     * `RelaxedProblem.applicable`: subtracts, for every action, the facts of the
     * node's state it is filed under from the running precondition counter,
     * and reports whether some touched action has nothing left to meet. The
     * counter carries over from call to call. A negative precondition fails
     * the source's assertion.
     */
    method Applicable(node: Node, positive: set<Fact>, negative: set<Fact>) returns (r: Result<bool, string>)
      modifies this
      ensures negative != {} ==> r.Failure? && unchanged(this)
      ensures negative == {} ==>
                && linkedFacts == TouchKeys(old(linkedFacts), node.state)
                && subtraction == Subtraction(old(linkedFacts), node.state)
                && precondCount == CounterAdd(old(precondCount), subtraction)
                && r == Success(Flagged(precondCount, subtraction))
    {
      if negative != {} {
        return Failure("relaxed problems have no negative preconditions");
      }
      var links := linkedFacts;
      var sub := Subtraction(links, node.state);
      var counts := CounterAdd(precondCount, sub);
      linkedFacts, subtraction, precondCount := TouchKeys(links, node.state), sub, counts;
      r := Success(Flagged(counts, sub));
    }
  }

  /**
   * `RelaxedProblem(heuristic)`: links the facts of the problem's ground
   * actions; construction fails when `_link_facts` does.
   */
  method NewRelaxedProblem(problem: Problem, estimatedNumActions: int) returns (r: Option<RelaxedProblem>)
    ensures r.None? <==> !NoNegativePreconditions(problem.groundActions)
    ensures r.Some? ==>
              && fresh(r.value)
              && r.value.problem == problem && r.value.estimatedNumActions == estimatedNumActions
              && r.value.linkedFacts == Links(problem.groundActions)
              && r.value.precondCount == PreconditionCounts(problem.groundActions)
              && r.value.subtraction == map[]
  {
    var linked := LinkFacts(problem.groundActions);
    if linked.Failure? {
      return None;
    }
    var rp := new RelaxedProblem(problem, estimatedNumActions, linked.value.0, linked.value.1);
    r := Some(rp);
  }

  /** The precondition counter after one `applicable` call on a fresh relaxed problem. */
  function FirstCount(actions: seq<GroundAction>, state: State): map<GroundAction, int>
  {
    CounterAdd(PreconditionCounts(actions), Subtraction(Links(actions), state))
  }

  /**
   * On a freshly linked problem, an action whose positive preconditions all
   * hold in the state, and which has at least one, is flagged.
   */
  lemma SatisfiedActionIsFlagged(actions: seq<GroundAction>, state: State, a: GroundAction)
    requires a in actions
    requires a.positivePreconditions != {} && a.positivePreconditions <= state
    ensures a in Subtraction(Links(actions), state)
    ensures CounterGet(FirstCount(actions, state), a) <= 0
    ensures Flagged(FirstCount(actions, state), Subtraction(Links(actions), state))
  {
    var links := Links(actions);
    var sub := Subtraction(links, state);
    var support := SupportingFacts(links, state, a);
    PreconditionsSupport(actions, state, a);
    Util.SubsetCardinality(a.positivePreconditions, support);
    var f :| f in a.positivePreconditions;
    assert f in support;
    assert a in LinkedTo(links, state);
    LinksFileEveryFact(actions, a, f);
    assert CounterGet(PreconditionCounts(actions), a) + CounterGet(sub, a) <= 0;
    CounterAddNonPositive(PreconditionCounts(actions), sub, a);
  }

  /** A key whose two counts sum to at most zero counts at most zero in the sum. */
  lemma CounterAddNonPositive(c: map<GroundAction, int>, d: map<GroundAction, int>, k: GroundAction)
    requires CounterGet(c, k) + CounterGet(d, k) <= 0
    ensures CounterGet(CounterAdd(c, d), k) <= 0
  {
  }

  /** Each positive precondition of `a` that holds in the state supports `a`. */
  lemma PreconditionsSupport(actions: seq<GroundAction>, state: State, a: GroundAction)
    requires a in actions && a.positivePreconditions <= state
    ensures a.positivePreconditions <= SupportingFacts(Links(actions), state, a)
  {
    forall f | f in a.positivePreconditions
      ensures f in SupportingFacts(Links(actions), state, a)
    {
      LinksFileEveryFact(actions, a, f);
    }
  }

  /** The estimate `h` never grows as facts are added. */
  lemma HAntitone(rp: RelaxedProblem, s: State, t: State)
    requires s <= t
    ensures rp.H(t) <= rp.H(s)
  {
    Util.SubsetCardinality(s, t);
  }

  /** The cost `apply` adds is at most the estimate at the node it starts from. */
  lemma ApplyCostBounded(rp: RelaxedProblem, node: Node, action: GroundAction)
    ensures rp.Apply(node, action).cost <= node.cost + rp.H(node.state)
  {
    HAntitone(rp, node.state, rp.Apply(node, action).state);
  }

  // ---------------------------------------------------------------------------
  // Relaxing preconditions
  // ---------------------------------------------------------------------------

  /**
   * The loop body of `RelaxPrecondition.apply`: the facts of `p` leave the
   * action's positive preconditions, add effects and delete effects; nothing
   * else of the action changes.
   */
  function StripAction(a: GroundAction, p: set<Fact>): (r: GroundAction)
    ensures r.positivePreconditions <= a.positivePreconditions && r.positivePreconditions !! p
    ensures a.positivePreconditions <= r.positivePreconditions + p
    ensures r.addEffects <= a.addEffects && r.addEffects !! p && a.addEffects <= r.addEffects + p
    ensures r.delEffects <= a.delEffects && r.delEffects !! p && a.delEffects <= r.delEffects + p
    ensures r.negativePreconditions == a.negativePreconditions
    ensures r.name == a.name && r.parameters == a.parameters && r.cost == a.cost
  {
    a.(positivePreconditions := a.positivePreconditions - p,
       addEffects := a.addEffects - p,
       delEffects := a.delEffects - p)
  }

  /** `StripAction` applied to each action of a list, in order. */
  function StripAll(actions: seq<GroundAction>, p: set<Fact>): (r: seq<GroundAction>)
    ensures |r| == |actions|
    ensures forall i :: 0 <= i < |actions| ==> r[i] == StripAction(actions[i], p)
  {
    seq(|actions|, i requires 0 <= i < |actions| => StripAction(actions[i], p))
  }

  lemma StripAllAppend(actions: seq<GroundAction>, i: nat, p: set<Fact>)
    requires i < |actions|
    ensures StripAll(actions[..i + 1], p) == StripAll(actions[..i], p) + [StripAction(actions[i], p)]
  {
    assert actions[..i + 1] == actions[..i] + [actions[i]];
  }

  /**
   * The problem `RelaxPrecondition.apply` returns: every ground action
   * stripped of `p`, and `p` removed from the positive goals. The initial
   * state and the negative goals stay as they were.
   */
  function PreconditionRelaxation(problem: Problem, p: set<Fact>): Problem
  {
    problem.(groundActions := StripAll(problem.groundActions, p), positiveGoals := problem.positiveGoals - p)
  }

  /**
   * `RelaxPrecondition.apply(problem, predicates)`: fails on an empty list of
   * predicates and on any action with negative preconditions; otherwise the
   * precondition relaxation by the set of the predicates.
   */
  method RelaxPreconditions(problem: Problem, predicates: seq<Fact>) returns (r: Result<Problem, string>)
    ensures r.Failure? <==> predicates == [] || !NoNegativePreconditions(problem.groundActions)
    ensures r.Success? ==> r.value == PreconditionRelaxation(problem, Util.FrozensetOfTuples(predicates))
  {
    if predicates == [] {
      return Failure("cannot relax action preconditions with an empty predicate.");
    }
    var predSet := Util.FrozensetOfTuples(predicates);
    var actions := StripActions(problem.groundActions, predSet);
    if actions.Failure? {
      return Failure(actions.error);
    }
    r := Success(problem.(groundActions := actions.value, positiveGoals := problem.positiveGoals - predSet));
  }

  /** The loop of `RelaxPrecondition.apply` over the actions. */
  method StripActions(actions: seq<GroundAction>, p: set<Fact>) returns (r: Result<seq<GroundAction>, string>)
    ensures r.Failure? <==> !NoNegativePreconditions(actions)
    ensures r.Success? ==> r.value == StripAll(actions, p)
  {
    var stripped: seq<GroundAction> := [];
    for i := 0 to |actions|
      invariant forall j :: 0 <= j < i ==> actions[j].negativePreconditions == {}
      invariant stripped == StripAll(actions[..i], p)
    {
      if actions[i].negativePreconditions != {} {
        return Failure("predicate cannot be applied to actions with negative preconditions.");
      }
      StripAllAppend(actions, i, p);
      stripped := stripped + [StripAction(actions[i], p)];
    }
    assert actions[..|actions|] == actions;
    r := Success(stripped);
  }

  /**
   * What the relaxation tests check: each relaxed action's preconditions are
   * a subset of the original's, strictly smaller when `p` meets them, and the
   * negative preconditions are untouched; the goals shrink the same way.
   */
  lemma PreconditionRelaxationShrinks(problem: Problem, p: set<Fact>, i: nat)
    requires i < |problem.groundActions|
    ensures var a, b := problem.groundActions[i], PreconditionRelaxation(problem, p).groundActions[i];
            && b.positivePreconditions <= a.positivePreconditions
            && (a.positivePreconditions * p != {} ==> |b.positivePreconditions| < |a.positivePreconditions|)
            && b.negativePreconditions == a.negativePreconditions
    ensures PreconditionRelaxation(problem, p).positiveGoals <= problem.positiveGoals
    ensures PreconditionRelaxation(problem, p).negativeGoals == problem.negativeGoals
    ensures |PreconditionRelaxation(problem, p).groundActions| == |problem.groundActions|
  {
    var a, b := problem.groundActions[i], PreconditionRelaxation(problem, p).groundActions[i];
    if a.positivePreconditions * p != {} {
      var f :| f in a.positivePreconditions * p;
      assert f !in b.positivePreconditions;
      assert b.positivePreconditions < a.positivePreconditions;
    }
  }

  /**
   * Running a plan in the precondition relaxation: outside `p` the relaxed
   * state is the original state, and the facts of `p` keep their initial
   * truth values, since no relaxed action mentions them.
   */
  lemma {:induction false} RelaxedExecution(problem: Problem, p: set<Fact>, plan: seq<GroundAction>)
    requires NoNegativePreconditions(problem.groundActions)
    requires Executable(problem, Root(problem), plan)
    ensures Executable(PreconditionRelaxation(problem, p), Root(PreconditionRelaxation(problem, p)), StripAll(plan, p))
    ensures Execute(Root(PreconditionRelaxation(problem, p)), StripAll(plan, p)).state - p
            == Execute(Root(problem), plan).state - p
    ensures Execute(Root(PreconditionRelaxation(problem, p)), StripAll(plan, p)).state * p == problem.state * p
  {
    var relaxed := PreconditionRelaxation(problem, p);
    var stripped := StripAll(plan, p);
    if plan != [] {
      var init, last := plan[..|plan| - 1], plan[|plan| - 1];
      RelaxedExecution(problem, p, init);
      assert stripped[..|stripped| - 1] == StripAll(init, p);
      var k :| 0 <= k < |problem.groundActions| && problem.groundActions[k] == last;
      assert relaxed.groundActions[k] == StripAction(last, p);
      RelaxedStep(Execute(Root(relaxed), StripAll(init, p)), Execute(Root(problem), init), last, p);
    }
  }

  /** One step of `RelaxedExecution`. */
  lemma RelaxedStep(relaxedNode: Node, node: Node, a: GroundAction, p: set<Fact>)
    requires a.negativePreconditions == {} && Enabled(node, a)
    requires relaxedNode.state - p == node.state - p
    ensures Enabled(relaxedNode, StripAction(a, p))
    ensures Apply(relaxedNode, StripAction(a, p)).state - p == Apply(node, a).state - p
    ensures Apply(relaxedNode, StripAction(a, p)).state * p == relaxedNode.state * p
  {
    assert a.positivePreconditions - p <= node.state - p;
    var r, n := Apply(relaxedNode, StripAction(a, p)).state, Apply(node, a).state;
    forall f | f !in p
      ensures f in r <==> f in n
    {
      assert (f in relaxedNode.state - p) == (f in node.state - p);
    }
  }

  /**
   * Relaxing preconditions is optimistic: a plan that solves the problem,
   * stripped of `p`, solves the relaxation, provided no negative goal is
   * relaxed away.
   */
  lemma PreconditionRelaxationIsOptimistic(problem: Problem, p: set<Fact>, plan: seq<GroundAction>)
    requires NoNegativePreconditions(problem.groundActions)
    requires problem.negativeGoals !! p
    requires Solves(problem, plan)
    ensures Solves(PreconditionRelaxation(problem, p), StripAll(plan, p))
  {
    RelaxedExecution(problem, p, plan);
    var relaxed := PreconditionRelaxation(problem, p);
    var s := Execute(Root(problem), plan).state;
    var t := Execute(Root(relaxed), StripAll(plan, p)).state;
    assert relaxed.positiveGoals <= t by {
      assert problem.positiveGoals - p <= s - p;
    }
    assert relaxed.negativeGoals !! t by {
      forall f | f in relaxed.negativeGoals
        ensures f !in t
      {
        assert f !in s - p && f !in p;
        assert f in t ==> f in t - p;
      }
    }
  }

  // ---------------------------------------------------------------------------
  // Relaxing delete effects
  // ---------------------------------------------------------------------------

  /** The problem `RelaxDeleteEffects.apply` returns: every ground action without its delete effects. */
  function DeleteRelaxation(problem: Problem): Problem
  {
    problem.(groundActions := seq(|problem.groundActions|,
      i requires 0 <= i < |problem.groundActions| => WithoutDeleteEffects(problem.groundActions[i])))
  }

  /**
   * `RelaxDeleteEffects.apply`: empties the delete effects of every action
   * and leaves the rest of the problem as it was.
   */
  method RelaxDeleteEffects(problem: Problem) returns (r: Problem)
    ensures r == DeleteRelaxation(problem)
    ensures |r.groundActions| == |problem.groundActions|
    ensures forall i :: 0 <= i < |r.groundActions| ==> r.groundActions[i].delEffects == {}
  {
    var actions: seq<GroundAction> := [];
    for i := 0 to |problem.groundActions|
      invariant |actions| == i
      invariant forall j :: 0 <= j < i ==> actions[j] == WithoutDeleteEffects(problem.groundActions[j])
    {
      actions := actions + [WithoutDeleteEffects(problem.groundActions[i])];
    }
    r := problem.(groundActions := actions);
  }

  /** `WithoutDeleteEffects` applied to each action of a plan. */
  function WithoutDeleteEffectsAll(plan: seq<GroundAction>): (r: seq<GroundAction>)
    ensures |r| == |plan|
    ensures forall i :: 0 <= i < |plan| ==> r[i] == WithoutDeleteEffects(plan[i])
  {
    seq(|plan|, i requires 0 <= i < |plan| => WithoutDeleteEffects(plan[i]))
  }

  /** Without delete effects, running a plan only ever makes more facts true. */
  lemma {:induction false} DeleteRelaxedExecution(problem: Problem, plan: seq<GroundAction>)
    requires NoNegativePreconditions(problem.groundActions)
    requires Executable(problem, Root(problem), plan)
    ensures Executable(DeleteRelaxation(problem), Root(DeleteRelaxation(problem)), WithoutDeleteEffectsAll(plan))
    ensures Execute(Root(problem), plan).state <= Execute(Root(DeleteRelaxation(problem)), WithoutDeleteEffectsAll(plan)).state
  {
    var relaxed := DeleteRelaxation(problem);
    var lifted := WithoutDeleteEffectsAll(plan);
    if plan != [] {
      var init, last := plan[..|plan| - 1], plan[|plan| - 1];
      DeleteRelaxedExecution(problem, init);
      assert lifted[..|lifted| - 1] == WithoutDeleteEffectsAll(init);
      var k :| 0 <= k < |problem.groundActions| && problem.groundActions[k] == last;
      assert relaxed.groundActions[k] == WithoutDeleteEffects(last);
    }
  }

  /**
   * Relaxing delete effects is optimistic: without negative preconditions and
   * negative goals, a plan that solves the problem solves its delete relaxation.
   */
  lemma DeleteRelaxationIsOptimistic(problem: Problem, plan: seq<GroundAction>)
    requires NoNegativePreconditions(problem.groundActions) && problem.negativeGoals == {}
    requires Solves(problem, plan)
    ensures Solves(DeleteRelaxation(problem), WithoutDeleteEffectsAll(plan))
  {
    DeleteRelaxedExecution(problem, plan);
  }

  // ---------------------------------------------------------------------------
  // The parameterized family of precondition relaxations
  // ---------------------------------------------------------------------------

  /** Every fact some ground action has as a positive precondition. */
  function PreconditionFacts(actions: seq<GroundAction>): (r: set<Fact>)
    ensures forall f :: f in r <==> exists i :: 0 <= i < |actions| && f in actions[i].positivePreconditions
  {
    set i, f | 0 <= i < |actions| && f in actions[i].positivePreconditions :: f
  }

  /**
   * `RelaxPrecondition.parameterize`, with `pos_set` the set of the facts
   * occurring in positive preconditions: one precondition relaxation per
   * non-empty proper subset of those facts, keyed by the subset. The first
   * relaxation fails when some action has negative preconditions; when there
   * is no subset, nothing is relaxed and nothing fails.
   */
  function Parameterize(problem: Problem): (r: Result<map<set<Fact>, Problem>, string>)
    ensures r.Failure? <==>
              Util.ReducedPowerset(PreconditionFacts(problem.groundActions)) != {}
              && !NoNegativePreconditions(problem.groundActions)
    ensures r.Success? ==> r.value.Keys == Util.ReducedPowerset(PreconditionFacts(problem.groundActions))
  {
    var subsets := Util.ReducedPowerset(PreconditionFacts(problem.groundActions));
    if subsets != {} && !NoNegativePreconditions(problem.groundActions) then
      Failure("predicate cannot be applied to actions with negative preconditions.")
    else
      Success(map p | p in subsets :: PreconditionRelaxation(problem, p))
  }

  /** Relaxing a non-empty set of precondition facts removes a precondition from some action. */
  lemma SomeActionShrinks(problem: Problem, p: set<Fact>) returns (i: nat)
    requires p != {} && p <= PreconditionFacts(problem.groundActions)
    ensures i < |problem.groundActions|
    ensures |PreconditionRelaxation(problem, p).groundActions[i].positivePreconditions|
            < |problem.groundActions[i].positivePreconditions|
  {
    var f :| f in p;
    assert f in PreconditionFacts(problem.groundActions);
    i :| 0 <= i < |problem.groundActions| && f in problem.groundActions[i].positivePreconditions;
    assert f in problem.groundActions[i].positivePreconditions * p;
    PreconditionRelaxationShrinks(problem, p, i);
  }

  /** Without negative preconditions, `parameterize` yields the precondition relaxation for each subset. */
  lemma ParameterizeAt(problem: Problem, p: set<Fact>)
    requires NoNegativePreconditions(problem.groundActions)
    requires p != {} && p <= PreconditionFacts(problem.groundActions) && p != PreconditionFacts(problem.groundActions)
    ensures Parameterize(problem).Success? && p in Parameterize(problem).value
    ensures Parameterize(problem).value[p] == PreconditionRelaxation(problem, p)
  {
    Util.ReducedPowersetMember(PreconditionFacts(problem.groundActions), p);
  }

  /**
   * Every problem `parameterize` yields is a genuine relaxation: no action
   * gains a precondition and some action loses one.
   */
  lemma ParameterizeRelaxesSomething(problem: Problem, p: set<Fact>)
    requires Parameterize(problem).Success? && p in Parameterize(problem).value
    ensures var relaxed := Parameterize(problem).value[p];
            && |relaxed.groundActions| == |problem.groundActions|
            && (forall i :: 0 <= i < |problem.groundActions| ==>
                  relaxed.groundActions[i].positivePreconditions <= problem.groundActions[i].positivePreconditions)
            && exists i :: 0 <= i < |problem.groundActions| &&
                  |relaxed.groundActions[i].positivePreconditions| < |problem.groundActions[i].positivePreconditions|
  {
    var facts := PreconditionFacts(problem.groundActions);
    assert p in Util.ReducedPowerset(facts);
    Util.ReducedPowersetMember(facts, p);
    var relaxed := PreconditionRelaxation(problem, p);
    assert Parameterize(problem).value[p] == relaxed;
    var i := SomeActionShrinks(problem, p);
    forall j | 0 <= j < |problem.groundActions|
      ensures relaxed.groundActions[j].positivePreconditions <= problem.groundActions[j].positivePreconditions
    {
      PreconditionRelaxationShrinks(problem, p, j);
    }
  }

  // ---------------------------------------------------------------------------
  // `parameterize` as written: `pos_set` holds whole precondition sets
  // ---------------------------------------------------------------------------

  /** The Python values `parameterize` compares: strings and tuples. */
  datatype PyValue = Str(s: string) | Tuple(items: seq<PyValue>)

  /** A fact as a Python tuple of strings. */
  function FactValue(f: Fact): (r: PyValue)
    ensures r.Tuple? && |r.items| == |f|
    ensures forall i :: 0 <= i < |f| ==> r.items[i] == Str(f[i])
  {
    Tuple(seq(|f|, i requires 0 <= i < |f| => Str(f[i])))
  }

  /** A sequence of facts as a Python tuple of tuples. */
  function TupleOfFacts(fs: seq<Fact>): (r: PyValue)
    ensures r.Tuple? && |r.items| == |fs|
    ensures forall i :: 0 <= i < |fs| ==> r.items[i] == FactValue(fs[i])
  {
    Tuple(seq(|fs|, i requires 0 <= i < |fs| => FactValue(fs[i])))
  }

  /** Some enumeration of a set of facts: the order `tuple(frozenset)` happens to produce. */
  ghost function Enumerate(s: set<Fact>): (r: seq<Fact>)
    ensures forall f :: f in r <==> f in s
  {
    if s == {} then []
    else
      var f :| f in s;
      [f] + Enumerate(s - {f})
  }

  lemma EnumerateSingleton(f: Fact)
    ensures Enumerate({f}) == [f]
  {
    assert {f} - {f} == {};
  }

  /** `frozenset_of_tuples(act.positive_preconditions for act in ...)`: one tuple per precondition set. */
  ghost function AsWrittenPosSet(actions: seq<GroundAction>): (r: set<PyValue>)
    ensures actions != [] ==> r != {}
    ensures forall v :: v in r ==> v.Tuple? && forall x :: x in v.items ==> x.Tuple?
    ensures forall v :: v in r ==>
              exists i :: 0 <= i < |actions| && forall f :: f in actions[i].positivePreconditions ==> FactValue(f) in v.items
  {
    PosSetShape(actions);
    var r := set i | 0 <= i < |actions| :: TupleOfFacts(Enumerate(actions[i].positivePreconditions));
    assert actions != [] ==> TupleOfFacts(Enumerate(actions[0].positivePreconditions)) in r;
    r
  }

  /** Each element of the as-written `pos_set` is the tuple of some action's precondition facts. */
  lemma PosSetShape(actions: seq<GroundAction>)
    ensures forall i :: 0 <= i < |actions| ==>
              var v := TupleOfFacts(Enumerate(actions[i].positivePreconditions));
              v.Tuple? && (forall x :: x in v.items ==> x.Tuple?) &&
              forall f :: f in actions[i].positivePreconditions ==> FactValue(f) in v.items
  {
    forall i | 0 <= i < |actions|
      ensures var v := TupleOfFacts(Enumerate(actions[i].positivePreconditions));
              v.Tuple? && (forall x :: x in v.items ==> x.Tuple?) &&
              forall f :: f in actions[i].positivePreconditions ==> FactValue(f) in v.items
    {
      var fs := Enumerate(actions[i].positivePreconditions);
      var v := TupleOfFacts(fs);
      forall f | f in actions[i].positivePreconditions
        ensures FactValue(f) in v.items
      {
        var j :| 0 <= j < |fs| && fs[j] == f;
        assert v.items[j] == FactValue(f);
      }
    }
  }

  /** Python's set difference between a set of facts and a set of tuples of facts. */
  function AsWrittenSubtract(facts: set<Fact>, predicates: set<PyValue>): (r: set<Fact>)
    ensures r <= facts
    ensures forall f :: f in facts ==> (f in r <==> FactValue(f) !in predicates)
    ensures predicates == {} ==> r == facts
  {
    set f | f in facts && FactValue(f) !in predicates
  }

  /** The relaxation `apply` builds from one element of the as-written reduced powerset. */
  function AsWrittenRelaxation(problem: Problem, predicates: set<PyValue>): (r: Problem)
    ensures |r.groundActions| == |problem.groundActions|
    ensures forall i :: 0 <= i < |r.groundActions| ==>
              var a, b := problem.groundActions[i], r.groundActions[i];
              && b.positivePreconditions <= a.positivePreconditions
              && b.addEffects <= a.addEffects && b.delEffects <= a.delEffects
              && b.negativePreconditions == a.negativePreconditions
              && b.name == a.name && b.cost == a.cost
    ensures r.state == problem.state && r.negativeGoals == problem.negativeGoals
    ensures r.positiveGoals <= problem.positiveGoals
  {
    var actions := problem.groundActions;
    problem.(
      groundActions := seq(|actions|, i requires 0 <= i < |actions| =>
        actions[i].(positivePreconditions := AsWrittenSubtract(actions[i].positivePreconditions, predicates),
                    addEffects := AsWrittenSubtract(actions[i].addEffects, predicates),
                    delEffects := AsWrittenSubtract(actions[i].delEffects, predicates))),
      positiveGoals := AsWrittenSubtract(problem.positiveGoals, predicates))
  }

  /** `parameterize` as written, with `pos_set` a set of tuples of facts. */
  ghost function AsWrittenParameterize(problem: Problem): (r: Result<map<set<PyValue>, Problem>, string>)
    ensures r.Failure? <==>
              Util.ReducedPowerset(AsWrittenPosSet(problem.groundActions)) != {} && !NoNegativePreconditions(problem.groundActions)
    ensures r.Success? ==> forall p :: p in r.value ==>
              p != {} && p <= AsWrittenPosSet(problem.groundActions) && p != AsWrittenPosSet(problem.groundActions)
    ensures r.Success? ==> forall p :: p in r.value ==> |r.value[p].groundActions| == |problem.groundActions|
  {
    var subsets := Util.ReducedPowerset(AsWrittenPosSet(problem.groundActions));
    if subsets != {} && !NoNegativePreconditions(problem.groundActions) then
      Failure("predicate cannot be applied to actions with negative preconditions.")
    else
      Success(map p | p in subsets :: AsWrittenRelaxation(problem, p))
  }

  /** Without negative preconditions, the as-written `parameterize` yields a relaxation for each subset. */
  lemma AsWrittenParameterizeAt(problem: Problem, p: set<PyValue>)
    requires NoNegativePreconditions(problem.groundActions)
    requires p != {} && p <= AsWrittenPosSet(problem.groundActions) && p != AsWrittenPosSet(problem.groundActions)
    ensures AsWrittenParameterize(problem).Success? && p in AsWrittenParameterize(problem).value
  {
    Util.ReducedPowersetMember(AsWrittenPosSet(problem.groundActions), p);
  }

  /** Every fact the problem's actions and positive goals mention has at least one symbol. */
  predicate NonEmptyFacts(problem: Problem)
  {
    && (forall f :: f in problem.positiveGoals ==> f != [])
    && forall i :: 0 <= i < |problem.groundActions| ==>
         NonEmptyAction(problem.groundActions[i])
  }

  /** Every fact an action mentions has at least one symbol. */
  predicate NonEmptyAction(a: GroundAction)
  {
    && (forall f :: f in a.positivePreconditions ==> f != [])
    && (forall f :: f in a.addEffects ==> f != [])
    && (forall f :: f in a.delEffects ==> f != [])
  }

  /** A fact with a symbol is never equal to a tuple of facts. */
  lemma FactIsNoTupleOfFacts(f: Fact, fs: seq<Fact>)
    requires f != []
    ensures FactValue(f) != TupleOfFacts(fs)
  {
    if |fs| == |f| {
      assert FactValue(f).items[0] == Str(f[0]);
      assert TupleOfFacts(fs).items[0] == FactValue(fs[0]);
    }
  }

  /** Subtracting tuples of facts from a set of facts with symbols removes nothing. */
  lemma AsWrittenSubtractsNothing(facts: set<Fact>, actions: seq<GroundAction>, predicates: set<PyValue>)
    requires forall f :: f in facts ==> f != []
    requires predicates <= AsWrittenPosSet(actions)
    ensures AsWrittenSubtract(facts, predicates) == facts
  {
    forall f | f in facts
      ensures FactValue(f) !in predicates
    {
      forall i | 0 <= i < |actions|
        ensures FactValue(f) != TupleOfFacts(Enumerate(actions[i].positivePreconditions))
      {
        FactIsNoTupleOfFacts(f, Enumerate(actions[i].positivePreconditions));
      }
    }
  }

  lemma AsWrittenActionUnchanged(a: GroundAction, actions: seq<GroundAction>, predicates: set<PyValue>)
    requires NonEmptyAction(a)
    requires predicates <= AsWrittenPosSet(actions)
    ensures a.(positivePreconditions := AsWrittenSubtract(a.positivePreconditions, predicates),
               addEffects := AsWrittenSubtract(a.addEffects, predicates),
               delEffects := AsWrittenSubtract(a.delEffects, predicates)) == a
  {
    AsWrittenSubtractsNothing(a.positivePreconditions, actions, predicates);
    AsWrittenSubtractsNothing(a.addEffects, actions, predicates);
    AsWrittenSubtractsNothing(a.delEffects, actions, predicates);
  }

  /**
   * As written, every problem `parameterize` yields is the problem it was
   * given: no precondition, effect or goal loses a fact.
   */
  lemma AsWrittenRelaxesNothing(problem: Problem)
    requires NonEmptyFacts(problem)
    requires AsWrittenParameterize(problem).Success?
    ensures forall p :: p in AsWrittenParameterize(problem).value ==> AsWrittenParameterize(problem).value[p] == problem
  {
    var actions := problem.groundActions;
    forall p | p in AsWrittenParameterize(problem).value
      ensures AsWrittenRelaxation(problem, p) == problem
    {
      var relaxed := AsWrittenRelaxation(problem, p);
      AsWrittenSubtractsNothing(problem.positiveGoals, actions, p);
      forall i | 0 <= i < |actions|
        ensures relaxed.groundActions[i] == actions[i]
      {
        AsWrittenActionUnchanged(actions[i], actions, p);
      }
      assert relaxed.groundActions == actions;
    }
  }
}
