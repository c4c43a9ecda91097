/**
 * planning/search.py: search nodes, the planning problem with its transition
 * model, successor generation and the generic graph search behind
 * breadth-first and A* search.
 */
module Search {
  import opened Actions
  import opened Results
  import Util

  /** A point of the search graph: a state, the cost paid so far, and the actions taken from the root. */
  datatype Node = Node(state: State, cost: int, actions: seq<GroundAction>)

  /**
   * The fields of `Problem` that search reads. `groundActions` is the output
   * of grounding, which is not part of this model.
   */
  datatype Problem = Problem(
    name: string,
    state: State,
    positiveGoals: set<Fact>,
    negativeGoals: set<Fact>,
    groundActions: seq<GroundAction>)

  // ---------------------------------------------------------------------------
  // Transition model
  // ---------------------------------------------------------------------------

  /** `Problem.applicable`: every positive fact holds in the node's state and no negative fact does. */
  function Applicable(node: Node, positive: set<Fact>, negative: set<Fact>): (r: bool)
    ensures r <==> (forall f :: f in positive ==> f in node.state)
                   && (forall f :: f in negative ==> f !in node.state)
  {
    positive <= node.state && negative !! node.state
  }

  /** The action's own preconditions hold in the node. */
  predicate Enabled(node: Node, action: GroundAction)
  {
    Applicable(node, action.positivePreconditions, action.negativePreconditions)
  }

  /**
   * `Problem.apply`: deletions first, then additions, so an effect that both
   * deletes and adds a fact leaves it true; the cost grows by the action's
   * cost and the action is appended to the path. The input node is a value
   * and stays as it was.
   */
  function Apply(node: Node, action: GroundAction): (r: Node)
    ensures forall f :: f in r.state <==> f in action.addEffects || (f in node.state && f !in action.delEffects)
    ensures r.cost == node.cost + action.cost
    ensures r.actions == node.actions + [action]
  {
    Node((node.state - action.delEffects) + action.addEffects, node.cost + action.cost, node.actions + [action])
  }

  /** `Problem.at_goal`: all positive goals hold in the node's state and no negative goal does. */
  function AtGoal(problem: Problem, node: Node): (r: bool)
    ensures r <==> (forall f :: f in problem.positiveGoals ==> f in node.state)
                   && (forall f :: f in problem.negativeGoals ==> f !in node.state)
  {
    problem.positiveGoals <= node.state && problem.negativeGoals !! node.state
  }

  /** `Problem.heuristic`: the null heuristic of the base problem. */
  function Heuristic(state: State): (r: int)
    ensures r == 0
  {
    0
  }

  /**
   * `generate_relaxed_action_without_delete_effects`: a copy of the action
   * whose delete effects are empty and whose other fields are unchanged.
   */
  function WithoutDeleteEffects(action: GroundAction): (r: GroundAction)
    ensures r.delEffects == {}
    ensures r.name == action.name && r.parameters == action.parameters && r.cost == action.cost
    ensures r.positivePreconditions == action.positivePreconditions
    ensures r.negativePreconditions == action.negativePreconditions
    ensures r.addEffects == action.addEffects
  {
    action.(delEffects := {})
  }

  /** Dropping delete effects can only make more facts true. */
  lemma WithoutDeleteEffectsIsOptimistic(node: Node, action: GroundAction)
    ensures Apply(node, action).state <= Apply(node, WithoutDeleteEffects(action)).state
    ensures node.state <= Apply(node, WithoutDeleteEffects(action)).state
  {
  }

  // ---------------------------------------------------------------------------
  // Successor generation
  // ---------------------------------------------------------------------------

  /** The actions of `actions` enabled in `node`, in their original order. */
  function ApplicableActions(actions: seq<GroundAction>, node: Node): (r: seq<GroundAction>)
    ensures |r| <= |actions|
    ensures forall a :: a in r <==> a in actions && Enabled(node, a)
  {
    if actions == [] then []
    else
      var last := actions[|actions| - 1];
      ApplicableActions(actions[..|actions| - 1], node) + (if Enabled(node, last) then [last] else [])
  }

  /** Filtering keeps order: it distributes over concatenation. */
  lemma {:induction false} ApplicableActionsAppend(xs: seq<GroundAction>, ys: seq<GroundAction>, node: Node)
    ensures ApplicableActions(xs + ys, node) == ApplicableActions(xs, node) + ApplicableActions(ys, node)
  {
    if ys == [] {
      assert xs + ys == xs;
    } else {
      var init := ys[..|ys| - 1];
      assert (xs + ys)[..|xs + ys| - 1] == xs + init;
      ApplicableActionsAppend(xs, init, node);
    }
  }

  /** Each enabled action is kept exactly as often as it occurs, and every other action is dropped. */
  lemma {:induction false} ApplicableActionsMultiplicity(actions: seq<GroundAction>, node: Node, a: GroundAction)
    ensures multiset(ApplicableActions(actions, node))[a] == if Enabled(node, a) then multiset(actions)[a] else 0
  {
    if actions != [] {
      var init := actions[..|actions| - 1];
      assert actions == init + [actions[|actions| - 1]];
      ApplicableActionsMultiplicity(init, node, a);
    }
  }

  /** One more action of the list is filtered as the last one. */
  lemma ApplicableActionsStep(actions: seq<GroundAction>, node: Node, i: nat)
    requires i < |actions|
    ensures ApplicableActions(actions[..i + 1], node)
            == ApplicableActions(actions[..i], node) + (if Enabled(node, actions[i]) then [actions[i]] else [])
  {
    assert actions[..i + 1][..i] == actions[..i];
  }

  /** Successors built from every enabled action hold the application of each enabled action. */
  lemma SuccessorsCover(problem: Problem, node: Node, successors: seq<Node>)
    requires |successors| == |ApplicableActions(problem.groundActions, node)|
    requires forall j :: 0 <= j < |successors| ==>
               successors[j] == Apply(node, ApplicableActions(problem.groundActions, node)[j])
    ensures forall a :: a in problem.groundActions && Enabled(node, a) ==> Apply(node, a) in successors
  {
    var taken := ApplicableActions(problem.groundActions, node);
    forall a | a in problem.groundActions && Enabled(node, a)
      ensures Apply(node, a) in successors
    {
      var k :| 0 <= k < |taken| && taken[k] == a;
      assert successors[k] == Apply(node, a);
    }
  }

  /**
   * `generate_successors`: one successor per enabled ground action, in the
   * order of `groundActions`.
   */
  method GenerateSuccessors(problem: Problem, node: Node) returns (successors: seq<Node>)
    ensures |successors| == |ApplicableActions(problem.groundActions, node)|
    ensures forall i :: 0 <= i < |successors| ==>
              successors[i] == Apply(node, ApplicableActions(problem.groundActions, node)[i])
    ensures forall a :: a in problem.groundActions && Enabled(node, a) ==> Apply(node, a) in successors
  {
    var actions := problem.groundActions;
    successors := [];
    ghost var taken: seq<GroundAction> := [];
    for i := 0 to |actions|
      invariant taken == ApplicableActions(actions[..i], node)
      invariant |successors| == |taken|
      invariant forall j :: 0 <= j < |successors| ==> successors[j] == Apply(node, taken[j])
    {
      ApplicableActionsStep(actions, node, i);
      var action := actions[i];
      if Applicable(node, action.positivePreconditions, action.negativePreconditions) {
        successors := successors + [Apply(node, action)];
        taken := taken + [action];
      }
    }
    assert actions[..|actions|] == actions;
    SuccessorsCover(problem, node, successors);
  }

  // ---------------------------------------------------------------------------
  // Plans
  // ---------------------------------------------------------------------------

  /** The sum of the costs of the actions of `plan`. */
  function PlanCost(plan: seq<GroundAction>): int
  {
    if plan == [] then 0 else PlanCost(plan[..|plan| - 1]) + plan[|plan| - 1].cost
  }

  /** The node reached by applying the actions of `plan` in turn. */
  function Execute(node: Node, plan: seq<GroundAction>): (r: Node)
    ensures r.actions == node.actions + plan
    ensures r.cost == node.cost + PlanCost(plan)
  {
    if plan == [] then node
    else Apply(Execute(node, plan[..|plan| - 1]), plan[|plan| - 1])
  }

  /** Every action of `plan` is a ground action of the problem and is enabled when its turn comes. */
  ghost predicate Executable(problem: Problem, node: Node, plan: seq<GroundAction>)
  {
    plan == [] ||
    (var init, last := plan[..|plan| - 1], plan[|plan| - 1];
     Executable(problem, node, init) && last in problem.groundActions && Enabled(Execute(node, init), last))
  }

  /** The search root: the initial state, costed by the heuristic, with no actions. */
  function Root(problem: Problem): (r: Node)
    ensures r.state == problem.state && r.actions == [] && r.cost == 0
  {
    Node(problem.state, Heuristic(problem.state), [])
  }

  /** `plan` is executable from the initial state and ends in a goal state. */
  ghost predicate Solves(problem: Problem, plan: seq<GroundAction>)
  {
    Executable(problem, Root(problem), plan) && AtGoal(problem, Execute(Root(problem), plan))
  }

  lemma ExecutableStep(problem: Problem, node: Node, plan: seq<GroundAction>, a: GroundAction)
    requires Executable(problem, node, plan)
    requires a in problem.groundActions && Enabled(Execute(node, plan), a)
    ensures Executable(problem, node, plan + [a])
    ensures Execute(node, plan + [a]) == Apply(Execute(node, plan), a)
  {
    assert (plan + [a])[..|plan|] == plan;
  }

  /** Executing `p + q` is executing `q` from where `p` ends. */
  lemma {:induction false} ExecuteAppend(node: Node, p: seq<GroundAction>, q: seq<GroundAction>)
    ensures Execute(node, p + q) == Execute(Execute(node, p), q)
  {
    if q == [] {
      assert p + q == p;
    } else {
      var init, last := q[..|q| - 1], q[|q| - 1];
      assert (p + q)[..|p + q| - 1] == p + init;
      ExecuteAppend(node, p, init);
    }
  }

  /** In an executable plan, each action is a ground action enabled after the actions before it. */
  lemma {:induction false} ExecutableAt(problem: Problem, node: Node, plan: seq<GroundAction>, i: nat)
    requires Executable(problem, node, plan)
    requires i < |plan|
    ensures plan[i] in problem.groundActions && Enabled(Execute(node, plan[..i]), plan[i])
    ensures Executable(problem, node, plan[..i])
  {
    var init := plan[..|plan| - 1];
    if i < |plan| - 1 {
      ExecutableAt(problem, node, init, i);
      assert init[..i] == plan[..i];
    }
  }

  /** A fact that was false and ends up true was added by some action of the plan. */
  lemma {:induction false} TrueFactWasAdded(node: Node, plan: seq<GroundAction>, f: Fact)
    requires f !in node.state && f in Execute(node, plan).state
    ensures exists i :: 0 <= i < |plan| && f in plan[i].addEffects
  {
    var init, last := plan[..|plan| - 1], plan[|plan| - 1];
    if f !in last.addEffects {
      TrueFactWasAdded(node, init, f);
      var i :| 0 <= i < |init| && f in init[i].addEffects;
      assert plan[i] == init[i];
    }
  }

  /** A fact that no ground action adds stays false for the rest of an executable plan. */
  lemma {:induction false} NeverAddedStaysFalse(problem: Problem, node: Node, plan: seq<GroundAction>, j: nat, i: nat, f: Fact)
    requires Executable(problem, node, plan)
    requires j <= i <= |plan|
    requires forall a :: a in problem.groundActions ==> f !in a.addEffects
    requires f !in Execute(node, plan[..j]).state
    ensures f !in Execute(node, plan[..i]).state
  {
    if j < i {
      NeverAddedStaysFalse(problem, node, plan, j, i - 1, f);
      ExecutableAt(problem, node, plan, i - 1);
      assert plan[..i][..i - 1] == plan[..i - 1];
    }
  }

  /** A fact that was true and ends up false was deleted by some action of the plan. */
  lemma {:induction false} FalseFactWasDeleted(node: Node, plan: seq<GroundAction>, f: Fact)
    requires f in node.state && f !in Execute(node, plan).state
    ensures exists i :: 0 <= i < |plan| && f in plan[i].delEffects
  {
    var init, last := plan[..|plan| - 1], plan[|plan| - 1];
    if f !in last.delEffects {
      FalseFactWasDeleted(node, init, f);
      var i :| 0 <= i < |init| && f in init[i].delEffects;
      assert plan[i] == init[i];
    }
  }

  // ---------------------------------------------------------------------------
  // Graph search
  // ---------------------------------------------------------------------------

  /** Every fact a state reachable in `problem` can hold. */
  ghost function Universe(problem: Problem): set<Fact>
  {
    problem.state + AddedFacts(problem.groundActions)
  }

  /** The add effects of a ground action lie inside the universe. */
  lemma AddsInUniverse(problem: Problem, a: GroundAction)
    requires a in problem.groundActions
    ensures a.addEffects <= Universe(problem)
  {
    var i :| 0 <= i < |problem.groundActions| && problem.groundActions[i] == a;
  }

  /** The state of a node reached from the root stays inside the universe. */
  lemma {:induction false} ExecuteInUniverse(problem: Problem, plan: seq<GroundAction>)
    requires Executable(problem, Root(problem), plan)
    ensures Execute(Root(problem), plan).state <= Universe(problem)
  {
    if plan != [] {
      var init, last := plan[..|plan| - 1], plan[|plan| - 1];
      ExecuteInUniverse(problem, init);
      AddsInUniverse(problem, last);
    }
  }

  /** The order in which the frontier hands out nodes. */
  datatype Discipline = Lifo | Fifo | Cheapest

  /** The nodes waiting in the frontier of the chosen discipline. */
  ghost function Frontier(kind: Discipline, stack: Util.Stack<Node>, queue: Util.Queue<Node>, heap: Util.PriorityQueue<Node>): multiset<Node>
    reads stack, queue, heap
  {
    match kind
    case Lifo => multiset(stack.data)
    case Fifo => multiset(queue.Contents())
    case Cheapest => multiset(heap.Items())
  }

  /** `frontier.is_empty()` for the chosen discipline. */
  function FrontierIsEmpty(kind: Discipline, stack: Util.Stack<Node>, queue: Util.Queue<Node>, heap: Util.PriorityQueue<Node>): (r: bool)
    reads stack, queue, heap
    ensures r <==> Frontier(kind, stack, queue, heap) == multiset{}
  {
    match kind
    case Lifo => stack.IsEmpty()
    case Fifo => queue.IsEmpty()
    case Cheapest => heap.IsEmpty()
  }

  /** `frontier.push(node)`; the priority queue is keyed by the node's cost. */
  method PushFrontier(kind: Discipline, stack: Util.Stack<Node>, queue: Util.Queue<Node>, heap: Util.PriorityQueue<Node>, node: Node)
    requires heap.Valid()
    modifies stack, queue, heap
    ensures heap.Valid()
    ensures Frontier(kind, stack, queue, heap) == old(Frontier(kind, stack, queue, heap)) + multiset{node}
    ensures kind == Fifo ==> queue.Contents() == old(queue.Contents()) + [node]
  {
    match kind
    case Lifo => stack.Push(node);
    case Fifo => queue.Push(node);
    case Cheapest =>
      Util.ItemsOfAppend(heap.data, Util.Entry(node.cost, heap.count, node));
      heap.Push(node, node.cost);
  }

  /** `stack.pop()` on a non-empty stack, stated on the multiset of its items. */
  method PopStack(stack: Util.Stack<Node>) returns (node: Node)
    requires stack.data != []
    modifies stack
    ensures node in old(multiset(stack.data))
    ensures multiset(stack.data) == old(multiset(stack.data)) - multiset{node}
  {
    ghost var before := stack.data;
    assert before == before[..|before| - 1] + [before[|before| - 1]];
    var r := stack.Pop();
    node := r.value;
  }

  /** `queue.pop()` on a non-empty queue: the oldest node leaves. */
  method PopQueue(queue: Util.Queue<Node>) returns (node: Node)
    requires queue.Contents() != []
    modifies queue
    ensures node == old(queue.Contents())[0] && queue.Contents() == old(queue.Contents())[1..]
    ensures node in old(multiset(queue.Contents()))
    ensures multiset(queue.Contents()) == old(multiset(queue.Contents())) - multiset{node}
  {
    ghost var before := queue.Contents();
    assert before == [before[0]] + before[1..];
    var r := queue.Pop();
    node := r.value;
  }

  /** `heap.pop()` on a non-empty priority queue, stated on the multiset of its items. */
  method PopHeap(heap: Util.PriorityQueue<Node>) returns (node: Node)
    requires heap.Valid() && heap.data != []
    modifies heap
    ensures heap.Valid()
    ensures node in old(multiset(heap.Items()))
    ensures multiset(heap.Items()) == old(multiset(heap.Items())) - multiset{node}
  {
    ghost var before := heap.data;
    Util.ItemsOfRemoveAt(before, Util.MinIndex(before));
    var r := heap.Pop();
    node := r.value;
  }

  /** `frontier.pop()` on a non-empty frontier. */
  method PopFrontier(kind: Discipline, stack: Util.Stack<Node>, queue: Util.Queue<Node>, heap: Util.PriorityQueue<Node>) returns (node: Node)
    requires heap.Valid()
    requires Frontier(kind, stack, queue, heap) != multiset{}
    modifies stack, queue, heap
    ensures heap.Valid()
    ensures node in old(Frontier(kind, stack, queue, heap))
    ensures Frontier(kind, stack, queue, heap) == old(Frontier(kind, stack, queue, heap)) - multiset{node}
    ensures kind == Fifo ==> node == old(queue.Contents())[0] && queue.Contents() == old(queue.Contents())[1..]
  {
    match kind
    case Lifo => node := PopStack(stack);
    case Fifo => node := PopQueue(queue);
    case Cheapest => node := PopHeap(heap);
  }

  /** The states of the nodes of a frontier. */
  ghost function StatesOf(frontier: multiset<Node>): set<State>
  {
    set n | n in frontier :: n.state
  }

  /** A state is covered when it has been expanded or is waiting in the frontier. */
  ghost predicate Covered(visited: set<State>, frontier: multiset<Node>, s: State)
  {
    s in visited || s in StatesOf(frontier)
  }

  /** Every enabled successor of state `s` is covered. */
  ghost predicate Closed(problem: Problem, visited: set<State>, frontier: multiset<Node>, s: State)
  {
    forall a :: a in problem.groundActions && Enabled(Node(s, 0, []), a) ==>
      Covered(visited, frontier, Apply(Node(s, 0, []), a).state)
  }

  /** Every visited state outside `except` is closed. */
  ghost predicate ClosedBut(problem: Problem, visited: set<State>, frontier: multiset<Node>, except: set<State>)
  {
    forall s :: s in visited && s !in except ==> Closed(problem, visited, frontier, s)
  }

  /** The node was reached from the root by its own actions, inside the universe. */
  ghost predicate Reached(problem: Problem, n: Node)
  {
    Executable(problem, Root(problem), n.actions) && n == Execute(Root(problem), n.actions)
    && n.state <= Universe(problem)
  }

  ghost predicate AllReached(problem: Problem, frontier: multiset<Node>)
  {
    forall n :: n in frontier ==> Reached(problem, n)
  }

  /** Visited states lie inside the universe and none of them is a goal state. */
  ghost predicate SafeVisited(problem: Problem, visited: set<State>)
  {
    forall s :: s in visited ==> s <= Universe(problem) && !AtGoal(problem, Node(s, 0, []))
  }

  /** The search invariant while the successors of the state `current` are being pushed. */
  ghost predicate Pending(problem: Problem, visited: set<State>, frontier: multiset<Node>, current: State)
  {
    && AllReached(problem, frontier)
    && Covered(visited, frontier, problem.state)
    && ClosedBut(problem, visited, frontier, {current})
  }

  /** What the search loop keeps true of the visited set and the frontier. */
  ghost predicate SearchInvariant(problem: Problem, visited: set<State>, frontier: multiset<Node>)
  {
    && AllReached(problem, frontier)
    && SafeVisited(problem, visited)
    && Covered(visited, frontier, problem.state)
    && ClosedBut(problem, visited, frontier, {})
  }

  /** Coverage survives growing the visited set and any change of frontier that keeps every state. */
  lemma CoverageMonotone(problem: Problem, visited: set<State>, frontier: multiset<Node>, except: set<State>,
                         visited': set<State>, frontier': multiset<Node>, except': set<State>)
    requires visited <= visited'
    requires StatesOf(frontier) <= visited' + StatesOf(frontier')
    requires visited' - except' <= visited - except
    ensures Covered(visited, frontier, problem.state) ==> Covered(visited', frontier', problem.state)
    ensures ClosedBut(problem, visited, frontier, except) ==> ClosedBut(problem, visited', frontier', except')
  {
    if ClosedBut(problem, visited, frontier, except) {
      forall s | s in visited' && s !in except'
        ensures Closed(problem, visited', frontier', s)
      {
        assert s in visited' - except';
        assert s in visited && s !in except;
        assert Closed(problem, visited, frontier, s);
        forall a | a in problem.groundActions && Enabled(Node(s, 0, []), a)
          ensures Covered(visited', frontier', Apply(Node(s, 0, []), a).state)
        {
          var t := Apply(Node(s, 0, []), a).state;
          assert Covered(visited, frontier, t);
          assert t in StatesOf(frontier) ==> t in visited' + StatesOf(frontier');
        }
      }
    }
  }

  lemma StatesAfterPop(frontier: multiset<Node>, node: Node)
    requires node in frontier
    ensures StatesOf(frontier) <= StatesOf(frontier - multiset{node}) + {node.state}
  {
    forall s | s in StatesOf(frontier)
      ensures s in StatesOf(frontier - multiset{node}) + {node.state}
    {
      var n :| n in frontier && n.state == s;
      if n != node {
        assert n in frontier - multiset{node};
      }
    }
  }

  lemma StatesAfterPush(frontier: multiset<Node>, node: Node)
    ensures StatesOf(frontier + multiset{node}) == StatesOf(frontier) + {node.state}
  {
  }

  /** With an empty frontier, a closed visited set holding the initial state holds every reachable state. */
  lemma {:induction false} ClosedSetHoldsReachable(problem: Problem, visited: set<State>, plan: seq<GroundAction>)
    requires problem.state in visited
    requires ClosedBut(problem, visited, multiset{}, {})
    requires Executable(problem, Root(problem), plan)
    ensures Execute(Root(problem), plan).state in visited
  {
    if plan != [] {
      var init, last := plan[..|plan| - 1], plan[|plan| - 1];
      ClosedSetHoldsReachable(problem, visited, init);
      var s := Execute(Root(problem), init).state;
      assert Closed(problem, visited, multiset{}, s);
      assert Enabled(Node(s, 0, []), last);
      assert Apply(Node(s, 0, []), last).state == Execute(Root(problem), plan).state;
    }
  }

  /** Once the frontier is empty, no executable plan reaches the goal. */
  lemma ExhaustedMeansUnsolvable(problem: Problem, visited: set<State>)
    requires SearchInvariant(problem, visited, multiset{})
    ensures forall p :: Executable(problem, Root(problem), p) ==>
              Execute(Root(problem), p).state in visited && !AtGoal(problem, Execute(Root(problem), p))
  {
    assert problem.state in visited;
    forall p | Executable(problem, Root(problem), p)
      ensures Execute(Root(problem), p).state in visited && !AtGoal(problem, Execute(Root(problem), p))
    {
      ClosedSetHoldsReachable(problem, visited, p);
      var s := Execute(Root(problem), p).state;
      assert !AtGoal(problem, Node(s, 0, []));
    }
  }

  /** A successor of a reached node is reached. */
  lemma SuccessorReached(problem: Problem, node: Node, a: GroundAction)
    requires Reached(problem, node)
    requires a in problem.groundActions && Enabled(node, a)
    ensures Reached(problem, Apply(node, a))
  {
    ExecutableStep(problem, Root(problem), node.actions, a);
    AddsInUniverse(problem, a);
  }

  /** Expanding a popped node that is not a goal keeps the invariant, except that its own state is not yet closed. */
  lemma VisitKeepsInvariant(problem: Problem, visited: set<State>, frontier: multiset<Node>, node: Node)
    requires SearchInvariant(problem, visited, frontier)
    requires node in frontier && !AtGoal(problem, node)
    ensures Reached(problem, node)
    ensures SafeVisited(problem, visited + {node.state})
    ensures Pending(problem, visited + {node.state}, frontier - multiset{node}, node.state)
  {
    StatesAfterPop(frontier, node);
    CoverageMonotone(problem, visited, frontier, {}, visited + {node.state}, frontier - multiset{node}, {node.state});
    assert !AtGoal(problem, Node(node.state, 0, []));
  }

  /** Dropping a popped node whose state was already expanded keeps the invariant. */
  lemma RevisitKeepsInvariant(problem: Problem, visited: set<State>, frontier: multiset<Node>, node: Node)
    requires SearchInvariant(problem, visited, frontier)
    requires node in frontier && node.state in visited
    ensures SearchInvariant(problem, visited, frontier - multiset{node})
  {
    StatesAfterPop(frontier, node);
    CoverageMonotone(problem, visited, frontier, {}, visited, frontier - multiset{node}, {});
  }

  /** No element occurs twice. */
  ghost predicate Distinct<T>(xs: seq<T>)
  {
    forall i, j :: 0 <= i < j < |xs| ==> xs[i] != xs[j]
  }

  /** Appending an element not yet present keeps a list free of repeats. */
  lemma DistinctAppend<T>(xs: seq<T>, x: T)
    requires Distinct(xs) && x !in xs
    ensures Distinct(xs + [x])
  {
    var longer := xs + [x];
    forall i, j | 0 <= i < j < |longer|
      ensures longer[i] != longer[j]
    {
      if j == |xs| {
        assert longer[i] in xs;
      }
    }
  }

  /** Some executable plan leads from the root to state `s`. */
  ghost predicate Reachable(problem: Problem, s: State)
  {
    exists p :: Executable(problem, Root(problem), p) && Execute(Root(problem), p).state == s
  }

  /** Every visited state is reachable. */
  ghost predicate VisitedReachable(problem: Problem, visited: set<State>)
  {
    forall s :: s in visited ==> Reachable(problem, s)
  }

  /** The actions behind the successors `generate_successors` returns. */
  lemma SuccessorsTaken(problem: Problem, node: Node, successors: seq<Node>)
    requires |successors| == |ApplicableActions(problem.groundActions, node)|
    requires forall i :: 0 <= i < |successors| ==>
               successors[i] == Apply(node, ApplicableActions(problem.groundActions, node)[i])
    ensures var taken := ApplicableActions(problem.groundActions, node);
            forall i :: 0 <= i < |taken| ==> taken[i] in problem.groundActions && Enabled(node, taken[i])
  {
    var taken := ApplicableActions(problem.groundActions, node);
    forall i | 0 <= i < |taken|
      ensures taken[i] in problem.groundActions && Enabled(node, taken[i])
    {
      assert taken[i] in taken;
    }
  }

  /** `expanded` lists the visited states, each once. */
  ghost predicate Listed(visited: set<State>, expanded: seq<State>)
  {
    Distinct(expanded) && forall s :: s in visited <==> s in expanded
  }

  /**
   * `graph_search`: pops nodes in the frontier's order, returns the actions
   * of the first node at the goal, and expands each state at most once.
   * A returned plan solves the problem; no plan is returned only when no
   * executable plan reaches the goal. `expanded` lists the expanded states
   * in order: each is reachable and none occurs twice, and when no plan is
   * returned every reachable state is among them.
   */
  method GraphSearch(kind: Discipline, problem: Problem) returns (plan: Option<seq<GroundAction>>, ghost expanded: seq<State>)
    ensures plan.Some? ==> Solves(problem, plan.value)
    ensures plan.None? ==>
              forall p :: Executable(problem, Root(problem), p) ==> !AtGoal(problem, Execute(Root(problem), p))
    ensures Distinct(expanded)
    ensures forall i :: 0 <= i < |expanded| ==> Reachable(problem, expanded[i])
    ensures plan.None? ==>
              forall p :: Executable(problem, Root(problem), p) ==> Execute(Root(problem), p).state in expanded
    ensures kind == Fifo && plan.Some? ==> forall p :: Solves(problem, p) ==> |plan.value| <= |p|
    ensures expanded != [] ==> expanded[0] == problem.state
  {
    var stack, queue, heap, frontier := Start(kind, problem);
    var visited: set<State> := {};
    expanded := [];
    while !FrontierIsEmpty(kind, stack, queue, heap)
      invariant Searching(kind, stack, queue, heap, problem, visited, expanded, frontier)
      invariant FirstExpanded(problem, expanded, frontier)
      decreases Util.Subsets(Universe(problem)) - visited, |frontier|
    {
      plan, visited, expanded, frontier := Step(kind, stack, queue, heap, problem, visited, expanded, frontier);
      if plan.Some? {
        ListedReachable(problem, visited, expanded);
        return;
      }
    }
    ListedReachable(problem, visited, expanded);
    ExhaustedListsReachable(problem, visited, expanded);
    return None, expanded;
  }

  /** Every state of the expansion order is reachable. */
  lemma ListedReachable(problem: Problem, visited: set<State>, expanded: seq<State>)
    requires Listed(visited, expanded) && VisitedReachable(problem, visited)
    ensures forall i :: 0 <= i < |expanded| ==> Reachable(problem, expanded[i])
  {
    forall i | 0 <= i < |expanded|
      ensures Reachable(problem, expanded[i])
    {
      assert expanded[i] in visited;
    }
  }

  /**
   * Once the frontier is empty, no plan reaches the goal and every
   * reachable state has been expanded.
   */
  lemma ExhaustedListsReachable(problem: Problem, visited: set<State>, expanded: seq<State>)
    requires SearchInvariant(problem, visited, multiset{}) && Listed(visited, expanded)
    ensures forall p :: Executable(problem, Root(problem), p) ==> !AtGoal(problem, Execute(Root(problem), p))
    ensures forall p :: Executable(problem, Root(problem), p) ==> Execute(Root(problem), p).state in expanded
  {
    ExhaustedMeansUnsolvable(problem, visited);
  }

  /**
   * One turn of the loop of `graph_search`: pop a node; return its actions
   * when it is at the goal; otherwise expand its state unless that state
   * was visited before.
   */
  method Step(kind: Discipline, stack: Util.Stack<Node>, queue: Util.Queue<Node>, heap: Util.PriorityQueue<Node>,
              problem: Problem, visited: set<State>, ghost expanded: seq<State>, ghost frontier: multiset<Node>)
    returns (plan: Option<seq<GroundAction>>, visited': set<State>, ghost expanded': seq<State>, ghost frontier': multiset<Node>)
    requires Searching(kind, stack, queue, heap, problem, visited, expanded, frontier) && frontier != multiset{}
    requires FirstExpanded(problem, expanded, frontier)
    modifies stack, queue, heap
    ensures heap.Valid()
    ensures plan.Some? ==> Solves(problem, plan.value)
    ensures kind == Fifo && plan.Some? ==> forall p :: Solves(problem, p) ==> |plan.value| <= |p|
    ensures Listed(visited', expanded') && VisitedReachable(problem, visited')
    ensures plan.None? ==> Searching(kind, stack, queue, heap, problem, visited', expanded', frontier')
    ensures expanded' != [] ==> expanded'[0] == problem.state
    ensures plan.None? ==> FirstExpanded(problem, expanded', frontier')
    ensures plan.None? ==>
              || Util.Subsets(Universe(problem)) - visited' < Util.Subsets(Universe(problem)) - visited
              || (visited' == visited && |frontier'| < |frontier|)
  {
    ghost var line := queue.Contents();
    var node := PopFrontier(kind, stack, queue, heap);
    ghost var rest := frontier - multiset{node};
    assert Reached(problem, node);
    FirstExpandedStep(problem, visited, expanded, frontier, node);
    if kind == Fifo {
      FrontShallowest(problem, visited, frontier, line);
      PopLayered(line);
    }
    if AtGoal(problem, node) {
      if kind == Fifo {
        ShallowestSolution(problem, visited, node);
      }
      return Some(node.actions), visited, expanded, rest;
    }
    plan := None;
    if node.state !in visited {
      assert node.state in Util.Subsets(Universe(problem));
      visited', expanded', frontier' := Visit(kind, stack, queue, heap, problem, visited, expanded, frontier, node);
    } else {
      RevisitKeepsInvariant(problem, visited, frontier, node);
      if kind == Fifo {
        LayeredOrdered(line[1..], |node.actions|);
        BreadthAfterPop(problem, visited, frontier, node);
      }
      visited', expanded', frontier' := visited, expanded, rest;
    }
  }

  /** A popped node whose state is new: record its state as visited and push its successors. */
  method Visit(kind: Discipline, stack: Util.Stack<Node>, queue: Util.Queue<Node>, heap: Util.PriorityQueue<Node>,
               problem: Problem, visited: set<State>, ghost expanded: seq<State>, ghost frontier: multiset<Node>, node: Node)
    returns (visited': set<State>, ghost expanded': seq<State>, ghost frontier': multiset<Node>)
    requires heap.Valid()
    requires Frontier(kind, stack, queue, heap) == frontier - multiset{node}
    requires SearchInvariant(problem, visited, frontier)
    requires node in frontier && !AtGoal(problem, node) && node.state !in visited
    requires Listed(visited, expanded) && VisitedReachable(problem, visited)
    requires kind == Fifo ==>
               Breadth(problem, visited, frontier) && Shallowest(problem, visited, node) && Layered(queue.Contents(), |node.actions|)
    modifies stack, queue, heap
    ensures visited' == visited + {node.state} && expanded' == expanded + [node.state]
    ensures Searching(kind, stack, queue, heap, problem, visited', expanded', frontier')
  {
    VisitKeepsInvariant(problem, visited, frontier, node);
    DistinctAppend(expanded, node.state);
    ReachedIsReachable(problem, visited, node);
    visited' := visited + {node.state};
    expanded' := expanded + [node.state];
    var successors := GenerateSuccessors(problem, node);
    ghost var taken := ApplicableActions(problem.groundActions, node);
    SuccessorsTaken(problem, node, successors);
    frontier' := Expand(kind, stack, queue, heap, problem, visited', node, successors, taken, frontier - multiset{node});
    if kind == Fifo {
      LayeredOrdered(queue.Contents(), |node.actions|);
      BreadthAfterExpand(problem, visited, frontier, node, frontier');
    }
  }

  /** Visiting the state of a reached node keeps every visited state reachable. */
  lemma ReachedIsReachable(problem: Problem, visited: set<State>, node: Node)
    requires VisitedReachable(problem, visited) && Reached(problem, node)
    ensures VisitedReachable(problem, visited + {node.state})
  {
    assert Executable(problem, Root(problem), node.actions) && Execute(Root(problem), node.actions).state == node.state;
  }

  /** Pushing a reached node keeps every part of the loop invariant of `Expand`. */
  lemma PushKeepsInvariant(problem: Problem, visited: set<State>, frontier: multiset<Node>, current: State, next: Node)
    requires Reached(problem, next)
    requires Pending(problem, visited, frontier, current)
    ensures Pending(problem, visited, frontier + multiset{next}, current)
    ensures visited + StatesOf(frontier + multiset{next}) == visited + StatesOf(frontier) + {next.state}
  {
    StatesAfterPush(frontier, next);
    CoverageMonotone(problem, visited, frontier, {current}, visited, frontier + multiset{next}, {current});
  }

  /** One step of the inner loop of `graph_search`: push `next` unless its state was visited. */
  method Offer(kind: Discipline, stack: Util.Stack<Node>, queue: Util.Queue<Node>, heap: Util.PriorityQueue<Node>,
               problem: Problem, visited: set<State>, current: State, next: Node, ghost frontier: multiset<Node>)
    returns (ghost frontier': multiset<Node>)
    requires heap.Valid()
    requires Frontier(kind, stack, queue, heap) == frontier
    requires Reached(problem, next)
    requires Pending(problem, visited, frontier, current)
    modifies stack, queue, heap
    ensures heap.Valid()
    ensures Frontier(kind, stack, queue, heap) == frontier'
    ensures Pending(problem, visited, frontier', current)
    ensures visited + StatesOf(frontier') == visited + StatesOf(frontier) + {next.state}
    ensures frontier' == if next.state in visited then frontier else frontier + multiset{next}
    ensures kind == Fifo ==> queue.Contents() == if next.state in visited then old(queue.Contents()) else old(queue.Contents()) + [next]
  {
    frontier' := frontier;
    if next.state !in visited {
      PushFrontier(kind, stack, queue, heap, next);
      PushKeepsInvariant(problem, visited, frontier, current, next);
      frontier' := frontier + multiset{next};
    }
  }

  /**
   * The frontier `frontier'` kept every node of `frontier`, and each of the
   * first `i` successors is visited or waits in it.
   */
  ghost predicate Offered(successors: seq<Node>, i: nat, visited: set<State>, frontier: multiset<Node>, frontier': multiset<Node>)
  {
    && (forall n :: n in frontier ==> n in frontier')
    && forall j :: 0 <= j < i && j < |successors| ==> successors[j].state in visited || successors[j] in frontier'
  }

  /** Offering successor `i` extends `Offered` by one. */
  lemma OfferedPrefix(successors: seq<Node>, i: nat, visited: set<State>, frontier: multiset<Node>,
                      before: multiset<Node>, after: multiset<Node>)
    requires i < |successors|
    requires Offered(successors, i, visited, frontier, before)
    requires after == if successors[i].state in visited then before else before + multiset{successors[i]}
    ensures Offered(successors, i + 1, visited, frontier, after)
  {
  }

  /** Once every successor was offered, each enabled action's successor is visited or waits in the frontier. */
  lemma OfferedAll(problem: Problem, node: Node, successors: seq<Node>, visited: set<State>,
                   frontier: multiset<Node>, frontier': multiset<Node>)
    requires Offered(successors, |successors|, visited, frontier, frontier')
    requires forall a :: a in problem.groundActions && Enabled(node, a) ==> Apply(node, a) in successors
    ensures forall n :: n in frontier ==> n in frontier'
    ensures forall a :: a in problem.groundActions && Enabled(node, a) ==> Apply(node, a).state in visited || Apply(node, a) in frontier'
  {
    forall a | a in problem.groundActions && Enabled(node, a)
      ensures Apply(node, a).state in visited || Apply(node, a) in frontier'
    {
      var k :| 0 <= k < |successors| && successors[k] == Apply(node, a);
    }
  }

  lemma CoveredPrefix(successors: seq<Node>, i: nat, covered: set<State>)
    requires i < |successors|
    requires forall j :: 0 <= j < i ==> successors[j].state in covered
    ensures forall j :: 0 <= j < i + 1 ==> successors[j].state in covered + {successors[i].state}
  {
  }

  /** Once every successor of `node` is covered, the state of `node` is closed. */
  lemma ExpandedIsClosed(problem: Problem, visited: set<State>, frontier: multiset<Node>, node: Node, successors: seq<Node>)
    requires node.state in visited
    requires forall a :: a in problem.groundActions && Enabled(node, a) ==> Apply(node, a) in successors
    requires forall j :: 0 <= j < |successors| ==> successors[j].state in visited + StatesOf(frontier)
    requires SafeVisited(problem, visited) && Pending(problem, visited, frontier, node.state)
    ensures SearchInvariant(problem, visited, frontier)
  {
    forall a | a in problem.groundActions && Enabled(Node(node.state, 0, []), a)
      ensures Covered(visited, frontier, Apply(Node(node.state, 0, []), a).state)
    {
      assert Enabled(node, a);
      var k :| 0 <= k < |successors| && successors[k] == Apply(node, a);
      assert successors[k].state in visited + StatesOf(frontier);
    }
    assert Closed(problem, visited, frontier, node.state);
  }

  /**
   * The inner loop of `graph_search`: pushes every successor whose state is
   * not yet visited; afterwards the expanded state is closed too.
   */
  method Expand(kind: Discipline, stack: Util.Stack<Node>, queue: Util.Queue<Node>, heap: Util.PriorityQueue<Node>,
                problem: Problem, visited: set<State>, node: Node, successors: seq<Node>,
                ghost taken: seq<GroundAction>, ghost frontier: multiset<Node>)
    returns (ghost frontier': multiset<Node>)
    requires heap.Valid()
    requires Frontier(kind, stack, queue, heap) == frontier
    requires node.state in visited && Reached(problem, node)
    requires |taken| == |successors|
    requires forall i :: 0 <= i < |taken| ==> taken[i] in problem.groundActions && Enabled(node, taken[i])
    requires forall i :: 0 <= i < |successors| ==> successors[i] == Apply(node, taken[i])
    requires forall a :: a in problem.groundActions && Enabled(node, a) ==> Apply(node, a) in successors
    requires SafeVisited(problem, visited)
    requires Pending(problem, visited, frontier, node.state)
    requires kind == Fifo ==> Layered(queue.Contents(), |node.actions|)
    modifies stack, queue, heap
    ensures heap.Valid()
    ensures Frontier(kind, stack, queue, heap) == frontier'
    ensures SearchInvariant(problem, visited, frontier')
    ensures kind == Fifo ==> Layered(queue.Contents(), |node.actions|)
    ensures forall n :: n in frontier ==> n in frontier'
    ensures forall a :: a in problem.groundActions && Enabled(node, a) ==> Apply(node, a).state in visited || Apply(node, a) in frontier'
  {
    frontier' := frontier;
    ghost var covered := visited + StatesOf(frontier);
    for i := 0 to |successors|
      invariant heap.Valid()
      invariant Frontier(kind, stack, queue, heap) == frontier'
      invariant Pending(problem, visited, frontier', node.state)
      invariant covered == visited + StatesOf(frontier')
      invariant forall j :: 0 <= j < i ==> successors[j].state in covered
      invariant kind == Fifo ==> Layered(queue.Contents(), |node.actions|)
      invariant Offered(successors, i, visited, frontier, frontier')
    {
      SuccessorReached(problem, node, taken[i]);
      ghost var line, before := queue.Contents(), frontier';
      frontier' := Offer(kind, stack, queue, heap, problem, visited, node.state, successors[i], frontier');
      if kind == Fifo && successors[i].state !in visited {
        LayeredPush(line, |node.actions|, successors[i]);
      }
      OfferedPrefix(successors, i, visited, frontier, before, frontier');
      CoveredPrefix(successors, i, covered);
      covered := covered + {successors[i].state};
    }
    ExpandedIsClosed(problem, visited, frontier', node, successors);
    OfferedAll(problem, node, successors, visited, frontier, frontier');
  }

  // ---------------------------------------------------------------------------
  // Breadth first: the FIFO queue hands out the shallowest nodes first
  // ---------------------------------------------------------------------------

  /** State `t` is visited, or waits in the frontier at a node at most `d` actions deep. */
  ghost predicate ShallowCovered(visited: set<State>, frontier: multiset<Node>, t: State, d: nat)
  {
    t in visited || exists n :: n in frontier && n.state == t && |n.actions| <= d
  }

  /**
   * The breadth-first invariant of the visited set and the frontier: the
   * initial state is covered at depth 0, and the state a plan reaches from a
   * visited state is covered no deeper than the plan.
   */
  ghost predicate Breadth(problem: Problem, visited: set<State>, frontier: multiset<Node>)
  {
    && ShallowCovered(visited, frontier, problem.state, 0)
    && forall p :: Executable(problem, Root(problem), p) && p != [] && Execute(Root(problem), p[..|p| - 1]).state in visited ==>
         ShallowCovered(visited, frontier, Execute(Root(problem), p).state, |p|)
  }

  /** No plan from the root reaches an unvisited state in fewer actions than `node` took. */
  ghost predicate Shallowest(problem: Problem, visited: set<State>, node: Node)
  {
    forall p :: Executable(problem, Root(problem), p) && Execute(Root(problem), p).state !in visited ==> |node.actions| <= |p|
  }

  /** The depth (number of actions) of each waiting node, front first. */
  ghost function Depths(line: seq<Node>): seq<nat>
  {
    if line == [] then [] else [|line[0].actions|] + Depths(line[1..])
  }

  lemma DepthsAt(line: seq<Node>)
    ensures |Depths(line)| == |line|
    ensures forall i :: 0 <= i < |line| ==> Depths(line)[i] == |line[i].actions|
  {
    if line != [] {
      DepthsAt(line[1..]);
    }
  }

  lemma {:induction false} DepthsAppend(line: seq<Node>, n: Node)
    ensures Depths(line + [n]) == Depths(line) + [|n.actions|]
  {
    if line != [] {
      assert (line + [n])[1..] == line[1..] + [n];
      DepthsAppend(line[1..], n);
    }
  }

  /** The depths are sorted and each is `d` or `d + 1`. */
  ghost predicate LayeredDepths(ds: seq<nat>, d: nat)
  {
    && (forall i, j :: 0 <= i < j < |ds| ==> ds[i] <= ds[j])
    && (forall i :: 0 <= i < |ds| ==> d <= ds[i] <= d + 1)
  }

  /** The queue holds nodes of depth `d` or `d + 1`, the shallower ones first. */
  ghost predicate Layered(line: seq<Node>, d: nat)
  {
    LayeredDepths(Depths(line), d)
  }

  /** The queue spans at most two depths, starting from the depth of its front node. */
  ghost predicate FifoOrdered(line: seq<Node>)
  {
    line == [] || Layered(line, |line[0].actions|)
  }

  lemma LayeredPush(line: seq<Node>, d: nat, n: Node)
    requires Layered(line, d) && |n.actions| == d + 1
    ensures Layered(line + [n], d)
  {
    DepthsAppend(line, n);
  }

  lemma PopLayered(line: seq<Node>)
    requires FifoOrdered(line) && line != []
    ensures Layered(line[1..], |line[0].actions|)
  {
    var ds := Depths(line);
    assert ds == [|line[0].actions|] + Depths(line[1..]);
    assert forall i :: 0 <= i < |ds| - 1 ==> Depths(line[1..])[i] == ds[i + 1];
  }

  lemma LayeredOrdered(line: seq<Node>, d: nat)
    requires Layered(line, d)
    ensures FifoOrdered(line)
  {
    if line != [] {
      DepthsAt(line);
    }
  }

  /** At the start only the root waits, at depth 0. */
  lemma InitialBreadth(problem: Problem)
    ensures Breadth(problem, {}, multiset{Root(problem)})
  {
    assert Root(problem) in multiset{Root(problem)};
  }

  /** The frontier cuts every plan to an unvisited state no deeper than the plan. */
  lemma {:induction false} ShallowCut(problem: Problem, visited: set<State>, frontier: multiset<Node>, p: seq<GroundAction>)
    requires Breadth(problem, visited, frontier)
    requires Executable(problem, Root(problem), p) && Execute(Root(problem), p).state !in visited
    ensures exists n :: n in frontier && |n.actions| <= |p|
  {
    if p != [] {
      var q := p[..|p| - 1];
      if Execute(Root(problem), q).state !in visited {
        ShallowCut(problem, visited, frontier, q);
      }
    }
  }

  /** The front of a layered queue is a shallowest node. */
  lemma FrontShallowest(problem: Problem, visited: set<State>, frontier: multiset<Node>, line: seq<Node>)
    requires Breadth(problem, visited, frontier)
    requires FifoOrdered(line) && line != [] && frontier == multiset(line)
    ensures Shallowest(problem, visited, line[0])
  {
    forall p | Executable(problem, Root(problem), p) && Execute(Root(problem), p).state !in visited
      ensures |line[0].actions| <= |p|
    {
      ShallowCut(problem, visited, frontier, p);
      var n :| n in frontier && |n.actions| <= |p|;
      var k :| 0 <= k < |line| && line[k] == n;
      FrontIsShallowest(line, k);
    }
  }

  /** No node in a FIFO-ordered queue is shallower than its front. */
  lemma FrontIsShallowest(line: seq<Node>, k: nat)
    requires FifoOrdered(line) && k < |line|
    ensures |line[0].actions| <= |line[k].actions|
  {
    DepthsAt(line);
    assert Depths(line)[k] == |line[k].actions|;
  }

  /** A shallowest node at the goal takes no more actions than any solution. */
  lemma ShallowestSolution(problem: Problem, visited: set<State>, node: Node)
    requires SafeVisited(problem, visited) && Shallowest(problem, visited, node)
    ensures forall p :: Solves(problem, p) ==> |node.actions| <= |p|
  {
    forall p | Solves(problem, p)
      ensures |node.actions| <= |p|
    {
      var s := Execute(Root(problem), p).state;
      assert AtGoal(problem, Node(s, 0, []));
    }
  }

  /** Coverage survives visiting the state of a popped node and keeping the rest of the frontier. */
  lemma CoverShift(visited: set<State>, frontier: multiset<Node>, visited': set<State>, frontier': multiset<Node>,
                   node: Node, t: State, d: nat)
    requires ShallowCovered(visited, frontier, t, d)
    requires visited <= visited' && node.state in visited'
    requires forall n :: n in frontier - multiset{node} ==> n in frontier'
    ensures ShallowCovered(visited', frontier', t, d)
  {
    if t !in visited' {
      var n :| n in frontier && n.state == t && |n.actions| <= d;
      assert n != node && n in frontier - multiset{node};
    }
  }

  /** Dropping a popped node whose state is visited keeps the breadth-first invariant. */
  lemma BreadthAfterPop(problem: Problem, visited: set<State>, frontier: multiset<Node>, node: Node)
    requires Breadth(problem, visited, frontier) && node.state in visited
    ensures Breadth(problem, visited, frontier - multiset{node})
  {
    var rest := frontier - multiset{node};
    CoverShift(visited, frontier, visited, rest, node, problem.state, 0);
    forall p | Executable(problem, Root(problem), p) && p != [] && Execute(Root(problem), p[..|p| - 1]).state in visited
      ensures ShallowCovered(visited, rest, Execute(Root(problem), p).state, |p|)
    {
      CoverShift(visited, frontier, visited, rest, node, Execute(Root(problem), p).state, |p|);
    }
  }

  /**
   * Expanding a shallowest node, and pushing every successor whose state is
   * not visited, keeps the breadth-first invariant.
   */
  lemma BreadthAfterExpand(problem: Problem, visited: set<State>, frontier: multiset<Node>, node: Node, frontier': multiset<Node>)
    requires Breadth(problem, visited, frontier) && node.state !in visited
    requires Shallowest(problem, visited, node)
    requires forall n :: n in frontier - multiset{node} ==> n in frontier'
    requires forall a :: a in problem.groundActions && Enabled(node, a) ==>
               Apply(node, a).state in visited + {node.state} || Apply(node, a) in frontier'
    ensures Breadth(problem, visited + {node.state}, frontier')
  {
    var visited' := visited + {node.state};
    CoverShift(visited, frontier, visited', frontier', node, problem.state, 0);
    forall p | Executable(problem, Root(problem), p) && p != [] && Execute(Root(problem), p[..|p| - 1]).state in visited'
      ensures ShallowCovered(visited', frontier', Execute(Root(problem), p).state, |p|)
    {
      var q, a := p[..|p| - 1], p[|p| - 1];
      var t := Execute(Root(problem), p).state;
      if Execute(Root(problem), q).state in visited {
        CoverShift(visited, frontier, visited', frontier', node, t, |p|);
      } else {
        assert |node.actions| <= |q|;
        assert Enabled(node, a);
        assert Apply(node, a).state == t;
      }
    }
  }

  /** Fresh frontier structures holding only the root, and nothing visited yet. */
  method Start(kind: Discipline, problem: Problem)
    returns (stack: Util.Stack<Node>, queue: Util.Queue<Node>, heap: Util.PriorityQueue<Node>, ghost frontier: multiset<Node>)
    ensures fresh(stack) && fresh(queue) && fresh(heap)
    ensures frontier == multiset{Root(problem)}
    ensures Searching(kind, stack, queue, heap, problem, {}, [], frontier)
  {
    stack := new Util.Stack<Node>();
    queue := new Util.Queue<Node>();
    heap := new Util.PriorityQueue<Node>();
    var root := Node(problem.state, Heuristic(problem.state), []);
    assert Frontier(kind, stack, queue, heap) == multiset{};
    ghost var line := queue.Contents();
    assert line + [root] == [root];
    PushFrontier(kind, stack, queue, heap, root);
    frontier := multiset{root};
    InitialSearch(problem);
  }

  /** The root alone, with nothing visited, meets the invariants of the search loop. */
  lemma InitialSearch(problem: Problem)
    ensures SearchInvariant(problem, {}, multiset{Root(problem)})
    ensures Breadth(problem, {}, multiset{Root(problem)})
    ensures VisitedReachable(problem, {}) && Listed({}, [])
    ensures FifoOrdered([Root(problem)])
  {
    var root := Root(problem);
    DepthsAt([root]);
    assert StatesOf(multiset{root}) == {root.state};
    assert Reached(problem, root);
    InitialBreadth(problem);
  }

  /**
   * The first state expanded is the initial one: until a state is expanded,
   * only the root waits.
   */
  ghost predicate FirstExpanded(problem: Problem, expanded: seq<State>, frontier: multiset<Node>)
  {
    && (expanded == [] ==> frontier == multiset{Root(problem)})
    && (expanded != [] ==> expanded[0] == problem.state)
  }

  /** While nothing is expanded, the popped node is the root, whose state is not yet visited. */
  lemma FirstExpandedStep(problem: Problem, visited: set<State>, expanded: seq<State>, frontier: multiset<Node>, node: Node)
    requires FirstExpanded(problem, expanded, frontier) && node in frontier && Listed(visited, expanded)
    ensures expanded == [] ==> node.state == problem.state && node.state !in visited
    ensures FirstExpanded(problem, expanded + [node.state], multiset{})
  {
  }

  /** What the loop of GraphSearch keeps between two steps. */
  ghost predicate Searching(kind: Discipline, stack: Util.Stack<Node>, queue: Util.Queue<Node>, heap: Util.PriorityQueue<Node>,
                            problem: Problem, visited: set<State>, expanded: seq<State>, frontier: multiset<Node>)
    reads stack, queue, heap
  {
    && heap.Valid()
    && Frontier(kind, stack, queue, heap) == frontier
    && SearchInvariant(problem, visited, frontier)
    && Listed(visited, expanded) && VisitedReachable(problem, visited)
    && BreadthFirst(kind, queue, problem, visited, frontier)
  }

  /** Over a FIFO queue, the queue is layered and the breadth-first invariant holds. */
  ghost predicate BreadthFirst(kind: Discipline, queue: Util.Queue<Node>, problem: Problem, visited: set<State>, frontier: multiset<Node>)
    reads queue
  {
    kind == Fifo ==> FifoOrdered(queue.Contents()) && Breadth(problem, visited, frontier)
  }

  /**
   * `breadth_first_search`: graph search over a FIFO queue, which expands
   * the shallowest nodes first, so a returned plan has the fewest actions
   * of all solutions.
   */
  method BreadthFirstSearch(problem: Problem) returns (plan: Option<seq<GroundAction>>)
    ensures plan.Some? ==> Solves(problem, plan.value)
    ensures plan.Some? ==> forall p :: Solves(problem, p) ==> |plan.value| <= |p|
    ensures plan.None? ==>
              forall p :: Executable(problem, Root(problem), p) ==> !AtGoal(problem, Execute(Root(problem), p))
  {
    ghost var expanded;
    plan, expanded := GraphSearch(Fifo, problem);
  }

  /** `astar_search`: graph search over a priority queue keyed by node cost. */
  method AStarSearch(problem: Problem) returns (plan: Option<seq<GroundAction>>)
    ensures plan.Some? ==> Solves(problem, plan.value)
    ensures plan.None? ==>
              forall p :: Executable(problem, Root(problem), p) ==> !AtGoal(problem, Execute(Root(problem), p))
  {
    ghost var expanded;
    plan, expanded := GraphSearch(Cheapest, problem);
  }
}
