# A verified model of the pddl-parser planning kernel

This project models the STRIPS planning kernel of the pddl-parser
repository in Dafny and proves properties of the model.

A *fact* is a tuple of strings, a *state* is a set of facts, and a *ground
action* has positive and negative preconditions, add effects, delete effects
and a cost. An action applies to a state when its positive preconditions hold
there and its negative preconditions do not. Applying it removes the delete
effects and then adds the add effects.

The model covers:

- the transition model and successor generation of `planning/search.py`
  (`search.dfy`);
- the generic `graph_search` with breadth-first and A* frontiers
  (`search.dfy`);
- the frontier containers `Stack`, `Queue` and `PriorityQueue` and the set
  helpers of `planning/util.py` (`util.dfy`);
- the relaxed problem and the two relaxation transforms of
  `planning/relax.py` (`relax.dfy`);
- the counting heuristics of `planning/heuristic.py` (`heuristic.dfy`);
- the two standalone breadth-first planners: `planner.py`, which works on
  sets (`planner.dfy`), and `propositional_planner.py`, which works on lists
  (`propositional.dfy`);
- the back-pointer chains both planners store in their fringe
  (`backpointers.dfy`);
- the dinner example that the planner test solves (`dinner.dfy`).

Option and Result types are in `results.dfy`. Facts, states and ground
actions are in `actions.dfy`.

The searches prove the following:

- *Soundness*: a returned plan is executable from the initial state and ends
  in a goal state.
- *Completeness*: when no plan is returned, no executable plan reaches the
  goal. Termination is proved over the finite space of states built from the
  initial facts and the add effects.
- *Shortest plans*: breadth-first search returns a plan with the fewest
  actions. Its queue always holds nodes of at most two consecutive depths,
  shallower ones first, so the node it pops is no deeper than any plan to a
  state not yet visited.
- *Traces*: each search also returns a ghost trace: the states graph search
  expands, the states planner.py pushes, or the `visited` list of
  propositional_planner.py. Each trace holds no state twice. When it is not
  empty, it starts at the initial state. When no plan is returned, it holds
  every reachable state. For graph search and planner.py, every state in the
  trace is reachable. Graph search's trace is empty when the initial state
  is a goal, and so is the propositional planner's, since it returns before
  building `visited`.

Parsing and grounding are not modelled. The initial state, the goals and the
ground actions are inputs.

### Where the code cannot run as written

The model follows the evident intent in each of these places:

- `planning/util.py:39-43` calls `heapq`, which is never imported.
  `PriorityQueue` is modelled as a list of `(priority, count, item)` entries.
  `Pop` removes the entry with the least priority and, among equal
  priorities, the least count.
- `update` (planning/util.py:55-56) appends to and reheapifies `self.data`,
  which does not exist. The model updates `_data`.
- `graph_search` (planning/search.py:81, 91) calls `push` with one argument,
  but `PriorityQueue.push` needs a priority. The A* model pushes each node
  with its cost as the priority.
- `RelaxedProblem.__init__` (planning/relax.py:9) calls `super().__init__()`
  without the parser. The model builds the relaxed problem from a given
  `Problem`.
- `RelaxedProblem.__init__` (planning/relax.py:12) calls `heuristic()` with
  no argument. Every heuristic of `TYPES` takes a list of predicates
  (planning/heuristic.py:8, 12, 17), so this call raises a `TypeError` for
  the heuristics that planner.py passes (planner.py:48-49) and for the
  parser that tests/test_relax.py:15 passes. The model takes the estimate as
  an unconstrained integer parameter of the constructor.
- `RelaxedProblem.applicable` (planning/relax.py:25) uses a list of actions
  as a dict key when it builds `dict(...)`, which raises a `TypeError`. The model gives each
  action linked to a fact of the state −1 for each such fact. This is the
  `Subtraction` map. As Python's `Counter +=` does, it adds that map to the
  precondition counts and drops non-positive entries. The result is true
  when some touched action's count has reached zero.
- `reduced_powerset` and `smaller_subslices` are imported but not defined in
  `planning/util.py`. `reduced_powerset` is modelled from
  tests/test_util.py:6-10: it yields the non-empty proper subsets. The test
  compares the result with a frozenset of tuples (tests/test_util.py:8),
  while the model's subsets are sets. This does not matter for `apply`,
  which passes each subset through `frozenset_of_tuples` again.
- `RelaxPrecondition.apply`, `parameterize` and `RelaxDeleteEffects.apply`
  read `problem.actions`, which `Problem` does not have. The model uses
  `groundActions`.
- The relaxations `copy.copy` the problem and then assign the fields of its
  actions, so in Python they also change the original problem. The model
  returns new values and leaves the input unchanged. With the intended
  `pos_set`, this sharing would make the i-th trial of `parameterize` lack
  the union of subsets 1 to i, because `apply` changes the shared actions
  (planning/relax.py:60-66). The model relaxes each subset on its own. As
  written nothing is removed, so the two agree.

## Model

| member | source | states |
|---|---|---|
| Actions.AddedFacts | planning/search.py:41-42 | a fact is an added fact iff some action adds it; it is the set of facts search can create |
| Util.FrozensetOfTuples | planning/util.py:62-63 | the result holds exactly the items of the input, so it has no more elements than the input has items |
| Util.FrozensetOfTuplesDuplicate | planning/util.py:62-63 | a repeated item collapses: adding it again changes nothing and the set is smaller than the list |
| Util.FrozensetOfTuplesSwap | planning/util.py:62-63 | the order of the input does not matter |
| Util.ReducedPowerset | tests/test_util.py:6-10 | every result is a subset of the input, and neither the empty set nor the whole input is one |
| Util.ReducedPowersetMember | tests/test_util.py:6-10 | a set is in the reduced powerset iff it is a non-empty proper subset of the input |
| Util.ReducedPowersetOfEmpty | tests/test_util.py:9-10 | the empty input has no reduced subsets |
| Util.ReducedPowersetOfSingleton | tests/test_util.py:6-10 | a one-element input has no reduced subsets |
| Util.ReducedPowersetOfThree | tests/test_util.py:7-8 | {1, 2, 3} gives exactly the six sets {1}, {2}, {3}, {1, 2}, {1, 3} and {2, 3} |
| Util.Reverse | planning/util.py:18-26 | reading the deque from its right end keeps the length (the order in which `Queue` hands out items) |
| Util.ReverseAt | planning/util.py:25-26 | the k-th item from the right end is the item at index length − 1 − k |
| Util.ReversePrepend | planning/util.py:22-23 | `appendleft` puts the new item last in the order of departure |
| Util.ReverseDropLast | planning/util.py:25-26 | `pop` from the right removes the first item in the order of departure |
| Util.Stack.constructor | planning/util.py:5-6 | a new stack is empty |
| Util.Stack.Push | planning/util.py:8-9 | the item is appended to the list |
| Util.Stack.Pop | planning/util.py:11-12 | returns the most recently pushed item still held and removes it (LIFO); an empty stack gives None |
| Util.Stack.IsEmpty | planning/util.py:14-15 | true iff the stack holds no item |
| Util.Queue.constructor | planning/util.py:19-20 | a new queue is empty |
| Util.Queue.Push | planning/util.py:22-23 | `appendleft` puts the item at the left end, which is the back of the line |
| Util.Queue.Pop | planning/util.py:25-26 | returns the oldest item still held and removes it (FIFO); an empty queue gives None |
| Util.Queue.IsEmpty | planning/util.py:28-29 | true iff no item is waiting |
| Util.ItemsOf | planning/util.py:37-44 | the items of the heap entries, in entry order |
| Util.RemoveAt | planning/util.py:54 | `del _data[index]` drops exactly that entry and keeps the others in order |
| Util.MinIndex | planning/util.py:42-44 | the index of an entry that no other entry precedes in (priority, count) order |
| Util.MinimumIsUnique | planning/util.py:37-44 | with distinct counts, the least entry by (priority, count) is unique, so ties are broken by insertion order |
| Util.FindItem | planning/util.py:50-51 | the index of the first entry holding the item, or the length when there is none |
| Util.ReplaceKeepsOccurrences | planning/util.py:54-55 | replacing an entry keeps the number of entries for its item: it is not duplicated |
| Util.ItemsOfAppend | planning/util.py:37-40 | pushing an entry appends its item |
| Util.ItemsOfRemoveAt | planning/util.py:42-44 | removing an entry removes exactly its item from the multiset of items |
| Util.FindItemAt | planning/util.py:50-51 | an index that satisfies the scan's conditions is the one `FindItem` returns |
| Util.PriorityQueue.Items | planning/util.py:37-44 | there is one item per heap entry |
| Util.PriorityQueue.constructor | planning/util.py:33-35 | a new queue has no entries and a count of 0 |
| Util.PriorityQueue.Push | planning/util.py:37-40 | adds the entry (priority, count, item) and advances the count by one, so counts stay distinct |
| Util.PriorityQueue.Pop | planning/util.py:42-44 | removes and returns the entry least by (priority, count); an empty queue gives None |
| Util.PriorityQueue.IsEmpty | planning/util.py:46-47 | true iff the queue holds no entry |
| Util.PriorityQueue.Update | planning/util.py:49-59 | a present item with priority ≤ the new one leaves the queue unchanged; one with a higher priority is replaced once, keeping its count; an absent item is pushed |
| Search.Applicable | planning/search.py:38-39 | true iff every positive fact is in the node's state and no negative fact is |
| Search.Apply | planning/search.py:41-43 | the new state is (state − deletes) ∪ adds, so a fact both deleted and added is present; the cost grows by the action's cost and the action is appended |
| Search.AtGoal | planning/search.py:45-46 | true iff the positive goals hold and no negative goal does |
| Search.Heuristic | planning/search.py:69-74 | the default heuristic is 0 for every state |
| Search.WithoutDeleteEffects | planning/search.py:56-59 | the delete effects are emptied and every other field is kept |
| Search.WithoutDeleteEffectsIsOptimistic | planning/search.py:56-59 | applying the delete-free action yields a superset of the normal successor and of the old state |
| Search.ApplicableActions | planning/search.py:61-67 | the actions applicable to a node, in the order of `ground_actions` |
| Search.ApplicableActionsAppend | planning/search.py:63-66 | the filter distributes over concatenation, so it keeps the order of `ground_actions` |
| Search.ApplicableActionsMultiplicity | planning/search.py:63-66 | an applicable action occurs as often as in `ground_actions`, and any other action not at all |
| Search.ApplicableActionsStep | planning/search.py:63-66 | one more loop turn filters one more action as the last one |
| Search.SuccessorsCover | planning/search.py:61-67 | the application of every enabled ground action is among the successors |
| Search.GenerateSuccessors | planning/search.py:61-67 | exactly one successor per applicable action, in order; successor i is the application of the i-th applicable action |
| Search.Execute | planning/search.py:41-43 | running a plan appends its actions and adds up their costs |
| Search.ExecutableStep | planning/search.py:41-43 | an applicable problem action extends an executable plan |
| Search.ExecuteAppend | planning/search.py:41-43 | running p + q is running p, then q |
| Search.ExecutableAt | planning/search.py:41-43 | each action of an executable plan is a problem action that applies when its turn comes |
| Search.TrueFactWasAdded | planning/search.py:41-42 | a fact that is true after a plan and not before was added by some action of the plan |
| Search.NeverAddedStaysFalse | planning/search.py:41-42 | a false fact that no action adds stays false |
| Search.FalseFactWasDeleted | planning/search.py:41-42 | a fact that is false after a plan and true before was deleted by some action of the plan |
| Search.ExecuteInUniverse | planning/search.py:41-42 | every reachable state consists of initial facts and added facts |
| Search.AddsInUniverse | planning/search.py:41-42 | the add effects of a ground action lie in the universe |
| Search.FrontierIsEmpty | planning/search.py:83 | `is_empty` of the chosen frontier is true iff no node waits in it |
| Search.Root | planning/search.py:79-81 | the first node holds the initial state, no actions and the null heuristic's cost 0 |
| Search.PushFrontier | planning/search.py:81-91 | a push adds exactly that node to the frontier; a FIFO push puts it at the back of the queue |
| Search.PopStack | planning/util.py:11-12 | a pop removes exactly the returned node |
| Search.PopQueue | planning/util.py:25-26 | a pop returns the front of the queue and leaves the rest in order |
| Search.PopHeap | planning/util.py:42-44 | a pop removes exactly the returned node |
| Search.PopFrontier | planning/search.py:84 | `frontier.pop()` removes exactly the returned node from the waiting nodes; a FIFO pop takes the front of the queue |
| Search.CoverageMonotone | planning/search.py:87-91 | closure of visited states survives when visited and frontier states only grow |
| Search.StatesAfterPop | planning/search.py:84 | popping loses at most the popped node's state |
| Search.StatesAfterPush | planning/search.py:91 | pushing adds exactly the pushed node's state |
| Search.ClosedSetHoldsReachable | planning/search.py:87-91 | once every visited state is closed under the actions, every reachable state is visited |
| Search.ExhaustedMeansUnsolvable | planning/search.py:83-91 | when the frontier empties, every executable plan ends in a visited state and none reaches the goal |
| Search.SuccessorReached | planning/search.py:89-91 | a successor of a reached node is reached, with its actions as a plan to it |
| Search.VisitKeepsInvariant | planning/search.py:87-88 | marking a popped non-goal state visited keeps the search invariant, with that state still to close |
| Search.RevisitKeepsInvariant | planning/search.py:87 | dropping a node whose state is visited keeps the invariant |
| Search.DistinctAppend | planning/search.py:87-88 | appending a state not yet expanded keeps the expansion list free of repeats |
| Search.SuccessorsTaken | planning/search.py:61-67 | the successors are applications of applicable problem actions |
| Search.PushKeepsInvariant | planning/search.py:90-91 | pushing a reached node keeps the invariant of the expansion loop |
| Search.Offer | planning/search.py:90-91 | a successor is pushed iff its state is not visited, at the back of a FIFO queue, and the invariant is kept |
| Search.OfferedPrefix | planning/search.py:89-91 | after each successor, the frontier keeps its old nodes and every successor so far is visited or waiting |
| Search.OfferedAll | planning/search.py:89-91 | after all successors, the successor by every enabled action is visited or waiting |
| Search.CoveredPrefix | planning/search.py:89-91 | after each successor, every successor so far is covered |
| Search.ExpandedIsClosed | planning/search.py:87-91 | after expansion the node's state is closed, which restores the invariant |
| Search.Expand | planning/search.py:89-91 | the expansion loop keeps the old frontier nodes, leaves every successor visited or in the frontier, and keeps a FIFO queue within two depths |
| Search.Start | planning/search.py:78-81 | the frontier holds only the first node, and the loop invariants hold with nothing visited |
| Search.InitialSearch | planning/search.py:78-81 | the first node alone, with nothing visited, meets the search invariant, the breadth invariant and an empty trace |
| Search.GraphSearch | planning/search.py:77-91 | a returned plan solves the problem, and with a FIFO frontier no solution is shorter; None means no executable plan reaches the goal; the expanded states are distinct and reachable, start at the initial state, and on None include every reachable state |
| Search.ListedReachable | planning/search.py:86-88 | every state in the expansion order is reachable |
| Search.ExhaustedListsReachable | planning/search.py:83-91 | once the frontier is empty, no plan reaches the goal and every reachable state has been expanded |
| Search.ReachedIsReachable | planning/search.py:86-88 | visiting the state of a reached node keeps every visited state reachable |
| Search.Step | planning/search.py:83-91 | one loop turn: a goal node's actions solve the problem, with no shorter solution under FIFO; otherwise the invariants are kept, visited states stay reachable and listed once, and the visited states grow or the frontier shrinks; the first expanded state is the initial one |
| Search.FirstExpandedStep | planning/search.py:81-88 | until a state is expanded, the popped node is the root, so the first expanded state is the initial one |
| Search.Visit | planning/search.py:87-91 | visiting a new state records it once and pushes its successors, keeping every loop invariant |
| Search.InitialBreadth | planning/search.py:79-81 | at the start, the root covers the initial state at depth 0 |
| Search.ShallowCut | planning/search.py:83-91 | every plan to an unvisited state passes a waiting node no deeper than the plan |
| Search.FrontShallowest | planning/search.py:84-95 | the front of a FIFO queue is no deeper than any plan to an unvisited state |
| Search.FrontIsShallowest | planning/search.py:95 | no node in the queue is shallower than its front |
| Search.ShallowestSolution | planning/search.py:85-86 | a goal node no deeper than any plan to an unvisited state is reached by a shortest solution |
| Search.CoverShift | planning/search.py:87-91 | a state covered within a depth stays covered when the popped node's state is visited |
| Search.BreadthAfterPop | planning/search.py:84-87 | dropping a node whose state is visited keeps the breadth invariant |
| Search.BreadthAfterExpand | planning/search.py:87-91 | visiting a shallowest node and offering its successors keeps the breadth invariant |
| Search.LayeredPush | planning/search.py:91 | pushing a node one level deeper keeps the queue within two depths |
| Search.PopLayered | planning/search.py:84 | after a FIFO pop, the rest lies within the popped depth and the next |
| Search.LayeredOrdered | planning/search.py:84-91 | a queue within two depths starting at d is FIFO-ordered |
| Search.DepthsAt | planning/search.py:84-91 | the i-th depth is the number of actions of the i-th waiting node |
| Search.DepthsAppend | planning/search.py:91 | pushing a node appends its depth |
| Search.BreadthFirstSearch | planning/search.py:94-97 | a returned plan solves the problem and no solution has fewer actions; None means no plan reaches the goal |
| Search.AStarSearch | planning/search.py:100-103 | graph search over a priority queue keyed by cost: a returned plan solves the problem and None means no plan reaches the goal; no optimality is claimed |
| Heuristic.Keys | planning/heuristic.py:12-19 | the keys of `Counter(predicates)` are exactly the distinct predicates, without repeats |
| Heuristic.Counts | planning/heuristic.py:12-19 | the values of the counter are the multiplicities of its keys |
| Heuristic.Max | planning/heuristic.py:14 | `max` of a non-empty list is at least every value and is one of them |
| Heuristic.HMax | planning/heuristic.py:12-14 | None exactly for empty input, where `max` fails; otherwise the largest multiplicity of an element that occurs |
| Heuristic.MaxCount | planning/heuristic.py:12-14 | the largest value of a non-empty counter bounds every count and is the count of an element that occurs |
| Heuristic.Lookup | planning/heuristic.py:22-23 | `TYPES` has exactly the keys "max" and "add"; other names are missing keys |
| Heuristic.Evaluate | planning/heuristic.py:12-23 | the selected heuristic fails only for `max` on empty input, and `add` gives the input's length |
| Heuristic.SumAppend | planning/heuristic.py:19 | the sum of a concatenation is the sum of the sums |
| Heuristic.SumBump | planning/heuristic.py:19 | raising one count by one raises the sum by one |
| Heuristic.CountsAppend | planning/heuristic.py:12-19 | counting one more element adds a key or bumps one count |
| Heuristic.CountsSum | planning/heuristic.py:17-19 | the counts of a `Counter` add up to the length of the list it counts |
| Heuristic.HAdd | planning/heuristic.py:17-19 | `h_add` equals the number of predicates |
| Heuristic.HNull | planning/heuristic.py:8-9 | `h_null` is zero for every list of predicates |
| Heuristic.HeuristicsOrdered | planning/heuristic.py:8-19 | for non-empty input, h_max is defined and h_null < h_max ≤ h_add |
| Relax.LinkedActions | planning/relax.py:16-20 | an action is listed under a fact iff the fact is among its positive preconditions or add effects |
| Relax.LinkedFacts | planning/relax.py:16-20 | the facts `_link_facts` files an action under |
| Relax.LinksFileEveryFact | planning/relax.py:15-20 | every action is filed under exactly its linked facts and counted with its number of positive preconditions |
| Relax.UnlinkedFactHasNoActions | planning/relax.py:16 | the `defaultdict` gives an empty list for a fact no action mentions |
| Relax.Links | planning/relax.py:15-20 | the dictionary has a key for exactly the facts some action is filed under, and under each the actions linked to it |
| Relax.PreconditionCounts | planning/relax.py:15-21 | exactly the problem's actions are counted, each with its number of positive preconditions |
| Relax.LinksAppend | planning/relax.py:17-20 | each loop turn adds one action's facts and its count |
| Relax.LinkFacts | planning/relax.py:14-21 | fails iff some action has negative preconditions, the assertion; otherwise returns the links and the precondition counts |
| Relax.FileAction | planning/relax.py:19-20 | the inner loop files one action under all its linked facts |
| Relax.FileStep | planning/relax.py:20 | filing under one more fact keeps the partial filing right |
| Relax.FiledAll | planning/relax.py:19-20 | filing under every linked fact yields the links of the longer list |
| Relax.LinksKeys | planning/relax.py:14-21 | the keys of the dictionary are exactly the linked facts, and each holds its linked actions |
| Relax.CounterGet | planning/relax.py:26-27 | a key of the counter reads its count; a missing key reads 0 |
| Relax.CounterAdd | planning/relax.py:26 | `Counter +=` adds counts and keeps only positive results |
| Relax.Subtraction | planning/relax.py:25 | each action linked to a state fact gets −(number of its state facts), which is negative |
| Relax.SupportIsNonEmpty | planning/relax.py:25 | an action linked to the state has at least one supporting fact |
| Relax.Flagged | planning/relax.py:27 | `any(...)` is false when no action was touched, and true when a touched action has dropped out of the counter |
| Relax.TouchKeys | planning/relax.py:25 | reading `linked_facts[item]` adds each state fact as a key with an empty list |
| Relax.RelaxedProblem.constructor | planning/relax.py:8-12 | the fields hold the links, the counts, an empty subtraction and the estimate |
| Relax.RelaxedProblem.Apply | planning/relax.py:29-32 | the new state is state ∪ adds, a superset of the old one; the cost is cost + h(new state) |
| Relax.RelaxedProblem.Applicable | planning/relax.py:23-27 | fails on negative preconditions; otherwise updates the subtraction and the counts and reports whether some touched action's count is ≤ 0 |
| Relax.NewRelaxedProblem | planning/relax.py:8-12 | fails iff some action has negative preconditions; otherwise links the facts and starts an empty subtraction |
| Relax.SatisfiedActionIsFlagged | planning/relax.py:23-27 | on the first call, an action whose preconditions all hold reaches count 0 and is flagged |
| Relax.PreconditionsSupport | planning/relax.py:20-25 | every positive precondition of an action that holds in the state is a supporting fact of it |
| Relax.RelaxedProblem.H | planning/relax.py:42-43 | h never exceeds the estimate and equals it only in the empty state |
| Relax.HAntitone | planning/relax.py:42-43 | h shrinks as the state grows |
| Relax.ApplyCostBounded | planning/relax.py:29-43 | the relaxed successor costs at most cost + h(old state) |
| Relax.StripAction | planning/relax.py:64-66 | the preconditions and effects lose exactly the relaxed facts, and the negative preconditions are kept |
| Relax.StripAll | planning/relax.py:61-66 | every action is stripped, in order |
| Relax.StripAllAppend | planning/relax.py:61 | each loop turn strips one more action |
| Relax.RelaxPreconditions | planning/relax.py:56-68 | fails iff the predicate list is empty or some action has negative preconditions; otherwise strips every action and the positive goals |
| Relax.StripActions | planning/relax.py:61-66 | fails iff some action has negative preconditions; otherwise strips every action |
| Relax.PreconditionRelaxationShrinks | planning/relax.py:64-67 | preconditions and goals only shrink, an action that needs a relaxed fact loses it, and negative preconditions and goals are kept |
| Relax.RelaxedExecution | planning/relax.py:64-67 | the stripped plan runs in the relaxed problem and agrees with the original run outside the relaxed facts |
| Relax.RelaxedStep | planning/relax.py:64-66 | one stripped step applies and agrees with the original step outside the relaxed facts |
| Relax.PreconditionRelaxationIsOptimistic | planning/relax.py:56-68 | every solution of the problem, stripped, solves the relaxed problem |
| Relax.RelaxDeleteEffects | planning/relax.py:71-76 | every action ends with no delete effects and nothing else changes |
| Relax.WithoutDeleteEffectsAll | planning/relax.py:74-75 | every action of a plan loses its delete effects |
| Relax.DeleteRelaxedExecution | planning/relax.py:71-76 | the delete-free plan runs in the relaxed problem and reaches a superset of each state |
| Relax.DeleteRelaxationIsOptimistic | planning/relax.py:71-76 | every solution stays a solution once deletes are dropped; this needs no negative goals |
| Relax.PreconditionFacts | planning/relax.py:48-49 | the facts that occur in some action's positive preconditions |
| Relax.Parameterize | planning/relax.py:47-54 | one relaxed problem per non-empty proper subset of the precondition facts; fails iff there is such a subset and some action has negative preconditions |
| Relax.SomeActionShrinks | planning/relax.py:53-54 | relaxing a non-empty set of precondition facts shrinks some action's preconditions |
| Relax.ParameterizeAt | planning/relax.py:53-54 | each non-empty proper subset is relaxed with `apply` |
| Relax.ParameterizeRelaxesSomething | planning/relax.py:47-54 | every yielded problem keeps the actions, only shrinks their preconditions, and strictly shrinks some action's preconditions |
| Relax.FactValue | planning/relax.py:49 | `tuple(fact)` is a Python tuple of the fact's strings |
| Relax.TupleOfFacts | planning/relax.py:49 | `tuple(frozenset_of_facts)` is a Python tuple of such tuples |
| Relax.EnumerateSingleton | planning/relax.py:49 | a one-fact set enumerates as that fact |
| Relax.AsWrittenPosSet | planning/relax.py:49 | as written, each element is a tuple of tuples holding the facts of some action's preconditions, and there is one when there are actions |
| Relax.PosSetShape | planning/relax.py:49 | the tuple built from each action's precondition set is a tuple of tuples that holds each of those facts |
| Relax.AsWrittenSubtract | planning/relax.py:64-67 | Python's set difference keeps exactly the facts whose tuple is not in the subtracted set |
| Relax.AsWrittenRelaxation | planning/relax.py:59-67 | `apply` keeps the actions, their names, costs and negative preconditions, only shrinks their other fields and the positive goals, and keeps the state |
| Relax.AsWrittenParameterize | planning/relax.py:47-54 | as written, fails iff there is a subset and some action has negative preconditions; otherwise each key is a non-empty proper subset of the tuple set and each problem keeps the actions |
| Relax.AsWrittenParameterizeAt | planning/relax.py:47-54 | as written, each non-empty proper subset of the tuple set is relaxed |
| Relax.FactIsNoTupleOfFacts | planning/relax.py:59-64 | a non-empty fact never equals a tuple of facts |
| Relax.AsWrittenSubtractsNothing | planning/relax.py:64-67 | subtracting such tuples from a set of non-empty facts removes nothing |
| Relax.AsWrittenActionUnchanged | planning/relax.py:64-66 | as written, every action comes out unchanged |
| Relax.AsWrittenRelaxesNothing | planning/relax.py:47-54 | as written, every yielded problem equals the original |
| Dinner.DinnerProblem | tests/test_planner.py:33-43 | the dinner problem is not solved at the start, and has three actions, each of cost 1 and without negative preconditions |
| Dinner.ThreeStepPlan | tests/test_planner.py:33-43 | three actions that apply in turn and end at the goal solve the dinner problem |
| Dinner.ExpectedPlanSolves | tests/test_planner.py:38-42 | [cook, wrap, carry] solves the dinner problem |
| Dinner.SwappedPlanSolves | tests/test_planner.py:33-43 | [wrap, cook, carry] solves it too |
| Dinner.LateWrapSolves | tests/test_planner.py:33-43 | [cook, carry, wrap] solves it too |
| Dinner.OnlyAdders | tests/test_planner.py:39-41 | only cook adds dinner, only wrap adds present, only carry deletes garbage, and nothing adds clean |
| Dinner.NothingAddsClean | tests/test_planner.py:39-41 | no action adds clean |
| Dinner.SolutionUses | tests/test_planner.py:33-43 | every solution contains cook, wrap and carry |
| Dinner.SolutionsNeedThreeActions | tests/test_planner.py:33-43 | every solution has at least three actions |
| Dinner.CarryRemovesClean | tests/test_planner.py:41 | after carry, clean is false |
| Dinner.CookComesBeforeCarry | tests/test_planner.py:39-41 | in an executable plan cook comes before carry |
| Dinner.ShortestSolutions | tests/test_planner.py:33-43 | a three-action plan solves the problem iff it is one of the three orders above |
| Dinner.SolveDinner | tests/test_planner.py:33-43 | breadth-first search returns a solution of exactly three actions, one of the three orders that cook before carrying |
| Dinner.DinnerParameterizeAsWritten | planning/relax.py:47-54 | as written, `parameterize` yields problems whose cook still needs clean |
| Dinner.DinnerFactsNonEmpty | planning/relax.py:47-54 | every fact of the dinner problem is non-empty |
| Dinner.NonEmptyDinnerAction | planning/relax.py:47-54 | each dinner action has only non-empty facts |
| Dinner.DinnerPosSet | planning/relax.py:49 | as written, `pos_set` has more than one tuple, so it has proper subsets |
| Dinner.DinnerParameterizeCorrected | planning/relax.py:47-54 | corrected, relaxing {clean} yields a cook with no preconditions |
| Backpointers.ChainPlan | planner.py:60-64 | a chain reads as a plan with one action per link |
| Backpointers.ChainOf | planner.py:67 | recording a plan gives a chain with one link per action |
| Backpointers.ChainOfChainPlan | planner.py:60-67 | reading a chain as a plan and recording it again gives back the chain |
| Backpointers.ChainPlanOfChainOf | planner.py:60-67 | recording a plan and reading it back gives back the plan |
| Backpointers.ReconstructPlan | planner.py:60-64 | the while loop with `insert(0, act)` returns the chain in forward order, newest action last |
| Backpointers.PopPair | planner.py:53-54 | two pops take a state and then its plan, and leave an alternating fringe |
| Backpointers.PushPair | planner.py:66-67 | appending a state and its plan keeps the fringe alternating, of even length |
| Planner.Applicable | planner.py:74-77 | true iff positive ⊆ state and negative is disjoint from state |
| Planner.Apply | planner.py:83-86 | returns (state − negative) ∪ positive |
| Planner.AgreesWithSearch | planner.py:74-86 | the planner's tests and `apply` are those of search.py |
| Planner.Solve | planner.py:31-68 | [] when the initial state is a goal; a returned plan solves the problem; None means no executable plan reaches the goal; the pushed states start at the initial state, are distinct and reachable, and on None include every reachable state |
| Planner.Turn | planner.py:52-67 | one outer turn: a returned plan solves the problem; otherwise the invariant and the trace are kept and the visited states grow or the fringe shrinks |
| Planner.InitialPushed | planner.py:50 | the initial state alone is a well-formed trace |
| Planner.PushedReachable | planner.py:65 | every pushed state is reachable |
| Planner.PushReachable | planner.py:65 | visiting a state that a chain reaches keeps every visited state reachable |
| Planner.InitialInvariant | planner.py:50-51 | the initial state is visited and is the fringe's only pair |
| Planner.PopKeepsInvariant | planner.py:53-54 | popping a pair keeps the invariant, with the popped state still to close |
| Planner.Progress | planner.py:65 | a growing visited set covers more of the finite space, so the loop ends |
| Planner.Exhausted | planner.py:68 | an empty fringe means no executable plan reaches the goal and every reachable state was pushed |
| Planner.Expand | planner.py:55-67 | returns a solving plan, or visits and queues every new successor |
| Planner.Try | planner.py:55-67 | one action: a new goal state returns its plan, any other new state is visited and queued, and the state stays closed up to that action |
| Planner.GrowsTransitive | planner.py:65-67 | the visited set only grows across the inner loop |
| Planner.PairsReachedAppend | planner.py:66-67 | queueing a reached pair keeps every fringe pair reached |
| Planner.ClosedUpToSuccessor | planner.py:55-58 | a state closed under the first n actions has each of their successors visited |
| Planner.ClosedUpToGrows | planner.py:65 | closure survives visiting one more state |
| Planner.StepReached | planner.py:56-67 | an applicable action extends a reaching chain |
| Planner.GoalFound | planner.py:59-64 | the chain of a goal state solves the problem |
| Planner.PushKeepsInvariant | planner.py:65-67 | visiting and queueing a new non-goal state keeps the invariant |
| Planner.ClosedGrows | planner.py:65 | a closed state stays closed as more states are visited |
| Planner.ExpandedIsClosed | planner.py:55-67 | after the inner loop the popped state is closed |
| Propositional.SetOf | propositional_planner.py:49-56 | the facts of a list |
| Propositional.Applicable | propositional_planner.py:49-56 | returns false at the first missing positive fact or present negative fact, and true iff neither exists |
| Propositional.HoldsAgreesWithPlanner | propositional_planner.py:49-56 | on lists, `applicable` is the set test of planner.py |
| Propositional.Survivors | propositional_planner.py:64-66 | a fact survives iff it is in the state and not deleted, and none are added |
| Propositional.AddNew | propositional_planner.py:67-69 | the add loop keeps the list as a prefix and adds exactly the missing add effects |
| Propositional.Apply | propositional_planner.py:62-70 | the two loops build the survivors followed by the new add effects |
| Propositional.ApplyMembers | propositional_planner.py:62-70 | x is in the result iff (x is in the state and not deleted) or x is added |
| Propositional.ApplyAgreesWithPlanner | propositional_planner.py:62-70 | on lists, `apply` is the set `apply` of planner.py |
| Propositional.SurvivorsAppend | propositional_planner.py:64-66 | the surviving facts keep their order in the state |
| Propositional.ApplyOrder | propositional_planner.py:64-69 | the result starts with the survivors and continues only with add effects that are not survivors |
| Propositional.AddNewSuffix | propositional_planner.py:67-69 | every appended fact is an add effect that was not already present |
| Propositional.SurvivorsNoDuplicates | propositional_planner.py:64-66 | survivors of a list without repeats have no repeats |
| Propositional.AddNewNoDuplicates | propositional_planner.py:67-69 | the add loop never appends a fact already present |
| Propositional.OrderMatters | propositional_planner.py:33 | the same facts in another order make a different list, so `visited` tells them apart |
| Propositional.ApplyNoDuplicates | propositional_planner.py:62-70 | a state without repeats stays without repeats |
| Propositional.RunAgreesWithPlanner | propositional_planner.py:62-70 | the facts of the list a plan reaches are the set planner.py reaches |
| Propositional.InLists | propositional_planner.py:33-40 | every list of bounded length over the universe is in the finite space |
| Propositional.ShapedInSpace | propositional_planner.py:33-40 | every reachable list lies in the finite space |
| Propositional.SurvivorsCount | propositional_planner.py:64-66 | a surviving fact occurs as often as in the state, and a deleted one not at all |
| Propositional.AddNewCount | propositional_planner.py:67-69 | a newly added fact occurs once |
| Propositional.InitialShaped | propositional_planner.py:25 | the initial state lies in the finite space |
| Propositional.ApplyShaped | propositional_planner.py:62-70 | applying a problem action stays in the finite space |
| Propositional.PairsReachedAppend | propositional_planner.py:41-42 | queueing a reached pair keeps every fringe pair reached |
| Propositional.ClosedUpToSuccessor | propositional_planner.py:30-33 | a state closed under the first n actions has each of their successors visited |
| Propositional.ClosedUpToGrows | propositional_planner.py:40 | closure survives appending to `visited` |
| Propositional.ClosedButAfterPush | propositional_planner.py:40-42 | visiting and queueing a state keeps the closed states closed |
| Propositional.Solve | propositional_planner.py:22-43 | [] when the initial state is a goal; a returned plan is executable and reaches the goal; None means no executable plan does, and every reachable list was visited; on every path `visited` has no repeats and starts at the initial state |
| Propositional.InitialInvariant | propositional_planner.py:25-26 | the initial state is visited and is the fringe's only pair |
| Propositional.PopKeepsInvariant | propositional_planner.py:28-29 | popping a pair keeps the invariant, with the popped state still to close |
| Propositional.Progress | propositional_planner.py:40 | a longer `visited` list covers more of the finite space, so the loop ends |
| Propositional.ClosedHoldsReachable | propositional_planner.py:30-42 | once every visited list is closed, every reachable list is visited |
| Propositional.Exhausted | propositional_planner.py:43 | an empty fringe means every reachable list was visited and none is a goal |
| Propositional.Expand | propositional_planner.py:30-42 | the inner loop returns a solving plan with `visited` still free of repeats and only extended at its end, or visits and queues every new successor |
| Propositional.ExtendsTransitive | propositional_planner.py:40-42 | `visited` only grows at its end across the inner loop |
| Propositional.Try | propositional_planner.py:31-42 | one action: a new goal state returns its plan with `visited` and the fringe untouched, any other new state is visited and queued, and the state stays closed up to that action |
| Propositional.StepReached | propositional_planner.py:31-42 | an applicable action extends a reaching chain and stays in the finite space |
| Propositional.PushKeepsInvariant | propositional_planner.py:40-42 | visiting and queueing a new non-goal list keeps the invariant |
| Propositional.ExpandedIsClosed | propositional_planner.py:30-42 | after the inner loop the popped state is closed |

## Left out

- PDDL parsing, reading the domain and problem files, and `Action.groundify` are not part of this model. Their outputs are the inputs of every operation: the initial state, the goals and the ground actions. `Problem._groundify_actions` (planning/search.py:30-36) is therefore absent too.
- `Problem.__init__` also copies `requirements`, `types`, `objects` and `predicates` and sets `cost` (planning/search.py:18-28). Search does not read these fields, so the model leaves them out.
- `Node.__init__` passes the state through `frozenset_of_tuples` and the actions through `tuple` (planning/search.py:8-11). This is the identity on a set of facts, so `Node` holds the state as given.
- `Node.__copy__` (planning/search.py:13-14) takes an extra argument and cannot be called by `copy.copy`. It is not modelled.
- `generate_relaxed_actions_with_fewer_preconditions` (planning/search.py:48-54) needs `smaller_subslices`, which is not defined anywhere shown. It is left out.
- `RelaxedProblem.generate_successors` (planning/relax.py:34-40) repeats the loop of `Problem.generate_successors` with the relaxed test. It is left out; the relaxed `applicable` it calls is modelled.
- `RelaxedProblem.applicable`: the source raises a `TypeError` at line 25. The model states the intended counter semantics described above.
- Relax.RelaxPreconditions: the source raises on an action with negative preconditions after it has already changed earlier actions through the shared copy. The model fails without changing anything.
- Relax.RelaxDeleteEffects: the `_predicates` argument (planning/relax.py:72) is ignored by the source and is not a parameter here.
- Relax.Parameterize: `parameterize` is a generator. The model returns the map from each relaxed predicate set to its problem, so the order in which the problems are yielded is not modelled.
- Copy aliasing: `copy.copy` shares the action objects, so in Python both relaxations also change the input problem (planning/relax.py:60-66, 73-75). The model produces new values.
- planning/planner.py, with its argument parsing, timing of trials and choice of the best relaxed problem, is not part of this model. The `TRANSFORMATIONS` and `TYPES` registries are modelled only through their keys where they select behaviour (`Heuristic.Lookup`).
- `run_planner` and the `__main__` blocks (planner.py:89-119, propositional_planner.py:75-83) only do I/O: reading files, printing and `exit`. They are not modelled.
- Util.PriorityQueue: the heap layout of `_data` is not modelled. `Pop` scans for the least entry, which gives the same item that `heappop` returns.
- Util.PriorityQueue.Update: the source's writes to `self.data` are modelled as writes to `_data`.
- Search.AStarSearch: `graph_search` pushes without a priority. The model uses the node's cost.
- Dinner.SolveDinner: states that breadth-first search returns a shortest plan, and so one of [cook, wrap, carry], [wrap, cook, carry] and [cook, carry, wrap]. It does not prove that it returns exactly [cook, wrap, carry], as the test expects. Which one it gets depends on the order of the ground actions and the order in which the queue hands out equally deep nodes. The model does not follow the search that far.
- Util.Stack.Pop, Util.Queue.Pop, Util.PriorityQueue.Pop: popping an empty container raises in Python; the model returns None.
- No integer width matters: costs and counts are Python integers, modelled as unbounded integers.

## Findings

| source | as written | input that shows it | evidently intended | confidence | as-written member | corrected member |
|---|---|---|---|---|---|---|
| planning/relax.py:49 | `pos_set` is built with `frozenset_of_tuples` over the actions' whole precondition sets. Each element is therefore a tuple of fact tuples, not a fact, so subtracting subsets of `pos_set` from an action's facts (line 64) removes nothing. | The dinner problem: every yielded problem equals the original, and cook still needs `clean` | `pos_set` holds the individual precondition facts, so each yielded problem strictly shrinks some action's preconditions | not executed | Relax.AsWrittenRelaxesNothing, Dinner.DinnerParameterizeAsWritten | Relax.ParameterizeRelaxesSomething, Dinner.DinnerParameterizeCorrected |
