/**
 * Ground facts, states and ground actions: the STRIPS vocabulary every planner
 * of the repository shares. Grounding of action schemas happens outside this
 * model; ground actions arrive as values.
 */
module Actions {

  /** A ground fact: a predicate name followed by its arguments. */
  type Fact = seq<string>

  /** A state under the closed-world assumption: the facts that are true. */
  type State = set<Fact>

  /** A fully instantiated action schema. */
  datatype GroundAction = GroundAction(
    name: string,
    parameters: seq<string>,
    positivePreconditions: set<Fact>,
    negativePreconditions: set<Fact>,
    addEffects: set<Fact>,
    delEffects: set<Fact>,
    cost: int)

  /** Every fact some action of `actions` can add. */
  function AddedFacts(actions: seq<GroundAction>): (r: set<Fact>)
    ensures forall i :: 0 <= i < |actions| ==> actions[i].addEffects <= r
    ensures forall f :: f in r ==> exists i :: 0 <= i < |actions| && f in actions[i].addEffects
  {
    if actions == [] then {}
    else AddedFacts(actions[..|actions| - 1]) + actions[|actions| - 1].addEffects
  }

  /** True when no action of `actions` has a negative precondition. */
  predicate NoNegativePreconditions(actions: seq<GroundAction>)
  {
    forall i :: 0 <= i < |actions| ==> actions[i].negativePreconditions == {}
  }
}
