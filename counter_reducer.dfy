/** The counter slice of the store: its state, its action vocabulary and its reducer. */
module Counter {
  import opened Wrappers

  /** The counter's state: one unbounded integer, which may go negative. */
  datatype CounterState = CounterState(value: int)

  /** The state a store starts from, and the one an absent state stands for. */
  const InitialState := CounterState(0)

  /** The three `type` strings the action creators put on their actions. Their
      actual spelling is defined outside this model, so they are parameters. */
  datatype ActionTags = ActionTags(increment: string, decrement: string, reset: string)

  /** The reading in which the three known tags are three different strings. */
  predicate Distinct(tags: ActionTags) {
    tags.increment != tags.decrement && tags.increment != tags.reset && tags.decrement != tags.reset
  }

  predicate IsKnownTag(tags: ActionTags, t: string) {
    t == tags.increment || t == tags.decrement || t == tags.reset
  }

  /** What the reducer makes of an action, once its `type` has been matched. */
  datatype Action = Increment | Decrement | Reset | Other(tag: string)

  /** The `switch` on `action.type`: the cases are tried in source order with
      strict equality, and anything else falls to `default`. */
  function Classify(tags: ActionTags, actionType: string): (a: Action)
    ensures a.Other? <==> !IsKnownTag(tags, actionType)
    ensures a.Other? ==> a.tag == actionType
  {
    if actionType == tags.increment then Increment
    else if actionType == tags.decrement then Decrement
    else if actionType == tags.reset then Reset
    else Other(actionType)
  }

  /** The `type` string an action of kind `a` carries when it is dispatched. */
  function TypeOf(tags: ActionTags, a: Action): string {
    match a
    case Increment => tags.increment
    case Decrement => tags.decrement
    case Reset => tags.reset
    case Other(t) => t
  }

  /** The state the reducer works on: the default parameter supplies
      `InitialState` when no state is passed. */
  function Prior(s: Option<CounterState>): (r: CounterState)
    ensures s.None? ==> r == CounterState(0)
    ensures s.Some? ==> r == s.value
  {
    match s
    case None => InitialState
    case Some(state) => state
  }

  /** How far an action moves the counter when it is not a reset. */
  function Delta(a: Action): int {
    match a
    case Increment => 1
    case Decrement => -1
    case Reset => 0
    case Other(_) => 0
  }

  /** The reducer on a classified action. It has no precondition: every pair of
      a (possibly absent) state and an action yields a next state. */
  function Reduce(s: Option<CounterState>, a: Action): (r: CounterState)
    ensures a == Reset ==> r == InitialState
    ensures a != Reset ==> r.value == Prior(s).value + Delta(a)
    ensures a.Other? ==> r == Prior(s)
  {
    var state := Prior(s);
    match a
    case Increment => CounterState(state.value + 1)
    case Decrement => CounterState(state.value - 1)
    case Reset => CounterState(0)
    case Other(_) => state
  }

  /** `counterReducer(state, action)`, with the action given by its `type`.
      Each row of the table holds whenever no earlier case of the switch
      matches the same string. */
  function CounterReducer(tags: ActionTags, s: Option<CounterState>, actionType: string): (r: CounterState)
    ensures actionType == tags.increment ==> r.value == Prior(s).value + 1
    ensures actionType == tags.decrement && actionType != tags.increment ==> r.value == Prior(s).value - 1
    ensures actionType == tags.reset && actionType != tags.increment && actionType != tags.decrement ==> r.value == 0
    ensures !IsKnownTag(tags, actionType) ==> r == Prior(s)
  {
    Reduce(s, Classify(tags, actionType))
  }

  /** The transition table on the `type` string. Only the decrement and reset
      rows need the three tags to be distinct. */
  lemma CounterReducerTable(tags: ActionTags, s: Option<CounterState>, t: string)
    ensures CounterReducer(tags, s, tags.increment) == CounterState(Prior(s).value + 1)
    ensures Distinct(tags) ==> CounterReducer(tags, s, tags.decrement) == CounterState(Prior(s).value - 1)
    ensures Distinct(tags) ==> CounterReducer(tags, s, tags.reset) == CounterState(0)
    ensures !IsKnownTag(tags, t) ==> CounterReducer(tags, s, t) == Prior(s)
  {
  }

  /** Reading the `type` of a classified action gives back the string matched. */
  lemma TypeOfClassify(tags: ActionTags, t: string)
    ensures TypeOf(tags, Classify(tags, t)) == t
  {
  }

  /** With three distinct tags, classifying the `type` an action carries gives
      back that action, unless an unknown action borrows a known tag. */
  lemma ClassifyTypeOf(tags: ActionTags, a: Action)
    requires Distinct(tags)
    requires a.Other? ==> !IsKnownTag(tags, a.tag)
    ensures Classify(tags, TypeOf(tags, a)) == a
  {
  }

  // The one-step lemmas below are corollaries of the contract of `Reduce`,
  // stated here in the form of the properties the reducer promises.

  lemma IncrementAddsOne(v: int)
    ensures Reduce(Some(CounterState(v)), Increment) == CounterState(v + 1)
  {
  }

  lemma DecrementSubtractsOne(v: int)
    ensures Reduce(Some(CounterState(v)), Decrement) == CounterState(v - 1)
  {
  }

  lemma ResetZeroes(s: Option<CounterState>)
    ensures Reduce(s, Reset) == CounterState(0)
  {
  }

  lemma ResetIdempotent(s: Option<CounterState>)
    ensures Reduce(Some(Reduce(s, Reset)), Reset) == Reduce(s, Reset)
  {
  }

  lemma UnknownIsNoOp(s: Option<CounterState>, t: string)
    ensures Reduce(s, Other(t)) == Prior(s)
  {
  }

  /** An absent state behaves exactly like `{ value: 0 }`. */
  lemma AbsentIsInitial(a: Action)
    ensures Reduce(None, a) == Reduce(Some(CounterState(0)), a)
  {
  }

  /** Increment and decrement undo each other, in either order. */
  lemma IncrementDecrementCancel(s: Option<CounterState>)
    ensures Reduce(Some(Reduce(s, Increment)), Decrement) == Prior(s)
    ensures Reduce(Some(Reduce(s, Decrement)), Increment) == Prior(s)
  {
  }
}
