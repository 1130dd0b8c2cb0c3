# Counter reducer

A model of the counter slice of a small store built on the action/reducer
pattern. A view dispatches named actions. The reducer `counterReducer` maps the
current state and an action to the next state. The state is a record holding
one integer `value`.

- `wrappers.dfy` — `Option`. `None` stands for a state argument that was not passed.
- `counter_reducer.dfy` (module `Counter`) — `CounterState` and `InitialState`.
  It also holds the action vocabulary: the three tag strings (`ActionTags`) and the
  switch on `action.type` (`Classify`). The reducer itself is `Reduce` on a
  classified action and `CounterReducer` on the raw `type` string. The
  one-step properties are lemmas.
- `counter_dispatch.dfy` (module `CounterDispatch`) — `Run` folds the reducer over
  a sequence of dispatched actions. The state returned by one call is the state
  passed to the next. Lemmas about whole sequences live here: a closed form of the
  final value, reset absorption, increment/decrement cancellation, the invisibility
  of unknown actions, order independence without resets, and the worked scenarios.

The actual strings of `INCREMENT`, `DECREMENT` and `RESET` are defined in
`store/actions/counterActions`, which is not part of this model. They are
therefore parameters (`ActionTags`). `Classify` tries the cases in the source's
order with strict equality, so even colliding tags are modelled as the switch
behaves. The lemmas that need three different tags say so with `Distinct(tags)`.

The reducer has no precondition in the model. Dafny functions are total, so
every (state, action) pair yields a state and no branch can fail.

## Model

| member | source | states |
|---|---|---|
| Counter.Classify | redux-state-management/src/store/reducers/counterReducer.ts:12-20 | the action falls to the default branch exactly when its `type` is none of the three known tags, and then keeps that `type` |
| Counter.Reduce | redux-state-management/src/store/reducers/counterReducer.ts:11-22 | a reset yields the initial state; any other action moves the prior value by exactly its delta (+1, -1 or 0); an unknown action returns the prior state itself |
| Counter.Prior | redux-state-management/src/store/reducers/counterReducer.ts:7-11 | an absent state is replaced by `{ value: 0 }`; a given state is used as it is |
| Counter.CounterReducer | redux-state-management/src/store/reducers/counterReducer.ts:11-22 | on the raw `type` string, following the switch's case order: the increment tag adds 1; the decrement tag subtracts 1 unless it is also the increment tag; the reset tag gives 0 unless an earlier tag equals it; any other string returns the prior state |
| Counter.CounterReducerTable | redux-state-management/src/store/reducers/counterReducer.ts:11-22 | the transition table on the `type` string: increment +1 and unknown strings leave the state for any tags; decrement -1 and reset 0 once the three tags are distinct |
| Counter.TypeOfClassify | redux-state-management/src/store/reducers/counterReducer.ts:12-20 | the `type` of the action matched for a string is that string |
| Counter.ClassifyTypeOf | redux-state-management/src/store/reducers/counterReducer.ts:12-20 | with distinct tags, matching the `type` an action carries recovers the action |
| Counter.IncrementAddsOne | redux-state-management/src/store/reducers/counterReducer.ts:13-14 | increment on value v yields value v + 1 |
| Counter.DecrementSubtractsOne | redux-state-management/src/store/reducers/counterReducer.ts:15-16 | decrement on value v yields value v - 1 |
| Counter.ResetZeroes | redux-state-management/src/store/reducers/counterReducer.ts:17-18 | reset yields value 0 whatever the prior state, absent included |
| Counter.ResetIdempotent | redux-state-management/src/store/reducers/counterReducer.ts:17-18 | resetting twice gives the same state as resetting once |
| Counter.UnknownIsNoOp | redux-state-management/src/store/reducers/counterReducer.ts:19-20 | an unrecognised action returns the state unchanged |
| Counter.AbsentIsInitial | redux-state-management/src/store/reducers/counterReducer.ts:7-11 | an absent state behaves exactly as `{ value: 0 }` for every action |
| Counter.IncrementDecrementCancel | redux-state-management/src/store/reducers/counterReducer.ts:13-16 | increment then decrement, or decrement then increment, returns the original state |
| CounterDispatch.RunAppend | redux-state-management/src/store/reducers/counterReducer.ts:11-22 | dispatching xs then ys from s equals dispatching ys from the state xs reached |
| CounterDispatch.RunSnoc | redux-state-management/src/store/reducers/counterReducer.ts:11-22 | one more dispatch applies the reducer to the state reached so far |
| CounterDispatch.RunClosedForm | redux-state-management/src/store/reducers/counterReducer.ts:11-22 | after any dispatch sequence the value is (0 if some action reset, else the prior value) plus the net moves since the last reset |
| CounterDispatch.RunWithoutReset | redux-state-management/src/store/reducers/counterReducer.ts:13-16 | without a reset, the value moves by the number of increments minus decrements |
| CounterDispatch.ResetAbsorbs | redux-state-management/src/store/reducers/counterReducer.ts:17-18 | a reset anywhere forgets every action dispatched before it and the start state |
| CounterDispatch.IncrementDecrementCancelIn | redux-state-management/src/store/reducers/counterReducer.ts:13-16 | an adjacent increment/decrement pair, in either order, can be removed from any dispatch sequence |
| CounterDispatch.KnownAppend | redux-state-management/src/store/reducers/counterReducer.ts:19-20 | dropping the unrecognised actions distributes over concatenation, so the known actions keep their order |
| CounterDispatch.UnknownInvisible | redux-state-management/src/store/reducers/counterReducer.ts:19-20 | dropping every unrecognised action from a dispatch sequence does not change the final state |
| CounterDispatch.ResetFreeOrderIrrelevant | redux-state-management/src/store/reducers/counterReducer.ts:13-16 | two reset-free dispatch sequences with the same actions in any order reach the same state |
| CounterDispatch.Scenarios | redux-state-management/src/store/reducers/counterReducer.ts:11-22 | 0 → + → + → − → reset passes 1, 2, 1 and ends at 0; −3 → + gives −2; an unknown action on 5 gives 5 |

## Left out

- `value` is a JavaScript `number` (a double). The model uses an unbounded integer, so precision loss beyond 2^53 is not modelled.
- The spelling of the three tag strings lives in `store/actions/counterActions`, which is not part of this model; the tags are parameters.
- `action` is untyped in the source. The model takes its `type` as a string. Actions without a `type`, or with a non-string `type`, and any payload fields are not modelled.
- The default branch returns the very same object. The model states value equality only, not object identity.
- The default parameter applies when the state argument is `undefined`. An explicit `null` state is not modelled: it would make `state.value` fail in the source.
- The view component (`components/counter.tsx`), the hooks it uses, the store wiring and the subscriptions are not part of this model. The store's threading of one call's output into the next is modelled only as the function `CounterDispatch.Run`.
