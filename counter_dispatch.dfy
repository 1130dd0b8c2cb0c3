/** Sequences of dispatched actions: the store feeds the reducer one action at a
    time, and the state returned by call n is the state passed to call n + 1. */
module CounterDispatch {
  import opened Wrappers
  import opened Counter

  /** The state after dispatching `actions`, in order, starting from `s`. */
  function Run(s: Option<CounterState>, actions: seq<Action>): CounterState
    decreases |actions|
  {
    if actions == [] then Prior(s)
    else Run(Some(Reduce(s, actions[0])), actions[1..])
  }

  /** Sum of the moves of the actions, as if none of them reset. */
  function Net(actions: seq<Action>): int {
    if actions == [] then 0 else Delta(actions[0]) + Net(actions[1..])
  }

  /** The actions dispatched after the last reset (all of them if none reset). */
  function SinceLastReset(actions: seq<Action>): (r: seq<Action>)
    ensures |r| <= |actions| && r == actions[|actions| - |r|..]
    ensures Reset !in r
    ensures Reset !in actions ==> r == actions
  {
    if actions == [] then []
    else if actions[|actions| - 1] == Reset then []
    else SinceLastReset(actions[..|actions| - 1]) + [actions[|actions| - 1]]
  }

  /** The actions with every unrecognised one dropped. */
  function Known(actions: seq<Action>): (r: seq<Action>)
    ensures forall a :: a in r ==> a in actions && !a.Other?
    ensures forall a :: a in actions && !a.Other? ==> a in r
  {
    if actions == [] then []
    else if actions[0].Other? then Known(actions[1..])
    else [actions[0]] + Known(actions[1..])
  }

  /** `Known` keeps a single action exactly when it is known. */
  lemma KnownSingle(a: Action)
    ensures Known([a]) == if a.Other? then [] else [a]
  {
    assert [a][1..] == [];
  }

  /** `Known` keeps the known actions in their order: it distributes over
      concatenation. */
  lemma {:induction false} KnownAppend(xs: seq<Action>, ys: seq<Action>)
    ensures Known(xs + ys) == Known(xs) + Known(ys)
    decreases |xs|
  {
    if xs == [] {
      assert xs + ys == ys;
    } else {
      assert (xs + ys)[0] == xs[0];
      assert (xs + ys)[1..] == xs[1..] + ys;
      KnownAppend(xs[1..], ys);
    }
  }

  /** Dispatching two batches one after the other is dispatching their concatenation. */
  lemma {:induction false} RunAppend(s: Option<CounterState>, xs: seq<Action>, ys: seq<Action>)
    ensures Run(s, xs + ys) == Run(Some(Run(s, xs)), ys)
    decreases |xs|
  {
    if xs == [] {
      assert xs + ys == ys;
      if ys == [] {
      } else {
        assert Reduce(s, ys[0]) == Reduce(Some(Prior(s)), ys[0]);
      }
    } else {
      assert (xs + ys)[0] == xs[0];
      assert (xs + ys)[1..] == xs[1..] + ys;
      RunAppend(Some(Reduce(s, xs[0])), xs[1..], ys);
    }
  }

  /** One more dispatch applies the reducer to the state reached so far. */
  lemma RunSnoc(s: Option<CounterState>, xs: seq<Action>, x: Action)
    ensures Run(s, xs + [x]) == Reduce(Some(Run(s, xs)), x)
  {
    RunAppend(s, xs, [x]);
  }

  lemma {:induction false} NetAppend(xs: seq<Action>, ys: seq<Action>)
    ensures Net(xs + ys) == Net(xs) + Net(ys)
    decreases |xs|
  {
    if xs == [] {
      assert xs + ys == ys;
    } else {
      assert (xs + ys)[1..] == xs[1..] + ys;
      NetAppend(xs[1..], ys);
    }
  }

  /** The counter after any sequence of dispatches: zero (or the prior value, if
      nothing reset it) plus the net moves made since the last reset. */
  lemma {:induction false} RunClosedForm(s: Option<CounterState>, xs: seq<Action>)
    ensures Run(s, xs).value == (if Reset in xs then 0 else Prior(s).value) + Net(SinceLastReset(xs))
    decreases |xs|
  {
    if xs != [] {
      var ys, x := xs[..|xs| - 1], xs[|xs| - 1];
      assert xs == ys + [x];
      RunSnoc(s, ys, x);
      RunClosedForm(s, ys);
      if x != Reset {
        assert Reset in xs <==> Reset in ys;
        NetAppend(SinceLastReset(ys), [x]);
      }
    }
  }

  /** Without a reset, the counter moves by the net count of the dispatches. */
  lemma RunWithoutReset(s: Option<CounterState>, xs: seq<Action>)
    requires Reset !in xs
    ensures Run(s, xs).value == Prior(s).value + Net(xs)
  {
    RunClosedForm(s, xs);
  }

  /** A reset forgets everything dispatched before it, including the start state. */
  lemma ResetAbsorbs(s: Option<CounterState>, xs: seq<Action>, ys: seq<Action>)
    ensures Run(s, xs + [Reset] + ys) == Run(None, ys)
  {
    RunAppend(s, xs + [Reset], ys);
    RunSnoc(s, xs, Reset);
    RunAppend(None, [], ys);
  }

  /** An increment followed by a decrement, or the other way round, anywhere in a
      sequence of dispatches, changes nothing. */
  lemma IncrementDecrementCancelIn(s: Option<CounterState>, xs: seq<Action>, ys: seq<Action>)
    ensures Run(s, xs + [Increment, Decrement] + ys) == Run(s, xs + ys)
    ensures Run(s, xs + [Decrement, Increment] + ys) == Run(s, xs + ys)
  {
    var mid := Some(Run(s, xs));
    RunAppend(s, xs, ys);
    RunAppend(s, xs + [Increment, Decrement], ys);
    RunAppend(s, xs, [Increment, Decrement]);
    RunAppend(s, xs + [Decrement, Increment], ys);
    RunAppend(s, xs, [Decrement, Increment]);
    assert Run(mid, [Increment, Decrement]) == Run(s, xs);
    assert Run(mid, [Decrement, Increment]) == Run(s, xs);
  }

  /** Unrecognised actions leave no trace in any sequence of dispatches. */
  lemma {:induction false} UnknownInvisible(s: Option<CounterState>, xs: seq<Action>)
    ensures Run(s, xs) == Run(s, Known(xs))
    decreases |xs|
  {
    if xs != [] {
      UnknownInvisible(Some(Reduce(s, xs[0])), xs[1..]);
      if xs[0].Other? {
        var rest := Known(xs[1..]);
        if rest == [] {
        } else {
          assert Reduce(Some(Reduce(s, xs[0])), rest[0]) == Reduce(s, rest[0]);
        }
      } else {
        assert ([xs[0]] + Known(xs[1..]))[1..] == Known(xs[1..]);
      }
    }
  }

  /** The net move counts increments minus decrements, whatever their order. */
  lemma {:induction false} NetByCount(xs: seq<Action>)
    ensures Net(xs) == multiset(xs)[Increment] as int - multiset(xs)[Decrement] as int
    decreases |xs|
  {
    if xs != [] {
      assert xs == [xs[0]] + xs[1..];
      assert multiset(xs) == multiset([xs[0]]) + multiset(xs[1..]);
      NetByCount(xs[1..]);
    }
  }

  /** Without a reset, the order in which actions are dispatched does not matter. */
  lemma ResetFreeOrderIrrelevant(s: Option<CounterState>, xs: seq<Action>, ys: seq<Action>)
    requires Reset !in xs
    requires multiset(xs) == multiset(ys)
    ensures Run(s, xs) == Run(s, ys)
  {
    assert Reset !in multiset(ys);
    RunWithoutReset(s, xs);
    RunWithoutReset(s, ys);
    NetByCount(xs);
    NetByCount(ys);
  }

  /** The worked scenarios: 0, +, +, -, reset gives 0 (through 1, 2, 1); -3, +
      gives -2; an unknown action on 5 leaves 5. */
  lemma Scenarios(noop: string)
    ensures Run(Some(CounterState(0)), [Increment]) == CounterState(1)
    ensures Run(Some(CounterState(0)), [Increment, Increment]) == CounterState(2)
    ensures Run(Some(CounterState(0)), [Increment, Increment, Decrement]) == CounterState(1)
    ensures Run(Some(CounterState(0)), [Increment, Increment, Decrement, Reset]) == CounterState(0)
    ensures Run(Some(CounterState(-3)), [Increment]) == CounterState(-2)
    ensures Run(Some(CounterState(5)), [Other(noop)]) == CounterState(5)
  {
  }
}
