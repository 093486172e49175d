/** Event-driven components as state machines: a step takes the current
    state and one event to a new state and the actions the event caused. A
    trace runs the steps over events in arrival order. */
module Traces {

  datatype Outcome<S, A> = Outcome(state: S, actions: seq<A>)

  /** The final state after `events`, starting from `s`, and every action
      caused along the way, in order. */
  function Run<S, E, A>(step: (S, E) -> Outcome<S, A>, s: S, events: seq<E>): Outcome<S, A>
    decreases |events|
  {
    if events == [] then Outcome(s, [])
    else
      var first := step(s, events[0]);
      var rest := Run(step, first.state, events[1..]);
      Outcome(rest.state, first.actions + rest.actions)
  }

  /** Running two event sequences one after the other is running their
      concatenation. */
  lemma {:induction false} RunAppend<S, E, A>(step: (S, E) -> Outcome<S, A>, s: S, xs: seq<E>, ys: seq<E>)
    ensures var a := Run(step, s, xs); var b := Run(step, a.state, ys);
      Run(step, s, xs + ys) == Outcome(b.state, a.actions + b.actions)
    decreases |xs|
  {
    if xs == [] {
      assert xs + ys == ys;
    } else {
      var first := step(s, xs[0]);
      assert (xs + ys)[0] == xs[0];
      assert (xs + ys)[1..] == xs[1..] + ys;
      RunAppend(step, first.state, xs[1..], ys);
      var a' := Run(step, first.state, xs[1..]);
      var b := Run(step, a'.state, ys);
      assert first.actions + (a'.actions + b.actions) == (first.actions + a'.actions) + b.actions;
    }
  }

  /** Running one event is taking one step. */
  lemma RunOne<S, E, A>(step: (S, E) -> Outcome<S, A>, s: S, e: E)
    ensures Run(step, s, [e]) == step(s, e)
  {
    assert [e][1..] == [];
    assert step(s, e).actions + [] == step(s, e).actions;
  }
}
