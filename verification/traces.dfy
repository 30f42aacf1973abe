/** Event-driven components are modelled as a step function from a state
    and one event to the next state and the effects performed, folded over
    a sequence of events. */
module Traces {

  /** The state after a step and the effects it performed, in order. */
  datatype Out<S, F> = Out(state: S, effects: seq<F>)

  /** Runs `step` over `es` from `s`, collecting every effect in order. */
  function Fold<S, E, F>(step: (S, E) -> Out<S, F>, s: S, es: seq<E>): (r: Out<S, F>)
    ensures es == [] ==> r == Out(s, [])
    ensures |es| == 1 ==> r == step(s, es[0])
    decreases |es|
  {
    if es == [] then Out(s, [])
    else
      var o := step(s, es[0]);
      var rest := Fold(step, o.state, es[1..]);
      assert |es| == 1 ==> rest.effects == [];
      Out(rest.state, o.effects + rest.effects)
  }

  /** Running `a + b` is running `a` and then `b` from where `a` ended. */
  lemma {:induction false} FoldAppend<S, E, F>(step: (S, E) -> Out<S, F>, s: S, a: seq<E>, b: seq<E>)
    ensures Fold(step, s, a + b).state == Fold(step, Fold(step, s, a).state, b).state
    ensures Fold(step, s, a + b).effects == Fold(step, s, a).effects + Fold(step, Fold(step, s, a).state, b).effects
    decreases |a|
  {
    if a == [] {
      assert a + b == b;
    } else {
      assert (a + b)[0] == a[0];
      assert (a + b)[1..] == a[1..] + b;
      FoldAppend(step, step(s, a[0]).state, a[1..], b);
    }
  }

  /** Running `es` is running all but its last event, then the last one. */
  lemma FoldSnoc<S, E, F>(step: (S, E) -> Out<S, F>, s: S, es: seq<E>)
    requires es != []
    ensures Fold(step, s, es).state == step(Fold(step, s, es[..|es| - 1]).state, es[|es| - 1]).state
    ensures Fold(step, s, es).effects
            == Fold(step, s, es[..|es| - 1]).effects + step(Fold(step, s, es[..|es| - 1]).state, es[|es| - 1]).effects
  {
    var init, last := es[..|es| - 1], es[|es| - 1];
    assert init + [last] == es;
    FoldAppend(step, s, init, [last]);
    var mid := Fold(step, s, init).state;
    assert Fold(step, mid, [last]) == step(mid, last);
  }
}
