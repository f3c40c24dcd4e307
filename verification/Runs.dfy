/** Continuations: getting from one state of a transition system to another. */
module Runs {

  ghost predicate IsPath<S, E>(next: (S, E, S) -> bool, states: seq<S>, steps: seq<E>) {
    && |states| == |steps| + 1
    && forall i :: 0 <= i < |steps| ==> next(states[i], steps[i], states[i + 1])
  }

  /** Some continuation gets from the one state to the other. */
  ghost predicate Leads<S(!new), E(!new)>(next: (S, E, S) -> bool, s: S, t: S) {
    exists states: seq<S>, steps: seq<E> ::
      IsPath(next, states, steps) && states[0] == s && states[|steps|] == t
  }

  lemma LeadsToItself<S(!new), E(!new)>(next: (S, E, S) -> bool, s: S)
    ensures Leads(next, s, s)
  {
    var states: seq<S>, steps: seq<E> := [s], [];
    assert IsPath(next, states, steps) && states[0] == s && states[|steps|] == s;
  }

  lemma LeadsByStep<S(!new), E(!new)>(next: (S, E, S) -> bool, s: S, e: E, t: S)
    requires next(s, e, t)
    ensures Leads(next, s, t)
  {
    var states, steps := [s, t], [e];
    assert IsPath(next, states, steps) && states[0] == s && states[|steps|] == t;
  }

  lemma LeadsOn<S(!new), E(!new)>(next: (S, E, S) -> bool, s: S, t: S, u: S)
    requires Leads(next, s, t) && Leads(next, t, u)
    ensures Leads(next, s, u)
  {
    var a: seq<S>, x: seq<E> :| IsPath(next, a, x) && a[0] == s && a[|x|] == t;
    var b: seq<S>, y: seq<E> :| IsPath(next, b, y) && b[0] == t && b[|y|] == u;
    var states, steps := a + b[1..], x + y;
    forall i | 0 <= i < |steps| ensures next(states[i], steps[i], states[i + 1]) {
      if i >= |x| {
        assert next(b[i - |x|], y[i - |x|], b[i - |x| + 1]);
      }
    }
    assert IsPath(next, states, steps) && states[0] == s && states[|steps|] == u;
  }
}
