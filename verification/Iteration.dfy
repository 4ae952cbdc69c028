/** Sequences of actions on a world. */
module Iteration {
  /** The world after the actions, in order. */
  function Iterate<W, A>(act: (W, A) -> W, w: W, actions: seq<A>): W
  {
    if actions == [] then w else act(Iterate(act, w, actions[..|actions| - 1]), actions[|actions| - 1])
  }

  ghost predicate Preserves<W(!new), A(!new)>(act: (W, A) -> W, inv: W -> bool, allowed: A -> bool)
  {
    forall w, a :: inv(w) && allowed(a) ==> inv(act(w, a))
  }

  /** What every allowed action keeps holds after every sequence of them. */
  lemma {:induction false} Invariant<W(!new), A(!new)>(act: (W, A) -> W, inv: W -> bool, allowed: A -> bool, w: W, actions: seq<A>)
    requires inv(w) && Preserves(act, inv, allowed) && forall i :: 0 <= i < |actions| ==> allowed(actions[i])
    ensures inv(Iterate(act, w, actions))
  {
    if actions != [] {
      var n := |actions| - 1;
      Invariant(act, inv, allowed, w, actions[..n]);
      assert allowed(actions[n]);
    }
  }
}
