/** What the step relations share: recorded runs and counting the moves in them. */
module Runs {

  /** The moves of a run and the states around them. */
  datatype Run<S, M> = Run(moves: seq<M>, states: seq<S>)

  /** How many of the first `k` moves are of the kind `p`. */
  ghost function CountMoves<M>(p: M -> bool, moves: seq<M>, k: nat): nat
    requires k <= |moves|
  {
    if k == 0 then 0 else CountMoves(p, moves, k - 1) + if p(moves[k - 1]) then 1 else 0
  }

  lemma {:induction false} NoneCounted<M>(p: M -> bool, moves: seq<M>, k: nat)
    requires k <= |moves| && forall j :: 0 <= j < k ==> !p(moves[j])
    ensures CountMoves(p, moves, k) == 0
  {
    if k == 0 {
    } else {
      NoneCounted(p, moves, k - 1);
    }
  }

  /** Later moves do not matter. */
  lemma {:induction false} SameCount<M>(p: M -> bool, moves: seq<M>, more: seq<M>, k: nat)
    requires k <= |moves|
    ensures CountMoves(p, moves + more, k) == CountMoves(p, moves, k)
  {
    if k == 0 {
    } else {
      SameCount(p, moves, more, k - 1);
    }
  }

  /** What the steps of one agent show from outside: `sees` tells the effects of a step from the states around it,
      `mine` which moves are the agent's. */
  ghost function Trace<S, M, E>(
      mine: M -> bool, sees: (S, M, S) -> seq<E>, moves: seq<M>, states: seq<S>, k: nat): seq<E>
    requires k <= |moves| < |states|
  {
    if k == 0 then []
    else
      Trace(mine, sees, moves, states, k - 1)
      + if mine(moves[k - 1]) then sees(states[k - 1], moves[k - 1], states[k]) else []
  }
}
