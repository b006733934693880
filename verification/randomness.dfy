/**
 The random choices of the engine, injected: instead of the global generator
 behind `random.choice`, a stream of raw draws and a cursor into it. The
 k-th choice among n candidates takes candidate `draws(k) % n`.
 */
module Randomness {

  datatype Rng = Rng(draws: nat -> nat, cursor: nat)

  /** Pick one of `xs`, consuming one draw; `random.choice` raises on an empty list. */
  function Choice<A(==)>(rng: Rng, xs: seq<A>): (r: (A, Rng))
    requires |xs| > 0
    ensures r.0 in xs
    ensures r.1.draws == rng.draws && r.1.cursor == rng.cursor + 1
  {
    (xs[rng.draws(rng.cursor) % |xs|], Rng(rng.draws, rng.cursor + 1))
  }
}
