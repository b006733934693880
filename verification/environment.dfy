/**
 The interface the search engine consumes from a game: the ordered legal
 actions of a state, a pure transition, the identity under which the value
 store files a state (Python's `__eq__`/`__hash__`), and a rank that every
 legal step lowers, which is what makes random playouts finite.
 */
module Environment {

  datatype Game<!S, !A, K> = Game(
    actions: S -> seq<A>,
    step: (S, A) --> S,
    key: S -> K,
    rank: S -> nat)

  /** A state is final when it offers no legal action. */
  predicate IsFinal<S, A, K>(g: Game<S, A, K>, s: S)
    ensures IsFinal(g, s) <==> forall a :: a !in g.actions(s)
  {
    var actions := g.actions(s);
    assert |actions| > 0 ==> actions[0] in actions;
    |actions| == 0
  }

  /**
   Every legal action can be applied, and applying it lowers the rank: a
   play that only takes legal actions ends.
   */
  ghost predicate Terminating<S(!new), A(!new), K>(g: Game<S, A, K>) {
    forall s, a | a in g.actions(s) :: g.step.requires(s, a) && g.rank(g.step(s, a)) < g.rank(s)
  }

  /** `t` is reached from `s` by one of the actions `s` offers. */
  ghost predicate Successor<S, A(!new), K>(g: Game<S, A, K>, s: S, t: S) {
    exists a | a in g.actions(s) :: g.step.requires(s, a) && t == g.step(s, a)
  }

  /** A non-empty sequence of states in which each one follows its predecessor by a legal action. */
  ghost predicate IsPlay<S, A(!new), K>(g: Game<S, A, K>, states: seq<S>) {
    && |states| > 0
    && forall i | 0 <= i < |states| - 1 :: Successor(g, states[i], states[i + 1])
  }
}
