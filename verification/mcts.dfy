/**
 The search engine: random playouts from the root's successors, every
 playout state credited in the value store with the playout's evaluation,
 then a greedy pick among the root's actions.

 The engine runs a fixed number of iterations; the random choices come from
 an injected `Rng`; the value store is threaded through explicitly because it
 is the engine's only memory and persists across searches.
 */
module Mcts {

  import opened Environment
  import opened Randomness
  import opened ValueStore

  /** A configured engine: the game, the evaluation function and the iteration count. */
  datatype Engine<!S, !A, K> = Engine(game: Game<S, A, K>, evaluate: S -> real, numRollouts: nat)

  /** The iteration count an engine gets when none is given. */
  const DefaultRollouts: nat := 10000

  /** A freshly constructed engine with the default iteration count, and its empty store. */
  function NewEngine<S, A, K(!new)>(game: Game<S, A, K>, evaluate: S -> real): (r: (Engine<S, A, K>, Store<K>))
    ensures r.0.game == game && r.0.evaluate == evaluate
    ensures r.0.numRollouts == 10000
    ensures Valid(r.1) && forall k :: Visits(r.1, k) == 0
  {
    (Engine(game, evaluate, DefaultRollouts), Empty())
  }

  /**
   Play uniformly chosen legal actions from `s` until a final state; return
   every state met, `s` first and the final one last.
   */
  method Rollout<S(!new), A(!new, ==), K>(g: Game<S, A, K>, s: S, rng: Rng) returns (states: seq<S>, rng': Rng)
    requires Terminating(g)
    ensures IsPlay(g, states)
    ensures states[0] == s
    ensures IsFinal(g, states[|states| - 1])
    ensures |states| <= g.rank(s) + 1
    ensures rng'.draws == rng.draws && rng'.cursor == rng.cursor + |states| - 1
  {
    states := [s];
    rng' := rng;
    while !IsFinal(g, states[|states| - 1])
      invariant IsPlay(g, states)
      invariant states[0] == s
      invariant g.rank(states[|states| - 1]) + |states| <= g.rank(s) + 1
      invariant rng'.draws == rng.draws && rng'.cursor == rng.cursor + |states| - 1
      decreases g.rank(states[|states| - 1])
    {
      var last := states[|states| - 1];
      var pick := Choice(rng', g.actions(last));
      var a := pick.0;
      rng' := pick.1;
      var next := g.step(last, a);
      assert Successor(g, last, next);
      states := states + [next];
    }
  }

  /** `vals[i]` is a greatest value and no earlier value is as great. */
  ghost predicate IsFirstMax(vals: seq<Value>, i: int) {
    && 0 <= i < |vals|
    && (forall j | 0 <= j < |vals| :: !Above(vals[j], vals[i]))
    && (forall j | 0 <= j < i :: Above(vals[i], vals[j]))
  }

  /** At most one index is the first greatest one. */
  lemma FirstMaxUnique(vals: seq<Value>, i: int, j: int)
    requires IsFirstMax(vals, i) && IsFirstMax(vals, j)
    ensures i == j
  {
    assert !Above(vals[j], vals[i]) && !Above(vals[i], vals[j]);
  }

  /**
   The index of the first greatest value, scanning left to right and moving
   only on a strictly greater value, as `np.argmax` does.
   */
  function ArgMax(vals: seq<Value>): (i: nat)
    requires |vals| > 0
    ensures IsFirstMax(vals, i)
  {
    if |vals| == 1 then 0
    else
      var n := |vals| - 1;
      var j := ArgMax(vals[..n]);
      assert forall k | 0 <= k < n :: vals[..n][k] == vals[k];
      if Above(vals[n], vals[j]) then n else j
  }

  /** When no value is known, the first index wins. */
  lemma ArgMaxAllUnknown(vals: seq<Value>)
    requires |vals| > 0
    requires forall j | 0 <= j < |vals| :: vals[j].Unknown?
    ensures ArgMax(vals) == 0
  {
  }

  /** The estimates of the successors of `root`, one per action, in action order. */
  function SuccessorValues<S(!new), A(!new), K(!new)>(g: Game<S, A, K>, st: Store<K>, root: S): (vals: seq<Value>)
    requires Terminating(g)
    requires Valid(st)
    ensures |vals| == |g.actions(root)|
    ensures forall i | 0 <= i < |vals| :: vals[i].Known? <==> Visits(st, g.key(g.step(root, g.actions(root)[i]))) > 0
  {
    var acts := g.actions(root);
    seq(|acts|, i requires 0 <= i < |acts| => Estimate(st, g.key(g.step(root, acts[i]))))
  }

  /** The keys of `states`, in order: what one iteration credits. */
  function KeysOf<S, A, K>(g: Game<S, A, K>, states: seq<S>): seq<K> {
    seq(|states|, i requires 0 <= i < |states| => g.key(states[i]))
  }

  /**
   Crediting a playout touches exactly the states on it: each of them gains
   a visit and becomes known, and every other key keeps its count and its
   estimate.
   */
  lemma CreditTouchesOnlyPlay<S, A, K(!new)>(g: Game<S, A, K>, st: Store<K>, play: seq<S>, evaluation: real)
    requires Valid(st)
    ensures var r := Update(st, KeysOf(g, play), evaluation);
      forall i | 0 <= i < |play| :: Visits(r, g.key(play[i])) > Visits(st, g.key(play[i])) && Estimate(r, g.key(play[i])).Known?
    ensures var r := Update(st, KeysOf(g, play), evaluation);
      forall k | (forall i | 0 <= i < |play| :: g.key(play[i]) != k) :: Visits(r, k) == Visits(st, k) && Estimate(r, k) == Estimate(st, k)
  {
    var keys := KeysOf(g, play);
    var r := Update(st, keys, evaluation);
    forall i | 0 <= i < |play|
      ensures Visits(r, g.key(play[i])) > Visits(st, g.key(play[i])) && Estimate(r, g.key(play[i])).Known?
    {
      assert keys[i] == g.key(play[i]);
      assert keys[i] in multiset(keys);
    }
    forall k | (forall i | 0 <= i < |play| :: g.key(play[i]) != k)
      ensures Visits(r, k) == Visits(st, k) && Estimate(r, k) == Estimate(st, k)
    {
      NotCredited(g, play, k);
    }
  }

  /** A key that no state of `play` has is not among the play's keys. */
  lemma NotCredited<S, A, K>(g: Game<S, A, K>, play: seq<S>, k: K)
    requires forall i | 0 <= i < |play| :: g.key(play[i]) != k
    ensures k !in KeysOf(g, play)
  {
    var keys := KeysOf(g, play);
    forall j | 0 <= j < |keys|
      ensures keys[j] != k
    {
      assert keys[j] == g.key(play[j]);
    }
  }

  /**
   One iteration's playout from `root`: a play that starts at the successor
   of a legal root action and ends in a final state.
   */
  ghost predicate PlayFrom<S, A(!new), K>(g: Game<S, A, K>, root: S, play: seq<S>) {
    && IsPlay(g, play)
    && IsFinal(g, play[|play| - 1])
    && exists a | a in g.actions(root) :: g.step.requires(root, a) && play[0] == g.step(root, a)
  }

  /**
   The store after crediting `plays` in order, each with the evaluation of
   its final state: what the iterations of a search do to the store.
   */
  function Replay<S, A, K(!new)>(e: Engine<S, A, K>, st: Store<K>, plays: seq<seq<S>>): (r: Store<K>)
    requires forall t | 0 <= t < |plays| :: |plays[t]| > 0
    ensures Valid(st) ==> Valid(r)
    ensures forall k :: Visits(st, k) <= Visits(r, k)
    decreases |plays|
  {
    if |plays| == 0 then st
    else
      var n := |plays| - 1;
      var play := plays[n];
      Update(Replay(e, st, plays[..n]), KeysOf(e.game, play), e.evaluate(play[|play| - 1]))
  }

  /** Every play of `plays` is an iteration's playout from `root`. */
  ghost predicate AllPlaysFrom<S, A(!new), K>(g: Game<S, A, K>, root: S, plays: seq<seq<S>>) {
    forall t | 0 <= t < |plays| :: |plays[t]| > 0 && PlayFrom(g, root, plays[t])
  }

  /** Adding one more playout to a list of playouts from `root`. */
  lemma PlaysAppend<S, A(!new), K>(g: Game<S, A, K>, root: S, plays: seq<seq<S>>, play: seq<S>)
    requires AllPlaysFrom(g, root, plays)
    requires |play| > 0 && PlayFrom(g, root, play)
    ensures AllPlaysFrom(g, root, plays + [play])
  {
    var more := plays + [play];
    forall t | 0 <= t < |more|
      ensures |more[t]| > 0 && PlayFrom(g, root, more[t])
    {
      if t < |plays| {
        assert more[t] == plays[t];
      }
    }
  }

  /** Replaying one more playout is one more update. */
  lemma ReplayAppend<S, A, K(!new)>(e: Engine<S, A, K>, st: Store<K>, plays: seq<seq<S>>, play: seq<S>)
    requires forall t | 0 <= t < |plays| :: |plays[t]| > 0
    requires |play| > 0
    ensures forall t | 0 <= t < |plays + [play]| :: |(plays + [play])[t]| > 0
    ensures Replay(e, st, plays + [play]) == Update(Replay(e, st, plays), KeysOf(e.game, play), e.evaluate(play[|play| - 1]))
  {
    var more := plays + [play];
    assert more[..|plays|] == plays;
    assert more[|more| - 1] == play;
  }

  /**
   One search from `root`: `numRollouts` iterations, each picking a random
   root action, playing out from its successor, evaluating the final state
   and crediting every state of the playout; then the root action whose
   successor has the greatest estimate, the first one on ties. `plays` lists
   the playouts of the iterations, in order.
   */
  method Search<S(!new), A(!new, ==), K(!new)>(e: Engine<S, A, K>, st: Store<K>, root: S, rng: Rng)
    returns (action: A, st': Store<K>, rng': Rng, plays: seq<seq<S>>)
    requires Terminating(e.game)
    requires Valid(st)
    requires !IsFinal(e.game, root)
    ensures |plays| == e.numRollouts
    ensures AllPlaysFrom(e.game, root, plays)
    ensures st' == Replay(e, st, plays)
    ensures action in e.game.actions(root)
    ensures Valid(st')
    ensures forall k :: Visits(st, k) <= Visits(st', k)
    ensures exists i :: IsFirstMax(SuccessorValues(e.game, st', root), i) && action == e.game.actions(root)[i]
    ensures e.numRollouts > 0 ==>
      exists i | 0 <= i < |e.game.actions(root)| :: SuccessorValues(e.game, st', root)[i].Known?
    ensures rng'.draws == rng.draws
  {
    var g := e.game;
    var acts := g.actions(root);
    st' := st;
    rng' := rng;
    plays := [];
    while |plays| < e.numRollouts
      invariant |plays| <= e.numRollouts
      invariant AllPlaysFrom(g, root, plays)
      invariant st' == Replay(e, st, plays)
      invariant |plays| > 0 ==> SuccessorVisited(g, st', root)
      invariant rng'.draws == rng.draws
      decreases e.numRollouts - |plays|
    {
      var play;
      play, st', rng' := Iteration(e, st', root, rng');
      ReplayAppend(e, st, plays, play);
      PlaysAppend(g, root, plays, play);
      plays := plays + [play];
    }
    if e.numRollouts > 0 {
      VisitedIsKnown(g, st', root);
    }
    action := BestAction(g, st', root);
  }

  /** Some successor of `root` has been credited. */
  ghost predicate SuccessorVisited<S(!new), A(!new), K>(g: Game<S, A, K>, st: Store<K>, root: S)
    requires Terminating(g)
  {
    exists j | 0 <= j < |g.actions(root)| :: Visits(st, g.key(g.step(root, g.actions(root)[j]))) > 0
  }

  /** A credited successor has a known estimate. */
  lemma VisitedIsKnown<S(!new), A(!new), K(!new)>(g: Game<S, A, K>, st: Store<K>, root: S)
    requires Terminating(g)
    requires Valid(st)
    requires SuccessorVisited(g, st, root)
    ensures exists i | 0 <= i < |g.actions(root)| :: SuccessorValues(g, st, root)[i].Known?
  {
    var j :| 0 <= j < |g.actions(root)| && Visits(st, g.key(g.step(root, g.actions(root)[j]))) > 0;
    assert SuccessorValues(g, st, root)[j].Known?;
  }

  /** The root action whose successor has the greatest estimate, the first one on ties. */
  function BestAction<S(!new), A(!new), K(!new)>(g: Game<S, A, K>, st: Store<K>, root: S): (action: A)
    requires Terminating(g)
    requires Valid(st)
    requires !IsFinal(g, root)
    ensures exists i :: IsFirstMax(SuccessorValues(g, st, root), i) && action == g.actions(root)[i]
  {
    var best := ArgMax(SuccessorValues(g, st, root));
    g.actions(root)[best]
  }

  /**
   One iteration of the search: a random root action, a playout from its
   successor, and every state of the playout credited with the evaluation
   of its final state.
   */
  method Iteration<S(!new), A(!new, ==), K(!new)>(e: Engine<S, A, K>, st: Store<K>, root: S, rng: Rng)
    returns (play: seq<S>, st': Store<K>, rng': Rng)
    requires Terminating(e.game)
    requires !IsFinal(e.game, root)
    ensures |play| > 0 && PlayFrom(e.game, root, play)
    ensures st' == Update(st, KeysOf(e.game, play), e.evaluate(play[|play| - 1]))
    ensures SuccessorVisited(e.game, st', root)
    ensures rng'.draws == rng.draws
  {
    var g := e.game;
    var acts := g.actions(root);
    var pick := Choice(rng, acts);
    var a := pick.0;
    var next := g.step(root, a);
    play, rng' := Rollout(g, next, pick.1);
    var keys := KeysOf(g, play);
    st' := Update(st, keys, e.evaluate(play[|play| - 1]));
    assert g.key(next) in keys;
    ghost var j :| 0 <= j < |acts| && acts[j] == a;
    assert Visits(st', g.key(g.step(root, acts[j]))) > 0;
  }
}
