/**
 Players of the two-player board games: the turn marker, the way a move hands
 the turn over, and the win/loss/draw evaluation the tournament script gives
 the search engine.
 */
module Players {

  import opened Wrappers

  /** A player number; both games only ever use 1 and 2. */
  type Player = p: int | p == 1 || p == 2 witness 1

  /** The player to move after `p`, written as the games compute it: `p % 2 + 1`. */
  function Next(p: Player): (q: Player)
    ensures q != p
  {
    p % 2 + 1
  }

  /**
   The evaluation the tournament hands to the engine for `player`: nothing
   when there is no winner, a full point for a win and minus one otherwise.
   */
  function Evaluation(winner: Option<Player>, player: Player): (r: real)
    ensures -1.0 <= r <= 1.0
    ensures r == 0.0 <==> winner.None?
    ensures r == 1.0 <==> winner == Some(player)
    ensures r == -1.0 <==> winner.Some? && winner.value != player
  {
    if winner.None? then 0.0
    else if winner.value == player then 1.0
    else -1.0
  }
}
