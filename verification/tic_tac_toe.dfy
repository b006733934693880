/**
 Tic-tac-toe rules: a 3x3 board of optional marks, the empty cells as legal
 moves in row-major order, a pure step that marks one cell, looks for a
 completed line and hands the turn over, and equality by board alone.
 */
module TicTacToe {

  import opened Wrappers
  import opened Players
  import Environment

  /** A cell: empty, or the mark of the player who took it. */
  type Mark = Option<Player>

  type Board = b: seq<seq<Mark>> | |b| == 3 && |b[0]| == 3 && |b[1]| == 3 && |b[2]| == 3
    witness [[None, None, None], [None, None, None], [None, None, None]]

  /** A move: the (row, column) of the cell to mark. */
  type Pos = p: (int, int) | 0 <= p.0 < 3 && 0 <= p.1 < 3 witness (0, 0)

  datatype State = State(playerTurn: Player, board: Board, winner: Option<Player>)

  function At(b: Board, p: Pos): Mark {
    b[p.0][p.1]
  }

  /** The opening position; who moves first is a parameter (`random.randint(1, 2)` in `TicTacToe.initialize`). */
  function Initialize(first: Player): (s: State)
    ensures s.playerTurn == first && s.winner.None?
    ensures forall p: Pos :: At(s.board, p).None?
  {
    State(first, [[None, None, None], [None, None, None], [None, None, None]], None)
  }

  /** The row-major position of a cell, 0 to 8. */
  function Index(p: Pos): nat {
    3 * p.0 + p.1
  }

  function PosAt(k: nat): (p: Pos)
    requires k < 9
    ensures Index(p) == k
  {
    (k / 3, k % 3)
  }

  /** Distinct cells have distinct row-major positions. */
  lemma IndexInjective(p: Pos, q: Pos)
    ensures Index(p) == Index(q) <==> p == q
  {
  }

  /** Positions strictly increase in row-major order. */
  ghost predicate RowMajor(ps: seq<Pos>) {
    forall i, j | 0 <= i < j < |ps| :: Index(ps[i]) < Index(ps[j])
  }

  /** The empty cells from row-major position `k` on, in row-major order. */
  function EmptiesFrom(b: Board, k: nat): (r: seq<Pos>)
    requires k <= 9
    ensures forall p: Pos :: p in r <==> k <= Index(p) && At(b, p).None?
    ensures RowMajor(r)
    ensures forall i | 0 <= i < |r| :: k <= Index(r[i])
    decreases 9 - k
  {
    if k == 9 then []
    else
      var rest := EmptiesFrom(b, k + 1);
      var p := PosAt(k);
      assert forall q: Pos | Index(q) == k :: q == p by {
        forall q: Pos | Index(q) == k ensures q == p {
          IndexInjective(p, q);
        }
      }
      if At(b, p).None? then [p] + rest else rest
  }

  /**
   The legal moves: none once somebody has won, otherwise exactly the empty
   cells, in row-major order.
   */
  function Actions(s: State): (r: seq<Pos>)
    ensures s.winner.Some? ==> r == []
    ensures s.winner.None? ==> forall p: Pos :: p in r <==> At(s.board, p).None?
    ensures RowMajor(r)
  {
    if s.winner.Some? then [] else EmptiesFrom(s.board, 0)
  }

  /** While nobody has won, every empty cell is a legal move. */
  lemma EmptyCellIsAction(s: State, p: Pos)
    requires s.winner.None?
    requires At(s.board, p).None?
    ensures p in Actions(s)
  {
  }

  /** While nobody has won, a board with an empty cell is not final. */
  lemma EmptyCellNotFinal(s: State, p: Pos)
    requires s.winner.None?
    requires At(s.board, p).None?
    ensures Actions(s) != []
  {
    EmptyCellIsAction(s, p);
  }

  /** A board with no empty cell and no winner leaves no move. */
  lemma FullBoardIsFinal(s: State)
    requires s.winner.None?
    requires forall p: Pos :: At(s.board, p).Some?
    ensures Actions(s) == []
  {
    NoEmptiesFrom(s.board, 0);
  }

  lemma {:induction false} NoEmptiesFrom(b: Board, k: nat)
    requires k <= 9
    requires forall p: Pos :: At(b, p).Some?
    ensures EmptiesFrom(b, k) == []
    decreases 9 - k
  {
    if k < 9 {
      NoEmptiesFrom(b, k + 1);
    }
  }

  /**
   The victory test after `player` marked `m`, as `check_victory` writes it:
   the moved cell's column, the moved cell's row, or either diagonal, filled
   with `player`'s marks. Every winning line runs through the moved cell or
   the centre.
   */
  predicate CheckVictory(b: Board, player: Player, m: Pos)
    ensures CheckVictory(b, player, m) ==> b[m.0][m.1] == Some(player) || b[1][1] == Some(player)
  {
    || (forall i | 0 <= i < 3 :: b[i][m.1] == Some(player))
    || (forall i | 0 <= i < 3 :: b[m.0][i] == Some(player))
    || (forall i | 0 <= i < 3 :: b[i][i] == Some(player))
    || (forall i | 0 <= i < 3 :: b[i][2 - i] == Some(player))
  }

  /** The victory test with its quantifiers written out cell by cell. */
  lemma CheckVictoryUnrolled(b: Board, player: Player, m: Pos)
    ensures var w := Some(player);
      CheckVictory(b, player, m) <==>
        || (b[0][m.1] == w && b[1][m.1] == w && b[2][m.1] == w)
        || (b[m.0][0] == w && b[m.0][1] == w && b[m.0][2] == w)
        || (b[0][0] == w && b[1][1] == w && b[2][2] == w)
        || (b[0][2] == w && b[1][1] == w && b[2][0] == w)
  {
  }

  /** The eight lines of the board: three rows, three columns, then the two diagonals. */
  const Lines: seq<seq<Pos>> := [
    [(0, 0), (0, 1), (0, 2)], [(1, 0), (1, 1), (1, 2)], [(2, 0), (2, 1), (2, 2)],
    [(0, 0), (1, 0), (2, 0)], [(0, 1), (1, 1), (2, 1)], [(0, 2), (1, 2), (2, 2)],
    [(0, 0), (1, 1), (2, 2)], [(0, 2), (1, 1), (2, 0)]]

  /** Every cell of `line` holds `player`'s mark. */
  ghost predicate Complete(b: Board, player: Player, line: seq<Pos>) {
    forall q | q in line :: At(b, q) == Some(player)
  }

  /**
   `player` owns a line through `m`, or owns a diagonal (`check_victory` tests
   both diagonals whichever cell was marked).
   */
  ghost predicate Wins(b: Board, player: Player, m: Pos) {
    exists l | 0 <= l < 8 :: (m in Lines[l] || l >= 6) && Complete(b, player, Lines[l])
  }

  /** The cells of each line, by their coordinates. */
  lemma LineCells(l: int)
    requires 0 <= l < 8
    ensures |Lines[l]| == 3
    ensures l < 3 ==> forall i | 0 <= i < 3 :: Lines[l][i] == (l, i)
    ensures 3 <= l < 6 ==> forall i | 0 <= i < 3 :: Lines[l][i] == (i, l - 3)
    ensures l == 6 ==> forall i | 0 <= i < 3 :: Lines[l][i] == (i, i)
    ensures l == 7 ==> forall i | 0 <= i < 3 :: Lines[l][i] == (i, 2 - i)
  {
  }

  /** A passing victory test names a line of the table. */
  lemma VictoryHasLine(b: Board, player: Player, m: Pos)
    requires CheckVictory(b, player, m)
    ensures Wins(b, player, m)
  {
    var l := if forall i | 0 <= i < 3 :: b[i][m.1] == Some(player) then 3 + m.1
             else if forall i | 0 <= i < 3 :: b[m.0][i] == Some(player) then m.0
             else if forall i | 0 <= i < 3 :: b[i][i] == Some(player) then 6
             else 7;
    LineCells(l);
    assert l < 6 ==> m == Lines[l][if l < 3 then m.1 else m.0];
    assert Complete(b, player, Lines[l]);
  }

  /** A completed line through `m`, or a completed diagonal, passes the victory test. */
  lemma LineGivesVictory(b: Board, player: Player, m: Pos, l: int)
    requires 0 <= l < 8 && (m in Lines[l] || l >= 6)
    requires Complete(b, player, Lines[l])
    ensures CheckVictory(b, player, m)
  {
    LineCells(l);
    var line := Lines[l];
    assert forall i | 0 <= i < 3 :: At(b, line[i]) == Some(player) by {
      forall i | 0 <= i < 3 ensures At(b, line[i]) == Some(player) {
        assert line[i] in line;
      }
    }
    if l < 3 {
      var i :| 0 <= i < 3 && line[i] == m;
      assert forall i | 0 <= i < 3 :: b[m.0][i] == At(b, line[i]);
    } else if l < 6 {
      var i :| 0 <= i < 3 && line[i] == m;
      assert forall i | 0 <= i < 3 :: b[i][m.1] == At(b, line[i]);
    } else if l == 6 {
      assert forall i | 0 <= i < 3 :: b[i][i] == At(b, line[i]);
    } else {
      assert forall i | 0 <= i < 3 :: b[i][2 - i] == At(b, line[i]);
    }
  }

  /** The victory test agrees with the table of lines. */
  lemma CheckVictoryMatchesLines(b: Board, player: Player, m: Pos)
    ensures CheckVictory(b, player, m) <==> Wins(b, player, m)
  {
    if CheckVictory(b, player, m) {
      VictoryHasLine(b, player, m);
    }
    if Wins(b, player, m) {
      var l :| 0 <= l < 8 && (m in Lines[l] || l >= 6) && Complete(b, player, Lines[l]);
      LineGivesVictory(b, player, m, l);
    }
  }

  /**
   Mark `a` for the player to move, record that player as the winner when the
   victory test passes, and hand the turn over. The receiver is a value and
   is left as it was.
   */
  function Step(s: State, a: Pos): (r: State)
    ensures At(r.board, a) == Some(s.playerTurn)
    ensures forall p: Pos | p != a :: At(r.board, p) == At(s.board, p)
    ensures r.playerTurn == Next(s.playerTurn)
  {
    var board := s.board[a.0 := s.board[a.0][a.1 := Some(s.playerTurn)]];
    var winner := if CheckVictory(board, s.playerTurn, a) then Some(s.playerTurn) else s.winner;
    State(Next(s.playerTurn), board, winner)
  }

  /**
   A step records the mover as the winner exactly when, after the mark, the
   mover owns a line through the marked cell or a diagonal; otherwise the
   winner is left as it was.
   */
  lemma StepWinner(s: State, a: Pos)
    ensures Wins(Step(s, a).board, s.playerTurn, a) ==> Step(s, a).winner == Some(s.playerTurn)
    ensures !Wins(Step(s, a).board, s.playerTurn, a) ==> Step(s, a).winner == s.winner
  {
    CheckVictoryMatchesLines(Step(s, a).board, s.playerTurn, a);
  }

  /** The state a step produces, given the board after the mark and the outcome of the victory test. */
  lemma StepResult(s: State, a: Pos, board: Board, won: bool)
    requires board == s.board[a.0 := s.board[a.0][a.1 := Some(s.playerTurn)]]
    requires won == CheckVictory(board, s.playerTurn, a)
    ensures Step(s, a) == State(Next(s.playerTurn), board, if won then Some(s.playerTurn) else s.winner)
  {
  }

  /** Two states are equal when their boards are; turn and winner are not compared. */
  predicate Equal(s: State, t: State) {
    s.board == t.board
  }

  /** Equality ignores whose turn it is and who has won. */
  lemma EqualIgnoresTurnAndWinner(s: State, turn: Player, winner: Option<Player>)
    ensures Equal(s, s.(playerTurn := turn, winner := winner))
  {
  }

  /** The number of empty cells from row-major position `k` on. */
  function EmptyCountFrom(b: Board, k: nat): nat
    requires k <= 9
    decreases 9 - k
  {
    if k == 9 then 0
    else (if At(b, PosAt(k)).None? then 1 else 0) + EmptyCountFrom(b, k + 1)
  }

  function EmptyCount(b: Board): nat {
    EmptyCountFrom(b, 0)
  }

  /** Filling one empty cell removes exactly that cell from the count. */
  lemma {:induction false} FillOneFrom(b: Board, b': Board, a: Pos, k: nat)
    requires k <= 9
    requires At(b, a).None? && At(b', a).Some?
    requires forall p: Pos | p != a :: At(b', p) == At(b, p)
    ensures EmptyCountFrom(b', k) == EmptyCountFrom(b, k) - (if k <= Index(a) then 1 else 0)
    decreases 9 - k
  {
    if k < 9 {
      FillOneFrom(b, b', a, k + 1);
      var p := PosAt(k);
      IndexInjective(p, a);
      if p != a {
        assert At(b', p) == At(b, p);
      }
    }
  }

  /** Marking an empty cell, as every legal move does, takes exactly one empty cell. */
  lemma StepTakesOneEmpty(s: State, a: Pos)
    requires At(s.board, a).None?
    ensures EmptyCount(Step(s, a).board) == EmptyCount(s.board) - 1
  {
    FillOneFrom(s.board, Step(s, a).board, a, 0);
  }

  /**
   Tic-tac-toe as the engine sees it: states filed by board, ranked by their
   number of empty cells.
   */
  function AsGame(): Environment.Game<State, Pos, Board> {
    Environment.Game(Actions, Step, (s: State) => s.board, (s: State) => EmptyCount(s.board))
  }

  /** Store keys agree exactly when states compare equal. */
  lemma KeyIsEquality(s: State, t: State)
    ensures AsGame().key(s) == AsGame().key(t) <==> Equal(s, t)
  {
  }

  /** Every play of tic-tac-toe ends. */
  lemma GameTerminates()
    ensures Environment.Terminating(AsGame())
  {
    forall s, a | a in Actions(s)
      ensures EmptyCount(Step(s, a).board) < EmptyCount(s.board)
    {
      StepTakesOneEmpty(s, a);
    }
  }
}
