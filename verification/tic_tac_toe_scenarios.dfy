/**
 The winning sequences of the tic-tac-toe rules' own tests: the moves
 alternate between the two players, no position before the last move is
 final, and the last move, which completes a line, ends the game. Each holds
 whichever player opens; `x` marks the opener's cells and `o` the other's.
 */
module TicTacToeScenarios {

  import opened Wrappers
  import opened Players
  import opened TicTacToe

  /** The opening position, written out. */
  lemma EmptyBoard(first: Player)
    ensures Initialize(first) == State(first, [[None, None, None], [None, None, None], [None, None, None]], None)
  {
  }

  /** Move 1 of `ColumnWin`. */
  lemma ColumnWinMove1(first: Player)
    ensures var x: Mark, o: Mark, n: Mark := Some(first), Some(Next(first)), None;
      && Step(State(first, [[n, n, n], [n, n, n], [n, n, n]], None), (0, 0)) == State(Next(first), [[x, n, n], [n, n, n], [n, n, n]], None)
      && Actions(State(first, [[n, n, n], [n, n, n], [n, n, n]], None)) != []
  {
    var x: Mark, o: Mark, n: Mark := Some(first), Some(Next(first)), None;
    var s := State(first, [[n, n, n], [n, n, n], [n, n, n]], None);
    assert s.board[0][0 := x] == [x, n, n];
    CheckVictoryUnrolled([[x, n, n], [n, n, n], [n, n, n]], first, (0, 0));
    StepResult(s, (0, 0), [[x, n, n], [n, n, n], [n, n, n]], false);
    EmptyCellNotFinal(s, (0, 0));
  }

  /** Move 2 of `ColumnWin`. */
  lemma ColumnWinMove2(first: Player)
    ensures var x: Mark, o: Mark, n: Mark := Some(first), Some(Next(first)), None;
      && Step(State(Next(first), [[x, n, n], [n, n, n], [n, n, n]], None), (2, 2)) == State(first, [[x, n, n], [n, n, n], [n, n, o]], None)
      && Actions(State(Next(first), [[x, n, n], [n, n, n], [n, n, n]], None)) != []
  {
    var x: Mark, o: Mark, n: Mark := Some(first), Some(Next(first)), None;
    var s := State(Next(first), [[x, n, n], [n, n, n], [n, n, n]], None);
    assert s.board[2][2 := o] == [n, n, o];
    CheckVictoryUnrolled([[x, n, n], [n, n, n], [n, n, o]], Next(first), (2, 2));
    StepResult(s, (2, 2), [[x, n, n], [n, n, n], [n, n, o]], false);
    EmptyCellNotFinal(s, (2, 2));
  }

  /** Move 3 of `ColumnWin`. */
  lemma ColumnWinMove3(first: Player)
    ensures var x: Mark, o: Mark, n: Mark := Some(first), Some(Next(first)), None;
      && Step(State(first, [[x, n, n], [n, n, n], [n, n, o]], None), (1, 0)) == State(Next(first), [[x, n, n], [x, n, n], [n, n, o]], None)
      && Actions(State(first, [[x, n, n], [n, n, n], [n, n, o]], None)) != []
  {
    var x: Mark, o: Mark, n: Mark := Some(first), Some(Next(first)), None;
    var s := State(first, [[x, n, n], [n, n, n], [n, n, o]], None);
    assert s.board[1][0 := x] == [x, n, n];
    CheckVictoryUnrolled([[x, n, n], [x, n, n], [n, n, o]], first, (1, 0));
    StepResult(s, (1, 0), [[x, n, n], [x, n, n], [n, n, o]], false);
    EmptyCellNotFinal(s, (1, 0));
  }

  /** Move 4 of `ColumnWin`. */
  lemma ColumnWinMove4(first: Player)
    ensures var x: Mark, o: Mark, n: Mark := Some(first), Some(Next(first)), None;
      && Step(State(Next(first), [[x, n, n], [x, n, n], [n, n, o]], None), (1, 2)) == State(first, [[x, n, n], [x, n, o], [n, n, o]], None)
      && Actions(State(Next(first), [[x, n, n], [x, n, n], [n, n, o]], None)) != []
  {
    var x: Mark, o: Mark, n: Mark := Some(first), Some(Next(first)), None;
    var s := State(Next(first), [[x, n, n], [x, n, n], [n, n, o]], None);
    assert s.board[1][2 := o] == [x, n, o];
    CheckVictoryUnrolled([[x, n, n], [x, n, o], [n, n, o]], Next(first), (1, 2));
    StepResult(s, (1, 2), [[x, n, n], [x, n, o], [n, n, o]], false);
    EmptyCellNotFinal(s, (1, 2));
  }

  /** Move 5 of `ColumnWin`. */
  lemma ColumnWinMove5(first: Player)
    ensures var x: Mark, o: Mark, n: Mark := Some(first), Some(Next(first)), None;
      && Step(State(first, [[x, n, n], [x, n, o], [n, n, o]], None), (2, 0)) == State(Next(first), [[x, n, n], [x, n, o], [x, n, o]], x)
      && Actions(State(first, [[x, n, n], [x, n, o], [n, n, o]], None)) != []
      && Actions(State(Next(first), [[x, n, n], [x, n, o], [x, n, o]], x)) == []
  {
    var x: Mark, o: Mark, n: Mark := Some(first), Some(Next(first)), None;
    var s := State(first, [[x, n, n], [x, n, o], [n, n, o]], None);
    assert s.board[2][0 := x] == [x, n, o];
    CheckVictoryUnrolled([[x, n, n], [x, n, o], [x, n, o]], first, (2, 0));
    StepResult(s, (2, 0), [[x, n, n], [x, n, o], [x, n, o]], true);
    EmptyCellNotFinal(s, (2, 0));
  }

  /** First column (the vertical test). */
  lemma ColumnWin(first: Player)
    ensures var s0 := Initialize(first); var s1 := Step(s0, (0, 0)); var s2 := Step(s1, (2, 2)); var s3 := Step(s2, (1, 0)); var s4 := Step(s3, (1, 2)); var s5 := Step(s4, (2, 0));
      Actions(s0) != [] && Actions(s1) != [] && Actions(s2) != [] && Actions(s3) != [] && Actions(s4) != [] && Actions(s5) == []
  {
    EmptyBoard(first);
    ColumnWinMove1(first);
    ColumnWinMove2(first);
    ColumnWinMove3(first);
    ColumnWinMove4(first);
    ColumnWinMove5(first);
  }

  /** Move 3 of `RowWin`. */
  lemma RowWinMove3(first: Player)
    ensures var x: Mark, o: Mark, n: Mark := Some(first), Some(Next(first)), None;
      && Step(State(first, [[x, n, n], [n, n, n], [n, n, o]], None), (0, 1)) == State(Next(first), [[x, x, n], [n, n, n], [n, n, o]], None)
      && Actions(State(first, [[x, n, n], [n, n, n], [n, n, o]], None)) != []
  {
    var x: Mark, o: Mark, n: Mark := Some(first), Some(Next(first)), None;
    var s := State(first, [[x, n, n], [n, n, n], [n, n, o]], None);
    assert s.board[0][1 := x] == [x, x, n];
    CheckVictoryUnrolled([[x, x, n], [n, n, n], [n, n, o]], first, (0, 1));
    StepResult(s, (0, 1), [[x, x, n], [n, n, n], [n, n, o]], false);
    EmptyCellNotFinal(s, (0, 1));
  }

  /** Move 4 of `RowWin`. */
  lemma RowWinMove4(first: Player)
    ensures var x: Mark, o: Mark, n: Mark := Some(first), Some(Next(first)), None;
      && Step(State(Next(first), [[x, x, n], [n, n, n], [n, n, o]], None), (1, 2)) == State(first, [[x, x, n], [n, n, o], [n, n, o]], None)
      && Actions(State(Next(first), [[x, x, n], [n, n, n], [n, n, o]], None)) != []
  {
    var x: Mark, o: Mark, n: Mark := Some(first), Some(Next(first)), None;
    var s := State(Next(first), [[x, x, n], [n, n, n], [n, n, o]], None);
    assert s.board[1][2 := o] == [n, n, o];
    CheckVictoryUnrolled([[x, x, n], [n, n, o], [n, n, o]], Next(first), (1, 2));
    StepResult(s, (1, 2), [[x, x, n], [n, n, o], [n, n, o]], false);
    EmptyCellNotFinal(s, (1, 2));
  }

  /** Move 5 of `RowWin`. */
  lemma RowWinMove5(first: Player)
    ensures var x: Mark, o: Mark, n: Mark := Some(first), Some(Next(first)), None;
      && Step(State(first, [[x, x, n], [n, n, o], [n, n, o]], None), (0, 2)) == State(Next(first), [[x, x, x], [n, n, o], [n, n, o]], x)
      && Actions(State(first, [[x, x, n], [n, n, o], [n, n, o]], None)) != []
      && Actions(State(Next(first), [[x, x, x], [n, n, o], [n, n, o]], x)) == []
  {
    var x: Mark, o: Mark, n: Mark := Some(first), Some(Next(first)), None;
    var s := State(first, [[x, x, n], [n, n, o], [n, n, o]], None);
    assert s.board[0][2 := x] == [x, x, x];
    CheckVictoryUnrolled([[x, x, x], [n, n, o], [n, n, o]], first, (0, 2));
    StepResult(s, (0, 2), [[x, x, x], [n, n, o], [n, n, o]], true);
    EmptyCellNotFinal(s, (0, 2));
  }

  /** First row (the horizontal test). */
  lemma RowWin(first: Player)
    ensures var s0 := Initialize(first); var s1 := Step(s0, (0, 0)); var s2 := Step(s1, (2, 2)); var s3 := Step(s2, (0, 1)); var s4 := Step(s3, (1, 2)); var s5 := Step(s4, (0, 2));
      Actions(s0) != [] && Actions(s1) != [] && Actions(s2) != [] && Actions(s3) != [] && Actions(s4) != [] && Actions(s5) == []
  {
    EmptyBoard(first);
    ColumnWinMove1(first);
    ColumnWinMove2(first);
    RowWinMove3(first);
    RowWinMove4(first);
    RowWinMove5(first);
  }

  /** Move 2 of `MainDiagonalWin`. */
  lemma MainDiagonalWinMove2(first: Player)
    ensures var x: Mark, o: Mark, n: Mark := Some(first), Some(Next(first)), None;
      && Step(State(Next(first), [[x, n, n], [n, n, n], [n, n, n]], None), (0, 2)) == State(first, [[x, n, o], [n, n, n], [n, n, n]], None)
      && Actions(State(Next(first), [[x, n, n], [n, n, n], [n, n, n]], None)) != []
  {
    var x: Mark, o: Mark, n: Mark := Some(first), Some(Next(first)), None;
    var s := State(Next(first), [[x, n, n], [n, n, n], [n, n, n]], None);
    assert s.board[0][2 := o] == [x, n, o];
    CheckVictoryUnrolled([[x, n, o], [n, n, n], [n, n, n]], Next(first), (0, 2));
    StepResult(s, (0, 2), [[x, n, o], [n, n, n], [n, n, n]], false);
    EmptyCellNotFinal(s, (0, 2));
  }

  /** Move 3 of `MainDiagonalWin`. */
  lemma MainDiagonalWinMove3(first: Player)
    ensures var x: Mark, o: Mark, n: Mark := Some(first), Some(Next(first)), None;
      && Step(State(first, [[x, n, o], [n, n, n], [n, n, n]], None), (1, 1)) == State(Next(first), [[x, n, o], [n, x, n], [n, n, n]], None)
      && Actions(State(first, [[x, n, o], [n, n, n], [n, n, n]], None)) != []
  {
    var x: Mark, o: Mark, n: Mark := Some(first), Some(Next(first)), None;
    var s := State(first, [[x, n, o], [n, n, n], [n, n, n]], None);
    assert s.board[1][1 := x] == [n, x, n];
    CheckVictoryUnrolled([[x, n, o], [n, x, n], [n, n, n]], first, (1, 1));
    StepResult(s, (1, 1), [[x, n, o], [n, x, n], [n, n, n]], false);
    EmptyCellNotFinal(s, (1, 1));
  }

  /** Move 4 of `MainDiagonalWin`. */
  lemma MainDiagonalWinMove4(first: Player)
    ensures var x: Mark, o: Mark, n: Mark := Some(first), Some(Next(first)), None;
      && Step(State(Next(first), [[x, n, o], [n, x, n], [n, n, n]], None), (1, 2)) == State(first, [[x, n, o], [n, x, o], [n, n, n]], None)
      && Actions(State(Next(first), [[x, n, o], [n, x, n], [n, n, n]], None)) != []
  {
    var x: Mark, o: Mark, n: Mark := Some(first), Some(Next(first)), None;
    var s := State(Next(first), [[x, n, o], [n, x, n], [n, n, n]], None);
    assert s.board[1][2 := o] == [n, x, o];
    CheckVictoryUnrolled([[x, n, o], [n, x, o], [n, n, n]], Next(first), (1, 2));
    StepResult(s, (1, 2), [[x, n, o], [n, x, o], [n, n, n]], false);
    EmptyCellNotFinal(s, (1, 2));
  }

  /** Move 5 of `MainDiagonalWin`. */
  lemma MainDiagonalWinMove5(first: Player)
    ensures var x: Mark, o: Mark, n: Mark := Some(first), Some(Next(first)), None;
      && Step(State(first, [[x, n, o], [n, x, o], [n, n, n]], None), (2, 2)) == State(Next(first), [[x, n, o], [n, x, o], [n, n, x]], x)
      && Actions(State(first, [[x, n, o], [n, x, o], [n, n, n]], None)) != []
      && Actions(State(Next(first), [[x, n, o], [n, x, o], [n, n, x]], x)) == []
  {
    var x: Mark, o: Mark, n: Mark := Some(first), Some(Next(first)), None;
    var s := State(first, [[x, n, o], [n, x, o], [n, n, n]], None);
    assert s.board[2][2 := x] == [n, n, x];
    CheckVictoryUnrolled([[x, n, o], [n, x, o], [n, n, x]], first, (2, 2));
    StepResult(s, (2, 2), [[x, n, o], [n, x, o], [n, n, x]], true);
    EmptyCellNotFinal(s, (2, 2));
  }

  /** Main diagonal. */
  lemma MainDiagonalWin(first: Player)
    ensures var s0 := Initialize(first); var s1 := Step(s0, (0, 0)); var s2 := Step(s1, (0, 2)); var s3 := Step(s2, (1, 1)); var s4 := Step(s3, (1, 2)); var s5 := Step(s4, (2, 2));
      Actions(s0) != [] && Actions(s1) != [] && Actions(s2) != [] && Actions(s3) != [] && Actions(s4) != [] && Actions(s5) == []
  {
    EmptyBoard(first);
    ColumnWinMove1(first);
    MainDiagonalWinMove2(first);
    MainDiagonalWinMove3(first);
    MainDiagonalWinMove4(first);
    MainDiagonalWinMove5(first);
  }

  /** Move 1 of `AntiDiagonalWin`. */
  lemma AntiDiagonalWinMove1(first: Player)
    ensures var x: Mark, o: Mark, n: Mark := Some(first), Some(Next(first)), None;
      && Step(State(first, [[n, n, n], [n, n, n], [n, n, n]], None), (2, 0)) == State(Next(first), [[n, n, n], [n, n, n], [x, n, n]], None)
      && Actions(State(first, [[n, n, n], [n, n, n], [n, n, n]], None)) != []
  {
    var x: Mark, o: Mark, n: Mark := Some(first), Some(Next(first)), None;
    var s := State(first, [[n, n, n], [n, n, n], [n, n, n]], None);
    assert s.board[2][0 := x] == [x, n, n];
    CheckVictoryUnrolled([[n, n, n], [n, n, n], [x, n, n]], first, (2, 0));
    StepResult(s, (2, 0), [[n, n, n], [n, n, n], [x, n, n]], false);
    EmptyCellNotFinal(s, (2, 0));
  }

  /** Move 2 of `AntiDiagonalWin`. */
  lemma AntiDiagonalWinMove2(first: Player)
    ensures var x: Mark, o: Mark, n: Mark := Some(first), Some(Next(first)), None;
      && Step(State(Next(first), [[n, n, n], [n, n, n], [x, n, n]], None), (2, 2)) == State(first, [[n, n, n], [n, n, n], [x, n, o]], None)
      && Actions(State(Next(first), [[n, n, n], [n, n, n], [x, n, n]], None)) != []
  {
    var x: Mark, o: Mark, n: Mark := Some(first), Some(Next(first)), None;
    var s := State(Next(first), [[n, n, n], [n, n, n], [x, n, n]], None);
    assert s.board[2][2 := o] == [x, n, o];
    CheckVictoryUnrolled([[n, n, n], [n, n, n], [x, n, o]], Next(first), (2, 2));
    StepResult(s, (2, 2), [[n, n, n], [n, n, n], [x, n, o]], false);
    EmptyCellNotFinal(s, (2, 2));
  }

  /** Move 3 of `AntiDiagonalWin`. */
  lemma AntiDiagonalWinMove3(first: Player)
    ensures var x: Mark, o: Mark, n: Mark := Some(first), Some(Next(first)), None;
      && Step(State(first, [[n, n, n], [n, n, n], [x, n, o]], None), (1, 1)) == State(Next(first), [[n, n, n], [n, x, n], [x, n, o]], None)
      && Actions(State(first, [[n, n, n], [n, n, n], [x, n, o]], None)) != []
  {
    var x: Mark, o: Mark, n: Mark := Some(first), Some(Next(first)), None;
    var s := State(first, [[n, n, n], [n, n, n], [x, n, o]], None);
    assert s.board[1][1 := x] == [n, x, n];
    CheckVictoryUnrolled([[n, n, n], [n, x, n], [x, n, o]], first, (1, 1));
    StepResult(s, (1, 1), [[n, n, n], [n, x, n], [x, n, o]], false);
    EmptyCellNotFinal(s, (1, 1));
  }

  /** Move 4 of `AntiDiagonalWin`. */
  lemma AntiDiagonalWinMove4(first: Player)
    ensures var x: Mark, o: Mark, n: Mark := Some(first), Some(Next(first)), None;
      && Step(State(Next(first), [[n, n, n], [n, x, n], [x, n, o]], None), (2, 1)) == State(first, [[n, n, n], [n, x, n], [x, o, o]], None)
      && Actions(State(Next(first), [[n, n, n], [n, x, n], [x, n, o]], None)) != []
  {
    var x: Mark, o: Mark, n: Mark := Some(first), Some(Next(first)), None;
    var s := State(Next(first), [[n, n, n], [n, x, n], [x, n, o]], None);
    assert s.board[2][1 := o] == [x, o, o];
    CheckVictoryUnrolled([[n, n, n], [n, x, n], [x, o, o]], Next(first), (2, 1));
    StepResult(s, (2, 1), [[n, n, n], [n, x, n], [x, o, o]], false);
    EmptyCellNotFinal(s, (2, 1));
  }

  /** Move 5 of `AntiDiagonalWin`. */
  lemma AntiDiagonalWinMove5(first: Player)
    ensures var x: Mark, o: Mark, n: Mark := Some(first), Some(Next(first)), None;
      && Step(State(first, [[n, n, n], [n, x, n], [x, o, o]], None), (0, 2)) == State(Next(first), [[n, n, x], [n, x, n], [x, o, o]], x)
      && Actions(State(first, [[n, n, n], [n, x, n], [x, o, o]], None)) != []
      && Actions(State(Next(first), [[n, n, x], [n, x, n], [x, o, o]], x)) == []
  {
    var x: Mark, o: Mark, n: Mark := Some(first), Some(Next(first)), None;
    var s := State(first, [[n, n, n], [n, x, n], [x, o, o]], None);
    assert s.board[0][2 := x] == [n, n, x];
    CheckVictoryUnrolled([[n, n, x], [n, x, n], [x, o, o]], first, (0, 2));
    StepResult(s, (0, 2), [[n, n, x], [n, x, n], [x, o, o]], true);
    EmptyCellNotFinal(s, (0, 2));
  }

  /** Anti-diagonal. */
  lemma AntiDiagonalWin(first: Player)
    ensures var s0 := Initialize(first); var s1 := Step(s0, (2, 0)); var s2 := Step(s1, (2, 2)); var s3 := Step(s2, (1, 1)); var s4 := Step(s3, (2, 1)); var s5 := Step(s4, (0, 2));
      Actions(s0) != [] && Actions(s1) != [] && Actions(s2) != [] && Actions(s3) != [] && Actions(s4) != [] && Actions(s5) == []
  {
    EmptyBoard(first);
    AntiDiagonalWinMove1(first);
    AntiDiagonalWinMove2(first);
    AntiDiagonalWinMove3(first);
    AntiDiagonalWinMove4(first);
    AntiDiagonalWinMove5(first);
  }
}
