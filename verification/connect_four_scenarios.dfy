/**
 The winning sequences of the connect-four rules' own tests, on a board
 seven columns wide and six rows high: the two players alternate, no
 position after a move but the last is final, and the last move, which
 makes four in a row, ends the game. Each holds whichever player opens; `x`
 marks the opener's pieces and `o` the other's. Boards are written column
 by column, row 0 first.
 */
module ConnectFourScenarios {

  import opened Players
  import opened Wrappers
  import opened ConnectFour

  /** A seven-by-six board from its columns. */
  function Grid(c0: seq<Cell>, c1: seq<Cell>, c2: seq<Cell>, c3: seq<Cell>, c4: seq<Cell>, c5: seq<Cell>, c6: seq<Cell>): (b: Board)
    requires |c0| == |c1| == |c2| == |c3| == |c4| == |c5| == |c6| == 6
    ensures Width(b) == 7 && Height(b) == 6
  {
    [c0, c1, c2, c3, c4, c5, c6]
  }

  /** The opening position of the tests' board. */
  lemma EmptyGrid(first: Player)
    ensures var e: seq<Cell> := [0, 0, 0, 0, 0, 0];
      Initialize(7, 6, first) == State(first, Grid(e, e, e, e, e, e, e), None)
  {
    var e: seq<Cell> := [0, 0, 0, 0, 0, 0];
    var b := Initialize(7, 6, first).board;
    forall c | 0 <= c < 7
      ensures b[c] == e
    {
    }
  }

  /** The victory test after move 1 of `VerticalWin`, at column 1, row 0. */
  lemma VerticalWinTest1(first: Player)
    ensures var x: Cell, o: Cell := first, Next(first);
      !CheckVictory(Grid([0, 0, 0, 0, 0, 0], [x, 0, 0, 0, 0, 0], [0, 0, 0, 0, 0, 0], [0, 0, 0, 0, 0, 0], [0, 0, 0, 0, 0, 0], [0, 0, 0, 0, 0, 0], [0, 0, 0, 0, 0, 0]), 1, 0)
  {
    var x: Cell, o: Cell := first, Next(first);
    var board := Grid([0, 0, 0, 0, 0, 0], [x, 0, 0, 0, 0, 0], [0, 0, 0, 0, 0, 0], [0, 0, 0, 0, 0, 0], [0, 0, 0, 0, 0, 0], [0, 0, 0, 0, 0, 0], [0, 0, 0, 0, 0, 0]);
    assert board[1][0] == x;
    NoRunAlong(board, 1, 0, x, Horizontal, -1, 1);
    NoRunAlong(board, 1, 0, x, Vertical, -1, 1);
    NoRunAlong(board, 1, 0, x, SouthDiagonal, -1, 1);
    NoRunAlong(board, 1, 0, x, NorthDiagonal, -1, 1);
    NotConnected(board, 1, 0);
    CheckVictoryMatchesRuns(board, 1, 0);
  }

  /** Move 1 of `VerticalWin`: column 1, landing on row 0. */
  lemma VerticalWinMove1(first: Player)
    ensures var x: Cell, o: Cell := first, Next(first);
      && Step(State(first, Grid([0, 0, 0, 0, 0, 0], [0, 0, 0, 0, 0, 0], [0, 0, 0, 0, 0, 0], [0, 0, 0, 0, 0, 0], [0, 0, 0, 0, 0, 0], [0, 0, 0, 0, 0, 0], [0, 0, 0, 0, 0, 0]), None), 1) ==
         State(Next(first), Grid([0, 0, 0, 0, 0, 0], [x, 0, 0, 0, 0, 0], [0, 0, 0, 0, 0, 0], [0, 0, 0, 0, 0, 0], [0, 0, 0, 0, 0, 0], [0, 0, 0, 0, 0, 0], [0, 0, 0, 0, 0, 0]), None)
      && Actions(State(first, Grid([0, 0, 0, 0, 0, 0], [0, 0, 0, 0, 0, 0], [0, 0, 0, 0, 0, 0], [0, 0, 0, 0, 0, 0], [0, 0, 0, 0, 0, 0], [0, 0, 0, 0, 0, 0], [0, 0, 0, 0, 0, 0]), None)) != []
  {
    var x: Cell, o: Cell := first, Next(first);
    var s := State(first, Grid([0, 0, 0, 0, 0, 0], [0, 0, 0, 0, 0, 0], [0, 0, 0, 0, 0, 0], [0, 0, 0, 0, 0, 0], [0, 0, 0, 0, 0, 0], [0, 0, 0, 0, 0, 0], [0, 0, 0, 0, 0, 0]), None);
    var board := Grid([0, 0, 0, 0, 0, 0], [x, 0, 0, 0, 0, 0], [0, 0, 0, 0, 0, 0], [0, 0, 0, 0, 0, 0], [0, 0, 0, 0, 0, 0], [0, 0, 0, 0, 0, 0], [0, 0, 0, 0, 0, 0]);
    LandsOnLowestEmpty(s.board[1], 0);
    assert s.board[1][0 := x] == [x, 0, 0, 0, 0, 0];
    assert s.board[1 := [x, 0, 0, 0, 0, 0]] == board;
    VerticalWinTest1(first);
    StepResult(s, 1, 0, board, false);
    OpenColumnNotFinal(s, 1);
  }

  /** The victory test after move 2 of `VerticalWin`, at column 2, row 0. */
  lemma VerticalWinTest2(first: Player)
    ensures var x: Cell, o: Cell := first, Next(first);
      !CheckVictory(Grid([0, 0, 0, 0, 0, 0], [x, 0, 0, 0, 0, 0], [o, 0, 0, 0, 0, 0], [0, 0, 0, 0, 0, 0], [0, 0, 0, 0, 0, 0], [0, 0, 0, 0, 0, 0], [0, 0, 0, 0, 0, 0]), 2, 0)
  {
    var x: Cell, o: Cell := first, Next(first);
    var board := Grid([0, 0, 0, 0, 0, 0], [x, 0, 0, 0, 0, 0], [o, 0, 0, 0, 0, 0], [0, 0, 0, 0, 0, 0], [0, 0, 0, 0, 0, 0], [0, 0, 0, 0, 0, 0], [0, 0, 0, 0, 0, 0]);
    assert board[2][0] == o;
    NoRunAlong(board, 2, 0, o, Horizontal, -1, 1);
    NoRunAlong(board, 2, 0, o, Vertical, -1, 1);
    NoRunAlong(board, 2, 0, o, SouthDiagonal, -1, 1);
    NoRunAlong(board, 2, 0, o, NorthDiagonal, -1, 1);
    NotConnected(board, 2, 0);
    CheckVictoryMatchesRuns(board, 2, 0);
  }

  /** Move 2 of `VerticalWin`: column 2, landing on row 0. */
  lemma VerticalWinMove2(first: Player)
    ensures var x: Cell, o: Cell := first, Next(first);
      && Step(State(Next(first), Grid([0, 0, 0, 0, 0, 0], [x, 0, 0, 0, 0, 0], [0, 0, 0, 0, 0, 0], [0, 0, 0, 0, 0, 0], [0, 0, 0, 0, 0, 0], [0, 0, 0, 0, 0, 0], [0, 0, 0, 0, 0, 0]), None), 2) ==
         State(first, Grid([0, 0, 0, 0, 0, 0], [x, 0, 0, 0, 0, 0], [o, 0, 0, 0, 0, 0], [0, 0, 0, 0, 0, 0], [0, 0, 0, 0, 0, 0], [0, 0, 0, 0, 0, 0], [0, 0, 0, 0, 0, 0]), None)
      && Actions(State(Next(first), Grid([0, 0, 0, 0, 0, 0], [x, 0, 0, 0, 0, 0], [0, 0, 0, 0, 0, 0], [0, 0, 0, 0, 0, 0], [0, 0, 0, 0, 0, 0], [0, 0, 0, 0, 0, 0], [0, 0, 0, 0, 0, 0]), None)) != []
  {
    var x: Cell, o: Cell := first, Next(first);
    var s := State(Next(first), Grid([0, 0, 0, 0, 0, 0], [x, 0, 0, 0, 0, 0], [0, 0, 0, 0, 0, 0], [0, 0, 0, 0, 0, 0], [0, 0, 0, 0, 0, 0], [0, 0, 0, 0, 0, 0], [0, 0, 0, 0, 0, 0]), None);
    var board := Grid([0, 0, 0, 0, 0, 0], [x, 0, 0, 0, 0, 0], [o, 0, 0, 0, 0, 0], [0, 0, 0, 0, 0, 0], [0, 0, 0, 0, 0, 0], [0, 0, 0, 0, 0, 0], [0, 0, 0, 0, 0, 0]);
    LandsOnLowestEmpty(s.board[2], 0);
    assert s.board[2][0 := o] == [o, 0, 0, 0, 0, 0];
    assert s.board[2 := [o, 0, 0, 0, 0, 0]] == board;
    VerticalWinTest2(first);
    StepResult(s, 2, 0, board, false);
    OpenColumnNotFinal(s, 2);
  }

  /** The victory test after move 3 of `VerticalWin`, at column 1, row 1. */
  lemma VerticalWinTest3(first: Player)
    ensures var x: Cell, o: Cell := first, Next(first);
      !CheckVictory(Grid([0, 0, 0, 0, 0, 0], [x, x, 0, 0, 0, 0], [o, 0, 0, 0, 0, 0], [0, 0, 0, 0, 0, 0], [0, 0, 0, 0, 0, 0], [0, 0, 0, 0, 0, 0], [0, 0, 0, 0, 0, 0]), 1, 1)
  {
    var x: Cell, o: Cell := first, Next(first);
    var board := Grid([0, 0, 0, 0, 0, 0], [x, x, 0, 0, 0, 0], [o, 0, 0, 0, 0, 0], [0, 0, 0, 0, 0, 0], [0, 0, 0, 0, 0, 0], [0, 0, 0, 0, 0, 0], [0, 0, 0, 0, 0, 0]);
    assert board[1][1] == x;
    NoRunAlong(board, 1, 1, x, Horizontal, -1, 1);
    NoRunAlong(board, 1, 1, x, Vertical, -2, 1);
    NoRunAlong(board, 1, 1, x, SouthDiagonal, -1, 1);
    NoRunAlong(board, 1, 1, x, NorthDiagonal, -1, 1);
    NotConnected(board, 1, 1);
    CheckVictoryMatchesRuns(board, 1, 1);
  }

  /** Move 3 of `VerticalWin`: column 1, landing on row 1. */
  lemma VerticalWinMove3(first: Player)
    ensures var x: Cell, o: Cell := first, Next(first);
      && Step(State(first, Grid([0, 0, 0, 0, 0, 0], [x, 0, 0, 0, 0, 0], [o, 0, 0, 0, 0, 0], [0, 0, 0, 0, 0, 0], [0, 0, 0, 0, 0, 0], [0, 0, 0, 0, 0, 0], [0, 0, 0, 0, 0, 0]), None), 1) ==
         State(Next(first), Grid([0, 0, 0, 0, 0, 0], [x, x, 0, 0, 0, 0], [o, 0, 0, 0, 0, 0], [0, 0, 0, 0, 0, 0], [0, 0, 0, 0, 0, 0], [0, 0, 0, 0, 0, 0], [0, 0, 0, 0, 0, 0]), None)
      && Actions(State(first, Grid([0, 0, 0, 0, 0, 0], [x, 0, 0, 0, 0, 0], [o, 0, 0, 0, 0, 0], [0, 0, 0, 0, 0, 0], [0, 0, 0, 0, 0, 0], [0, 0, 0, 0, 0, 0], [0, 0, 0, 0, 0, 0]), None)) != []
  {
    var x: Cell, o: Cell := first, Next(first);
    var s := State(first, Grid([0, 0, 0, 0, 0, 0], [x, 0, 0, 0, 0, 0], [o, 0, 0, 0, 0, 0], [0, 0, 0, 0, 0, 0], [0, 0, 0, 0, 0, 0], [0, 0, 0, 0, 0, 0], [0, 0, 0, 0, 0, 0]), None);
    var board := Grid([0, 0, 0, 0, 0, 0], [x, x, 0, 0, 0, 0], [o, 0, 0, 0, 0, 0], [0, 0, 0, 0, 0, 0], [0, 0, 0, 0, 0, 0], [0, 0, 0, 0, 0, 0], [0, 0, 0, 0, 0, 0]);
    LandsOnLowestEmpty(s.board[1], 1);
    assert s.board[1][1 := x] == [x, x, 0, 0, 0, 0];
    assert s.board[1 := [x, x, 0, 0, 0, 0]] == board;
    VerticalWinTest3(first);
    StepResult(s, 1, 1, board, false);
    OpenColumnNotFinal(s, 1);
  }

  /** The victory test after move 4 of `VerticalWin`, at column 2, row 1. */
  lemma VerticalWinTest4(first: Player)
    ensures var x: Cell, o: Cell := first, Next(first);
      !CheckVictory(Grid([0, 0, 0, 0, 0, 0], [x, x, 0, 0, 0, 0], [o, o, 0, 0, 0, 0], [0, 0, 0, 0, 0, 0], [0, 0, 0, 0, 0, 0], [0, 0, 0, 0, 0, 0], [0, 0, 0, 0, 0, 0]), 2, 1)
  {
    var x: Cell, o: Cell := first, Next(first);
    var board := Grid([0, 0, 0, 0, 0, 0], [x, x, 0, 0, 0, 0], [o, o, 0, 0, 0, 0], [0, 0, 0, 0, 0, 0], [0, 0, 0, 0, 0, 0], [0, 0, 0, 0, 0, 0], [0, 0, 0, 0, 0, 0]);
    assert board[2][1] == o;
    NoRunAlong(board, 2, 1, o, Horizontal, -1, 1);
    NoRunAlong(board, 2, 1, o, Vertical, -2, 1);
    NoRunAlong(board, 2, 1, o, SouthDiagonal, -1, 1);
    NoRunAlong(board, 2, 1, o, NorthDiagonal, -1, 1);
    NotConnected(board, 2, 1);
    CheckVictoryMatchesRuns(board, 2, 1);
  }

  /** Move 4 of `VerticalWin`: column 2, landing on row 1. */
  lemma VerticalWinMove4(first: Player)
    ensures var x: Cell, o: Cell := first, Next(first);
      && Step(State(Next(first), Grid([0, 0, 0, 0, 0, 0], [x, x, 0, 0, 0, 0], [o, 0, 0, 0, 0, 0], [0, 0, 0, 0, 0, 0], [0, 0, 0, 0, 0, 0], [0, 0, 0, 0, 0, 0], [0, 0, 0, 0, 0, 0]), None), 2) ==
         State(first, Grid([0, 0, 0, 0, 0, 0], [x, x, 0, 0, 0, 0], [o, o, 0, 0, 0, 0], [0, 0, 0, 0, 0, 0], [0, 0, 0, 0, 0, 0], [0, 0, 0, 0, 0, 0], [0, 0, 0, 0, 0, 0]), None)
      && Actions(State(Next(first), Grid([0, 0, 0, 0, 0, 0], [x, x, 0, 0, 0, 0], [o, 0, 0, 0, 0, 0], [0, 0, 0, 0, 0, 0], [0, 0, 0, 0, 0, 0], [0, 0, 0, 0, 0, 0], [0, 0, 0, 0, 0, 0]), None)) != []
  {
    var x: Cell, o: Cell := first, Next(first);
    var s := State(Next(first), Grid([0, 0, 0, 0, 0, 0], [x, x, 0, 0, 0, 0], [o, 0, 0, 0, 0, 0], [0, 0, 0, 0, 0, 0], [0, 0, 0, 0, 0, 0], [0, 0, 0, 0, 0, 0], [0, 0, 0, 0, 0, 0]), None);
    var board := Grid([0, 0, 0, 0, 0, 0], [x, x, 0, 0, 0, 0], [o, o, 0, 0, 0, 0], [0, 0, 0, 0, 0, 0], [0, 0, 0, 0, 0, 0], [0, 0, 0, 0, 0, 0], [0, 0, 0, 0, 0, 0]);
    LandsOnLowestEmpty(s.board[2], 1);
    assert s.board[2][1 := o] == [o, o, 0, 0, 0, 0];
    assert s.board[2 := [o, o, 0, 0, 0, 0]] == board;
    VerticalWinTest4(first);
    StepResult(s, 2, 1, board, false);
    OpenColumnNotFinal(s, 2);
  }

  /** The victory test after move 5 of `VerticalWin`, at column 1, row 2. */
  lemma VerticalWinTest5(first: Player)
    ensures var x: Cell, o: Cell := first, Next(first);
      !CheckVictory(Grid([0, 0, 0, 0, 0, 0], [x, x, x, 0, 0, 0], [o, o, 0, 0, 0, 0], [0, 0, 0, 0, 0, 0], [0, 0, 0, 0, 0, 0], [0, 0, 0, 0, 0, 0], [0, 0, 0, 0, 0, 0]), 1, 2)
  {
    var x: Cell, o: Cell := first, Next(first);
    var board := Grid([0, 0, 0, 0, 0, 0], [x, x, x, 0, 0, 0], [o, o, 0, 0, 0, 0], [0, 0, 0, 0, 0, 0], [0, 0, 0, 0, 0, 0], [0, 0, 0, 0, 0, 0], [0, 0, 0, 0, 0, 0]);
    assert board[1][2] == x;
    NoRunAlong(board, 1, 2, x, Horizontal, -1, 1);
    NoRunAlong(board, 1, 2, x, Vertical, -3, 1);
    NoRunAlong(board, 1, 2, x, SouthDiagonal, -1, 1);
    NoRunAlong(board, 1, 2, x, NorthDiagonal, -1, 1);
    NotConnected(board, 1, 2);
    CheckVictoryMatchesRuns(board, 1, 2);
  }

  /** Move 5 of `VerticalWin`: column 1, landing on row 2. */
  lemma VerticalWinMove5(first: Player)
    ensures var x: Cell, o: Cell := first, Next(first);
      && Step(State(first, Grid([0, 0, 0, 0, 0, 0], [x, x, 0, 0, 0, 0], [o, o, 0, 0, 0, 0], [0, 0, 0, 0, 0, 0], [0, 0, 0, 0, 0, 0], [0, 0, 0, 0, 0, 0], [0, 0, 0, 0, 0, 0]), None), 1) ==
         State(Next(first), Grid([0, 0, 0, 0, 0, 0], [x, x, x, 0, 0, 0], [o, o, 0, 0, 0, 0], [0, 0, 0, 0, 0, 0], [0, 0, 0, 0, 0, 0], [0, 0, 0, 0, 0, 0], [0, 0, 0, 0, 0, 0]), None)
      && Actions(State(first, Grid([0, 0, 0, 0, 0, 0], [x, x, 0, 0, 0, 0], [o, o, 0, 0, 0, 0], [0, 0, 0, 0, 0, 0], [0, 0, 0, 0, 0, 0], [0, 0, 0, 0, 0, 0], [0, 0, 0, 0, 0, 0]), None)) != []
  {
    var x: Cell, o: Cell := first, Next(first);
    var s := State(first, Grid([0, 0, 0, 0, 0, 0], [x, x, 0, 0, 0, 0], [o, o, 0, 0, 0, 0], [0, 0, 0, 0, 0, 0], [0, 0, 0, 0, 0, 0], [0, 0, 0, 0, 0, 0], [0, 0, 0, 0, 0, 0]), None);
    var board := Grid([0, 0, 0, 0, 0, 0], [x, x, x, 0, 0, 0], [o, o, 0, 0, 0, 0], [0, 0, 0, 0, 0, 0], [0, 0, 0, 0, 0, 0], [0, 0, 0, 0, 0, 0], [0, 0, 0, 0, 0, 0]);
    LandsOnLowestEmpty(s.board[1], 2);
    assert s.board[1][2 := x] == [x, x, x, 0, 0, 0];
    assert s.board[1 := [x, x, x, 0, 0, 0]] == board;
    VerticalWinTest5(first);
    StepResult(s, 1, 2, board, false);
    OpenColumnNotFinal(s, 1);
  }

  /** The victory test after move 6 of `VerticalWin`, at column 2, row 2. */
  lemma VerticalWinTest6(first: Player)
    ensures var x: Cell, o: Cell := first, Next(first);
      !CheckVictory(Grid([0, 0, 0, 0, 0, 0], [x, x, x, 0, 0, 0], [o, o, o, 0, 0, 0], [0, 0, 0, 0, 0, 0], [0, 0, 0, 0, 0, 0], [0, 0, 0, 0, 0, 0], [0, 0, 0, 0, 0, 0]), 2, 2)
  {
    var x: Cell, o: Cell := first, Next(first);
    var board := Grid([0, 0, 0, 0, 0, 0], [x, x, x, 0, 0, 0], [o, o, o, 0, 0, 0], [0, 0, 0, 0, 0, 0], [0, 0, 0, 0, 0, 0], [0, 0, 0, 0, 0, 0], [0, 0, 0, 0, 0, 0]);
    assert board[2][2] == o;
    NoRunAlong(board, 2, 2, o, Horizontal, -1, 1);
    NoRunAlong(board, 2, 2, o, Vertical, -3, 1);
    NoRunAlong(board, 2, 2, o, SouthDiagonal, -1, 1);
    NoRunAlong(board, 2, 2, o, NorthDiagonal, -1, 1);
    NotConnected(board, 2, 2);
    CheckVictoryMatchesRuns(board, 2, 2);
  }

  /** Move 6 of `VerticalWin`: column 2, landing on row 2. */
  lemma VerticalWinMove6(first: Player)
    ensures var x: Cell, o: Cell := first, Next(first);
      && Step(State(Next(first), Grid([0, 0, 0, 0, 0, 0], [x, x, x, 0, 0, 0], [o, o, 0, 0, 0, 0], [0, 0, 0, 0, 0, 0], [0, 0, 0, 0, 0, 0], [0, 0, 0, 0, 0, 0], [0, 0, 0, 0, 0, 0]), None), 2) ==
         State(first, Grid([0, 0, 0, 0, 0, 0], [x, x, x, 0, 0, 0], [o, o, o, 0, 0, 0], [0, 0, 0, 0, 0, 0], [0, 0, 0, 0, 0, 0], [0, 0, 0, 0, 0, 0], [0, 0, 0, 0, 0, 0]), None)
      && Actions(State(Next(first), Grid([0, 0, 0, 0, 0, 0], [x, x, x, 0, 0, 0], [o, o, 0, 0, 0, 0], [0, 0, 0, 0, 0, 0], [0, 0, 0, 0, 0, 0], [0, 0, 0, 0, 0, 0], [0, 0, 0, 0, 0, 0]), None)) != []
  {
    var x: Cell, o: Cell := first, Next(first);
    var s := State(Next(first), Grid([0, 0, 0, 0, 0, 0], [x, x, x, 0, 0, 0], [o, o, 0, 0, 0, 0], [0, 0, 0, 0, 0, 0], [0, 0, 0, 0, 0, 0], [0, 0, 0, 0, 0, 0], [0, 0, 0, 0, 0, 0]), None);
    var board := Grid([0, 0, 0, 0, 0, 0], [x, x, x, 0, 0, 0], [o, o, o, 0, 0, 0], [0, 0, 0, 0, 0, 0], [0, 0, 0, 0, 0, 0], [0, 0, 0, 0, 0, 0], [0, 0, 0, 0, 0, 0]);
    LandsOnLowestEmpty(s.board[2], 2);
    assert s.board[2][2 := o] == [o, o, o, 0, 0, 0];
    assert s.board[2 := [o, o, o, 0, 0, 0]] == board;
    VerticalWinTest6(first);
    StepResult(s, 2, 2, board, false);
    OpenColumnNotFinal(s, 2);
  }

  /** The victory test after move 7 of `VerticalWin`, at column 1, row 3. */
  lemma VerticalWinTest7(first: Player)
    ensures var x: Cell, o: Cell := first, Next(first);
      CheckVictory(Grid([0, 0, 0, 0, 0, 0], [x, x, x, x, 0, 0], [o, o, o, 0, 0, 0], [0, 0, 0, 0, 0, 0], [0, 0, 0, 0, 0, 0], [0, 0, 0, 0, 0, 0], [0, 0, 0, 0, 0, 0]), 1, 3)
  {
    var x: Cell, o: Cell := first, Next(first);
    var board := Grid([0, 0, 0, 0, 0, 0], [x, x, x, x, 0, 0], [o, o, o, 0, 0, 0], [0, 0, 0, 0, 0, 0], [0, 0, 0, 0, 0, 0], [0, 0, 0, 0, 0, 0], [0, 0, 0, 0, 0, 0]);
    assert board[1][3] == x;
    FourConnects(board, 1, 3, Vertical, -3);
    CheckVictoryMatchesRuns(board, 1, 3);
  }

  /** Move 7 of `VerticalWin`: column 1, landing on row 3. */
  lemma VerticalWinMove7(first: Player)
    ensures var x: Cell, o: Cell := first, Next(first);
      && Step(State(first, Grid([0, 0, 0, 0, 0, 0], [x, x, x, 0, 0, 0], [o, o, o, 0, 0, 0], [0, 0, 0, 0, 0, 0], [0, 0, 0, 0, 0, 0], [0, 0, 0, 0, 0, 0], [0, 0, 0, 0, 0, 0]), None), 1) ==
         State(Next(first), Grid([0, 0, 0, 0, 0, 0], [x, x, x, x, 0, 0], [o, o, o, 0, 0, 0], [0, 0, 0, 0, 0, 0], [0, 0, 0, 0, 0, 0], [0, 0, 0, 0, 0, 0], [0, 0, 0, 0, 0, 0]), Some(first))
      && Actions(State(first, Grid([0, 0, 0, 0, 0, 0], [x, x, x, 0, 0, 0], [o, o, o, 0, 0, 0], [0, 0, 0, 0, 0, 0], [0, 0, 0, 0, 0, 0], [0, 0, 0, 0, 0, 0], [0, 0, 0, 0, 0, 0]), None)) != []
      && Actions(State(Next(first), Grid([0, 0, 0, 0, 0, 0], [x, x, x, x, 0, 0], [o, o, o, 0, 0, 0], [0, 0, 0, 0, 0, 0], [0, 0, 0, 0, 0, 0], [0, 0, 0, 0, 0, 0], [0, 0, 0, 0, 0, 0]), Some(first))) == []
  {
    var x: Cell, o: Cell := first, Next(first);
    var s := State(first, Grid([0, 0, 0, 0, 0, 0], [x, x, x, 0, 0, 0], [o, o, o, 0, 0, 0], [0, 0, 0, 0, 0, 0], [0, 0, 0, 0, 0, 0], [0, 0, 0, 0, 0, 0], [0, 0, 0, 0, 0, 0]), None);
    var board := Grid([0, 0, 0, 0, 0, 0], [x, x, x, x, 0, 0], [o, o, o, 0, 0, 0], [0, 0, 0, 0, 0, 0], [0, 0, 0, 0, 0, 0], [0, 0, 0, 0, 0, 0], [0, 0, 0, 0, 0, 0]);
    LandsOnLowestEmpty(s.board[1], 3);
    assert s.board[1][3 := x] == [x, x, x, x, 0, 0];
    assert s.board[1 := [x, x, x, x, 0, 0]] == board;
    VerticalWinTest7(first);
    StepResult(s, 1, 3, board, true);
    OpenColumnNotFinal(s, 1);
  }

  /** Four stacked in column 1. */
  lemma VerticalWin(first: Player)
    ensures var s0 := Initialize(7, 6, first); var s1 := Step(s0, 1); var s2 := Step(s1, 2); var s3 := Step(s2, 1); var s4 := Step(s3, 2); var s5 := Step(s4, 1); var s6 := Step(s5, 2); var s7 := Step(s6, 1);
      Actions(s1) != [] && Actions(s2) != [] && Actions(s3) != [] && Actions(s4) != [] && Actions(s5) != [] && Actions(s6) != [] && Actions(s7) == []
  {
    EmptyGrid(first);
    VerticalWinMove1(first);
    VerticalWinMove2(first);
    VerticalWinMove3(first);
    VerticalWinMove4(first);
    VerticalWinMove5(first);
    VerticalWinMove6(first);
    VerticalWinMove7(first);
  }

  /** The victory test after move 2 of `HorizontalWin`, at column 5, row 0. */
  lemma HorizontalWinTest2(first: Player)
    ensures var x: Cell, o: Cell := first, Next(first);
      !CheckVictory(Grid([0, 0, 0, 0, 0, 0], [x, 0, 0, 0, 0, 0], [0, 0, 0, 0, 0, 0], [0, 0, 0, 0, 0, 0], [0, 0, 0, 0, 0, 0], [o, 0, 0, 0, 0, 0], [0, 0, 0, 0, 0, 0]), 5, 0)
  {
    var x: Cell, o: Cell := first, Next(first);
    var board := Grid([0, 0, 0, 0, 0, 0], [x, 0, 0, 0, 0, 0], [0, 0, 0, 0, 0, 0], [0, 0, 0, 0, 0, 0], [0, 0, 0, 0, 0, 0], [o, 0, 0, 0, 0, 0], [0, 0, 0, 0, 0, 0]);
    assert board[5][0] == o;
    NoRunAlong(board, 5, 0, o, Horizontal, -1, 1);
    NoRunAlong(board, 5, 0, o, Vertical, -1, 1);
    NoRunAlong(board, 5, 0, o, SouthDiagonal, -1, 1);
    NoRunAlong(board, 5, 0, o, NorthDiagonal, -1, 1);
    NotConnected(board, 5, 0);
    CheckVictoryMatchesRuns(board, 5, 0);
  }

  /** Move 2 of `HorizontalWin`: column 5, landing on row 0. */
  lemma HorizontalWinMove2(first: Player)
    ensures var x: Cell, o: Cell := first, Next(first);
      && Step(State(Next(first), Grid([0, 0, 0, 0, 0, 0], [x, 0, 0, 0, 0, 0], [0, 0, 0, 0, 0, 0], [0, 0, 0, 0, 0, 0], [0, 0, 0, 0, 0, 0], [0, 0, 0, 0, 0, 0], [0, 0, 0, 0, 0, 0]), None), 5) ==
         State(first, Grid([0, 0, 0, 0, 0, 0], [x, 0, 0, 0, 0, 0], [0, 0, 0, 0, 0, 0], [0, 0, 0, 0, 0, 0], [0, 0, 0, 0, 0, 0], [o, 0, 0, 0, 0, 0], [0, 0, 0, 0, 0, 0]), None)
      && Actions(State(Next(first), Grid([0, 0, 0, 0, 0, 0], [x, 0, 0, 0, 0, 0], [0, 0, 0, 0, 0, 0], [0, 0, 0, 0, 0, 0], [0, 0, 0, 0, 0, 0], [0, 0, 0, 0, 0, 0], [0, 0, 0, 0, 0, 0]), None)) != []
  {
    var x: Cell, o: Cell := first, Next(first);
    var s := State(Next(first), Grid([0, 0, 0, 0, 0, 0], [x, 0, 0, 0, 0, 0], [0, 0, 0, 0, 0, 0], [0, 0, 0, 0, 0, 0], [0, 0, 0, 0, 0, 0], [0, 0, 0, 0, 0, 0], [0, 0, 0, 0, 0, 0]), None);
    var board := Grid([0, 0, 0, 0, 0, 0], [x, 0, 0, 0, 0, 0], [0, 0, 0, 0, 0, 0], [0, 0, 0, 0, 0, 0], [0, 0, 0, 0, 0, 0], [o, 0, 0, 0, 0, 0], [0, 0, 0, 0, 0, 0]);
    LandsOnLowestEmpty(s.board[5], 0);
    assert s.board[5][0 := o] == [o, 0, 0, 0, 0, 0];
    assert s.board[5 := [o, 0, 0, 0, 0, 0]] == board;
    HorizontalWinTest2(first);
    StepResult(s, 5, 0, board, false);
    OpenColumnNotFinal(s, 5);
  }

  /** The victory test after move 3 of `HorizontalWin`, at column 2, row 0. */
  lemma HorizontalWinTest3(first: Player)
    ensures var x: Cell, o: Cell := first, Next(first);
      !CheckVictory(Grid([0, 0, 0, 0, 0, 0], [x, 0, 0, 0, 0, 0], [x, 0, 0, 0, 0, 0], [0, 0, 0, 0, 0, 0], [0, 0, 0, 0, 0, 0], [o, 0, 0, 0, 0, 0], [0, 0, 0, 0, 0, 0]), 2, 0)
  {
    var x: Cell, o: Cell := first, Next(first);
    var board := Grid([0, 0, 0, 0, 0, 0], [x, 0, 0, 0, 0, 0], [x, 0, 0, 0, 0, 0], [0, 0, 0, 0, 0, 0], [0, 0, 0, 0, 0, 0], [o, 0, 0, 0, 0, 0], [0, 0, 0, 0, 0, 0]);
    assert board[2][0] == x;
    NoRunAlong(board, 2, 0, x, Horizontal, -2, 1);
    NoRunAlong(board, 2, 0, x, Vertical, -1, 1);
    NoRunAlong(board, 2, 0, x, SouthDiagonal, -1, 1);
    NoRunAlong(board, 2, 0, x, NorthDiagonal, -1, 1);
    NotConnected(board, 2, 0);
    CheckVictoryMatchesRuns(board, 2, 0);
  }

  /** Move 3 of `HorizontalWin`: column 2, landing on row 0. */
  lemma HorizontalWinMove3(first: Player)
    ensures var x: Cell, o: Cell := first, Next(first);
      && Step(State(first, Grid([0, 0, 0, 0, 0, 0], [x, 0, 0, 0, 0, 0], [0, 0, 0, 0, 0, 0], [0, 0, 0, 0, 0, 0], [0, 0, 0, 0, 0, 0], [o, 0, 0, 0, 0, 0], [0, 0, 0, 0, 0, 0]), None), 2) ==
         State(Next(first), Grid([0, 0, 0, 0, 0, 0], [x, 0, 0, 0, 0, 0], [x, 0, 0, 0, 0, 0], [0, 0, 0, 0, 0, 0], [0, 0, 0, 0, 0, 0], [o, 0, 0, 0, 0, 0], [0, 0, 0, 0, 0, 0]), None)
      && Actions(State(first, Grid([0, 0, 0, 0, 0, 0], [x, 0, 0, 0, 0, 0], [0, 0, 0, 0, 0, 0], [0, 0, 0, 0, 0, 0], [0, 0, 0, 0, 0, 0], [o, 0, 0, 0, 0, 0], [0, 0, 0, 0, 0, 0]), None)) != []
  {
    var x: Cell, o: Cell := first, Next(first);
    var s := State(first, Grid([0, 0, 0, 0, 0, 0], [x, 0, 0, 0, 0, 0], [0, 0, 0, 0, 0, 0], [0, 0, 0, 0, 0, 0], [0, 0, 0, 0, 0, 0], [o, 0, 0, 0, 0, 0], [0, 0, 0, 0, 0, 0]), None);
    var board := Grid([0, 0, 0, 0, 0, 0], [x, 0, 0, 0, 0, 0], [x, 0, 0, 0, 0, 0], [0, 0, 0, 0, 0, 0], [0, 0, 0, 0, 0, 0], [o, 0, 0, 0, 0, 0], [0, 0, 0, 0, 0, 0]);
    LandsOnLowestEmpty(s.board[2], 0);
    assert s.board[2][0 := x] == [x, 0, 0, 0, 0, 0];
    assert s.board[2 := [x, 0, 0, 0, 0, 0]] == board;
    HorizontalWinTest3(first);
    StepResult(s, 2, 0, board, false);
    OpenColumnNotFinal(s, 2);
  }

  /** The victory test after move 4 of `HorizontalWin`, at column 5, row 1. */
  lemma HorizontalWinTest4(first: Player)
    ensures var x: Cell, o: Cell := first, Next(first);
      !CheckVictory(Grid([0, 0, 0, 0, 0, 0], [x, 0, 0, 0, 0, 0], [x, 0, 0, 0, 0, 0], [0, 0, 0, 0, 0, 0], [0, 0, 0, 0, 0, 0], [o, o, 0, 0, 0, 0], [0, 0, 0, 0, 0, 0]), 5, 1)
  {
    var x: Cell, o: Cell := first, Next(first);
    var board := Grid([0, 0, 0, 0, 0, 0], [x, 0, 0, 0, 0, 0], [x, 0, 0, 0, 0, 0], [0, 0, 0, 0, 0, 0], [0, 0, 0, 0, 0, 0], [o, o, 0, 0, 0, 0], [0, 0, 0, 0, 0, 0]);
    assert board[5][1] == o;
    NoRunAlong(board, 5, 1, o, Horizontal, -1, 1);
    NoRunAlong(board, 5, 1, o, Vertical, -2, 1);
    NoRunAlong(board, 5, 1, o, SouthDiagonal, -1, 1);
    NoRunAlong(board, 5, 1, o, NorthDiagonal, -1, 1);
    NotConnected(board, 5, 1);
    CheckVictoryMatchesRuns(board, 5, 1);
  }

  /** Move 4 of `HorizontalWin`: column 5, landing on row 1. */
  lemma HorizontalWinMove4(first: Player)
    ensures var x: Cell, o: Cell := first, Next(first);
      && Step(State(Next(first), Grid([0, 0, 0, 0, 0, 0], [x, 0, 0, 0, 0, 0], [x, 0, 0, 0, 0, 0], [0, 0, 0, 0, 0, 0], [0, 0, 0, 0, 0, 0], [o, 0, 0, 0, 0, 0], [0, 0, 0, 0, 0, 0]), None), 5) ==
         State(first, Grid([0, 0, 0, 0, 0, 0], [x, 0, 0, 0, 0, 0], [x, 0, 0, 0, 0, 0], [0, 0, 0, 0, 0, 0], [0, 0, 0, 0, 0, 0], [o, o, 0, 0, 0, 0], [0, 0, 0, 0, 0, 0]), None)
      && Actions(State(Next(first), Grid([0, 0, 0, 0, 0, 0], [x, 0, 0, 0, 0, 0], [x, 0, 0, 0, 0, 0], [0, 0, 0, 0, 0, 0], [0, 0, 0, 0, 0, 0], [o, 0, 0, 0, 0, 0], [0, 0, 0, 0, 0, 0]), None)) != []
  {
    var x: Cell, o: Cell := first, Next(first);
    var s := State(Next(first), Grid([0, 0, 0, 0, 0, 0], [x, 0, 0, 0, 0, 0], [x, 0, 0, 0, 0, 0], [0, 0, 0, 0, 0, 0], [0, 0, 0, 0, 0, 0], [o, 0, 0, 0, 0, 0], [0, 0, 0, 0, 0, 0]), None);
    var board := Grid([0, 0, 0, 0, 0, 0], [x, 0, 0, 0, 0, 0], [x, 0, 0, 0, 0, 0], [0, 0, 0, 0, 0, 0], [0, 0, 0, 0, 0, 0], [o, o, 0, 0, 0, 0], [0, 0, 0, 0, 0, 0]);
    LandsOnLowestEmpty(s.board[5], 1);
    assert s.board[5][1 := o] == [o, o, 0, 0, 0, 0];
    assert s.board[5 := [o, o, 0, 0, 0, 0]] == board;
    HorizontalWinTest4(first);
    StepResult(s, 5, 1, board, false);
    OpenColumnNotFinal(s, 5);
  }

  /** The victory test after move 5 of `HorizontalWin`, at column 3, row 0. */
  lemma HorizontalWinTest5(first: Player)
    ensures var x: Cell, o: Cell := first, Next(first);
      !CheckVictory(Grid([0, 0, 0, 0, 0, 0], [x, 0, 0, 0, 0, 0], [x, 0, 0, 0, 0, 0], [x, 0, 0, 0, 0, 0], [0, 0, 0, 0, 0, 0], [o, o, 0, 0, 0, 0], [0, 0, 0, 0, 0, 0]), 3, 0)
  {
    var x: Cell, o: Cell := first, Next(first);
    var board := Grid([0, 0, 0, 0, 0, 0], [x, 0, 0, 0, 0, 0], [x, 0, 0, 0, 0, 0], [x, 0, 0, 0, 0, 0], [0, 0, 0, 0, 0, 0], [o, o, 0, 0, 0, 0], [0, 0, 0, 0, 0, 0]);
    assert board[3][0] == x;
    NoRunAlong(board, 3, 0, x, Horizontal, -3, 1);
    NoRunAlong(board, 3, 0, x, Vertical, -1, 1);
    NoRunAlong(board, 3, 0, x, SouthDiagonal, -1, 1);
    NoRunAlong(board, 3, 0, x, NorthDiagonal, -1, 1);
    NotConnected(board, 3, 0);
    CheckVictoryMatchesRuns(board, 3, 0);
  }

  /** Move 5 of `HorizontalWin`: column 3, landing on row 0. */
  lemma HorizontalWinMove5(first: Player)
    ensures var x: Cell, o: Cell := first, Next(first);
      && Step(State(first, Grid([0, 0, 0, 0, 0, 0], [x, 0, 0, 0, 0, 0], [x, 0, 0, 0, 0, 0], [0, 0, 0, 0, 0, 0], [0, 0, 0, 0, 0, 0], [o, o, 0, 0, 0, 0], [0, 0, 0, 0, 0, 0]), None), 3) ==
         State(Next(first), Grid([0, 0, 0, 0, 0, 0], [x, 0, 0, 0, 0, 0], [x, 0, 0, 0, 0, 0], [x, 0, 0, 0, 0, 0], [0, 0, 0, 0, 0, 0], [o, o, 0, 0, 0, 0], [0, 0, 0, 0, 0, 0]), None)
      && Actions(State(first, Grid([0, 0, 0, 0, 0, 0], [x, 0, 0, 0, 0, 0], [x, 0, 0, 0, 0, 0], [0, 0, 0, 0, 0, 0], [0, 0, 0, 0, 0, 0], [o, o, 0, 0, 0, 0], [0, 0, 0, 0, 0, 0]), None)) != []
  {
    var x: Cell, o: Cell := first, Next(first);
    var s := State(first, Grid([0, 0, 0, 0, 0, 0], [x, 0, 0, 0, 0, 0], [x, 0, 0, 0, 0, 0], [0, 0, 0, 0, 0, 0], [0, 0, 0, 0, 0, 0], [o, o, 0, 0, 0, 0], [0, 0, 0, 0, 0, 0]), None);
    var board := Grid([0, 0, 0, 0, 0, 0], [x, 0, 0, 0, 0, 0], [x, 0, 0, 0, 0, 0], [x, 0, 0, 0, 0, 0], [0, 0, 0, 0, 0, 0], [o, o, 0, 0, 0, 0], [0, 0, 0, 0, 0, 0]);
    LandsOnLowestEmpty(s.board[3], 0);
    assert s.board[3][0 := x] == [x, 0, 0, 0, 0, 0];
    assert s.board[3 := [x, 0, 0, 0, 0, 0]] == board;
    HorizontalWinTest5(first);
    StepResult(s, 3, 0, board, false);
    OpenColumnNotFinal(s, 3);
  }

  /** The victory test after move 6 of `HorizontalWin`, at column 5, row 2. */
  lemma HorizontalWinTest6(first: Player)
    ensures var x: Cell, o: Cell := first, Next(first);
      !CheckVictory(Grid([0, 0, 0, 0, 0, 0], [x, 0, 0, 0, 0, 0], [x, 0, 0, 0, 0, 0], [x, 0, 0, 0, 0, 0], [0, 0, 0, 0, 0, 0], [o, o, o, 0, 0, 0], [0, 0, 0, 0, 0, 0]), 5, 2)
  {
    var x: Cell, o: Cell := first, Next(first);
    var board := Grid([0, 0, 0, 0, 0, 0], [x, 0, 0, 0, 0, 0], [x, 0, 0, 0, 0, 0], [x, 0, 0, 0, 0, 0], [0, 0, 0, 0, 0, 0], [o, o, o, 0, 0, 0], [0, 0, 0, 0, 0, 0]);
    assert board[5][2] == o;
    NoRunAlong(board, 5, 2, o, Horizontal, -1, 1);
    NoRunAlong(board, 5, 2, o, Vertical, -3, 1);
    NoRunAlong(board, 5, 2, o, SouthDiagonal, -1, 1);
    NoRunAlong(board, 5, 2, o, NorthDiagonal, -1, 1);
    NotConnected(board, 5, 2);
    CheckVictoryMatchesRuns(board, 5, 2);
  }

  /** Move 6 of `HorizontalWin`: column 5, landing on row 2. */
  lemma HorizontalWinMove6(first: Player)
    ensures var x: Cell, o: Cell := first, Next(first);
      && Step(State(Next(first), Grid([0, 0, 0, 0, 0, 0], [x, 0, 0, 0, 0, 0], [x, 0, 0, 0, 0, 0], [x, 0, 0, 0, 0, 0], [0, 0, 0, 0, 0, 0], [o, o, 0, 0, 0, 0], [0, 0, 0, 0, 0, 0]), None), 5) ==
         State(first, Grid([0, 0, 0, 0, 0, 0], [x, 0, 0, 0, 0, 0], [x, 0, 0, 0, 0, 0], [x, 0, 0, 0, 0, 0], [0, 0, 0, 0, 0, 0], [o, o, o, 0, 0, 0], [0, 0, 0, 0, 0, 0]), None)
      && Actions(State(Next(first), Grid([0, 0, 0, 0, 0, 0], [x, 0, 0, 0, 0, 0], [x, 0, 0, 0, 0, 0], [x, 0, 0, 0, 0, 0], [0, 0, 0, 0, 0, 0], [o, o, 0, 0, 0, 0], [0, 0, 0, 0, 0, 0]), None)) != []
  {
    var x: Cell, o: Cell := first, Next(first);
    var s := State(Next(first), Grid([0, 0, 0, 0, 0, 0], [x, 0, 0, 0, 0, 0], [x, 0, 0, 0, 0, 0], [x, 0, 0, 0, 0, 0], [0, 0, 0, 0, 0, 0], [o, o, 0, 0, 0, 0], [0, 0, 0, 0, 0, 0]), None);
    var board := Grid([0, 0, 0, 0, 0, 0], [x, 0, 0, 0, 0, 0], [x, 0, 0, 0, 0, 0], [x, 0, 0, 0, 0, 0], [0, 0, 0, 0, 0, 0], [o, o, o, 0, 0, 0], [0, 0, 0, 0, 0, 0]);
    LandsOnLowestEmpty(s.board[5], 2);
    assert s.board[5][2 := o] == [o, o, o, 0, 0, 0];
    assert s.board[5 := [o, o, o, 0, 0, 0]] == board;
    HorizontalWinTest6(first);
    StepResult(s, 5, 2, board, false);
    OpenColumnNotFinal(s, 5);
  }

  /** The victory test after move 7 of `HorizontalWin`, at column 4, row 0. */
  lemma HorizontalWinTest7(first: Player)
    ensures var x: Cell, o: Cell := first, Next(first);
      CheckVictory(Grid([0, 0, 0, 0, 0, 0], [x, 0, 0, 0, 0, 0], [x, 0, 0, 0, 0, 0], [x, 0, 0, 0, 0, 0], [x, 0, 0, 0, 0, 0], [o, o, o, 0, 0, 0], [0, 0, 0, 0, 0, 0]), 4, 0)
  {
    var x: Cell, o: Cell := first, Next(first);
    var board := Grid([0, 0, 0, 0, 0, 0], [x, 0, 0, 0, 0, 0], [x, 0, 0, 0, 0, 0], [x, 0, 0, 0, 0, 0], [x, 0, 0, 0, 0, 0], [o, o, o, 0, 0, 0], [0, 0, 0, 0, 0, 0]);
    assert board[4][0] == x;
    FourConnects(board, 4, 0, Horizontal, -3);
    CheckVictoryMatchesRuns(board, 4, 0);
  }

  /** Move 7 of `HorizontalWin`: column 4, landing on row 0. */
  lemma HorizontalWinMove7(first: Player)
    ensures var x: Cell, o: Cell := first, Next(first);
      && Step(State(first, Grid([0, 0, 0, 0, 0, 0], [x, 0, 0, 0, 0, 0], [x, 0, 0, 0, 0, 0], [x, 0, 0, 0, 0, 0], [0, 0, 0, 0, 0, 0], [o, o, o, 0, 0, 0], [0, 0, 0, 0, 0, 0]), None), 4) ==
         State(Next(first), Grid([0, 0, 0, 0, 0, 0], [x, 0, 0, 0, 0, 0], [x, 0, 0, 0, 0, 0], [x, 0, 0, 0, 0, 0], [x, 0, 0, 0, 0, 0], [o, o, o, 0, 0, 0], [0, 0, 0, 0, 0, 0]), Some(first))
      && Actions(State(first, Grid([0, 0, 0, 0, 0, 0], [x, 0, 0, 0, 0, 0], [x, 0, 0, 0, 0, 0], [x, 0, 0, 0, 0, 0], [0, 0, 0, 0, 0, 0], [o, o, o, 0, 0, 0], [0, 0, 0, 0, 0, 0]), None)) != []
      && Actions(State(Next(first), Grid([0, 0, 0, 0, 0, 0], [x, 0, 0, 0, 0, 0], [x, 0, 0, 0, 0, 0], [x, 0, 0, 0, 0, 0], [x, 0, 0, 0, 0, 0], [o, o, o, 0, 0, 0], [0, 0, 0, 0, 0, 0]), Some(first))) == []
  {
    var x: Cell, o: Cell := first, Next(first);
    var s := State(first, Grid([0, 0, 0, 0, 0, 0], [x, 0, 0, 0, 0, 0], [x, 0, 0, 0, 0, 0], [x, 0, 0, 0, 0, 0], [0, 0, 0, 0, 0, 0], [o, o, o, 0, 0, 0], [0, 0, 0, 0, 0, 0]), None);
    var board := Grid([0, 0, 0, 0, 0, 0], [x, 0, 0, 0, 0, 0], [x, 0, 0, 0, 0, 0], [x, 0, 0, 0, 0, 0], [x, 0, 0, 0, 0, 0], [o, o, o, 0, 0, 0], [0, 0, 0, 0, 0, 0]);
    LandsOnLowestEmpty(s.board[4], 0);
    assert s.board[4][0 := x] == [x, 0, 0, 0, 0, 0];
    assert s.board[4 := [x, 0, 0, 0, 0, 0]] == board;
    HorizontalWinTest7(first);
    StepResult(s, 4, 0, board, true);
    OpenColumnNotFinal(s, 4);
  }

  /** Four along row 0, columns 1 to 4. */
  lemma HorizontalWin(first: Player)
    ensures var s0 := Initialize(7, 6, first); var s1 := Step(s0, 1); var s2 := Step(s1, 5); var s3 := Step(s2, 2); var s4 := Step(s3, 5); var s5 := Step(s4, 3); var s6 := Step(s5, 5); var s7 := Step(s6, 4);
      Actions(s1) != [] && Actions(s2) != [] && Actions(s3) != [] && Actions(s4) != [] && Actions(s5) != [] && Actions(s6) != [] && Actions(s7) == []
  {
    EmptyGrid(first);
    VerticalWinMove1(first);
    HorizontalWinMove2(first);
    HorizontalWinMove3(first);
    HorizontalWinMove4(first);
    HorizontalWinMove5(first);
    HorizontalWinMove6(first);
    HorizontalWinMove7(first);
  }

  /** The victory test after move 3 of `NorthDiagonalWin`, at column 2, row 1. */
  lemma NorthDiagonalWinTest3(first: Player)
    ensures var x: Cell, o: Cell := first, Next(first);
      !CheckVictory(Grid([0, 0, 0, 0, 0, 0], [x, 0, 0, 0, 0, 0], [o, x, 0, 0, 0, 0], [0, 0, 0, 0, 0, 0], [0, 0, 0, 0, 0, 0], [0, 0, 0, 0, 0, 0], [0, 0, 0, 0, 0, 0]), 2, 1)
  {
    var x: Cell, o: Cell := first, Next(first);
    var board := Grid([0, 0, 0, 0, 0, 0], [x, 0, 0, 0, 0, 0], [o, x, 0, 0, 0, 0], [0, 0, 0, 0, 0, 0], [0, 0, 0, 0, 0, 0], [0, 0, 0, 0, 0, 0], [0, 0, 0, 0, 0, 0]);
    assert board[2][1] == x;
    NoRunAlong(board, 2, 1, x, Horizontal, -1, 1);
    NoRunAlong(board, 2, 1, x, Vertical, -1, 1);
    NoRunAlong(board, 2, 1, x, SouthDiagonal, -2, 1);
    NoRunAlong(board, 2, 1, x, NorthDiagonal, -1, 1);
    NotConnected(board, 2, 1);
    CheckVictoryMatchesRuns(board, 2, 1);
  }

  /** Move 3 of `NorthDiagonalWin`: column 2, landing on row 1. */
  lemma NorthDiagonalWinMove3(first: Player)
    ensures var x: Cell, o: Cell := first, Next(first);
      && Step(State(first, Grid([0, 0, 0, 0, 0, 0], [x, 0, 0, 0, 0, 0], [o, 0, 0, 0, 0, 0], [0, 0, 0, 0, 0, 0], [0, 0, 0, 0, 0, 0], [0, 0, 0, 0, 0, 0], [0, 0, 0, 0, 0, 0]), None), 2) ==
         State(Next(first), Grid([0, 0, 0, 0, 0, 0], [x, 0, 0, 0, 0, 0], [o, x, 0, 0, 0, 0], [0, 0, 0, 0, 0, 0], [0, 0, 0, 0, 0, 0], [0, 0, 0, 0, 0, 0], [0, 0, 0, 0, 0, 0]), None)
      && Actions(State(first, Grid([0, 0, 0, 0, 0, 0], [x, 0, 0, 0, 0, 0], [o, 0, 0, 0, 0, 0], [0, 0, 0, 0, 0, 0], [0, 0, 0, 0, 0, 0], [0, 0, 0, 0, 0, 0], [0, 0, 0, 0, 0, 0]), None)) != []
  {
    var x: Cell, o: Cell := first, Next(first);
    var s := State(first, Grid([0, 0, 0, 0, 0, 0], [x, 0, 0, 0, 0, 0], [o, 0, 0, 0, 0, 0], [0, 0, 0, 0, 0, 0], [0, 0, 0, 0, 0, 0], [0, 0, 0, 0, 0, 0], [0, 0, 0, 0, 0, 0]), None);
    var board := Grid([0, 0, 0, 0, 0, 0], [x, 0, 0, 0, 0, 0], [o, x, 0, 0, 0, 0], [0, 0, 0, 0, 0, 0], [0, 0, 0, 0, 0, 0], [0, 0, 0, 0, 0, 0], [0, 0, 0, 0, 0, 0]);
    LandsOnLowestEmpty(s.board[2], 1);
    assert s.board[2][1 := x] == [o, x, 0, 0, 0, 0];
    assert s.board[2 := [o, x, 0, 0, 0, 0]] == board;
    NorthDiagonalWinTest3(first);
    StepResult(s, 2, 1, board, false);
    OpenColumnNotFinal(s, 2);
  }

  /** The victory test after move 4 of `NorthDiagonalWin`, at column 4, row 0. */
  lemma NorthDiagonalWinTest4(first: Player)
    ensures var x: Cell, o: Cell := first, Next(first);
      !CheckVictory(Grid([0, 0, 0, 0, 0, 0], [x, 0, 0, 0, 0, 0], [o, x, 0, 0, 0, 0], [0, 0, 0, 0, 0, 0], [o, 0, 0, 0, 0, 0], [0, 0, 0, 0, 0, 0], [0, 0, 0, 0, 0, 0]), 4, 0)
  {
    var x: Cell, o: Cell := first, Next(first);
    var board := Grid([0, 0, 0, 0, 0, 0], [x, 0, 0, 0, 0, 0], [o, x, 0, 0, 0, 0], [0, 0, 0, 0, 0, 0], [o, 0, 0, 0, 0, 0], [0, 0, 0, 0, 0, 0], [0, 0, 0, 0, 0, 0]);
    assert board[4][0] == o;
    NoRunAlong(board, 4, 0, o, Horizontal, -1, 1);
    NoRunAlong(board, 4, 0, o, Vertical, -1, 1);
    NoRunAlong(board, 4, 0, o, SouthDiagonal, -1, 1);
    NoRunAlong(board, 4, 0, o, NorthDiagonal, -1, 1);
    NotConnected(board, 4, 0);
    CheckVictoryMatchesRuns(board, 4, 0);
  }

  /** Move 4 of `NorthDiagonalWin`: column 4, landing on row 0. */
  lemma NorthDiagonalWinMove4(first: Player)
    ensures var x: Cell, o: Cell := first, Next(first);
      && Step(State(Next(first), Grid([0, 0, 0, 0, 0, 0], [x, 0, 0, 0, 0, 0], [o, x, 0, 0, 0, 0], [0, 0, 0, 0, 0, 0], [0, 0, 0, 0, 0, 0], [0, 0, 0, 0, 0, 0], [0, 0, 0, 0, 0, 0]), None), 4) ==
         State(first, Grid([0, 0, 0, 0, 0, 0], [x, 0, 0, 0, 0, 0], [o, x, 0, 0, 0, 0], [0, 0, 0, 0, 0, 0], [o, 0, 0, 0, 0, 0], [0, 0, 0, 0, 0, 0], [0, 0, 0, 0, 0, 0]), None)
      && Actions(State(Next(first), Grid([0, 0, 0, 0, 0, 0], [x, 0, 0, 0, 0, 0], [o, x, 0, 0, 0, 0], [0, 0, 0, 0, 0, 0], [0, 0, 0, 0, 0, 0], [0, 0, 0, 0, 0, 0], [0, 0, 0, 0, 0, 0]), None)) != []
  {
    var x: Cell, o: Cell := first, Next(first);
    var s := State(Next(first), Grid([0, 0, 0, 0, 0, 0], [x, 0, 0, 0, 0, 0], [o, x, 0, 0, 0, 0], [0, 0, 0, 0, 0, 0], [0, 0, 0, 0, 0, 0], [0, 0, 0, 0, 0, 0], [0, 0, 0, 0, 0, 0]), None);
    var board := Grid([0, 0, 0, 0, 0, 0], [x, 0, 0, 0, 0, 0], [o, x, 0, 0, 0, 0], [0, 0, 0, 0, 0, 0], [o, 0, 0, 0, 0, 0], [0, 0, 0, 0, 0, 0], [0, 0, 0, 0, 0, 0]);
    LandsOnLowestEmpty(s.board[4], 0);
    assert s.board[4][0 := o] == [o, 0, 0, 0, 0, 0];
    assert s.board[4 := [o, 0, 0, 0, 0, 0]] == board;
    NorthDiagonalWinTest4(first);
    StepResult(s, 4, 0, board, false);
    OpenColumnNotFinal(s, 4);
  }

  /** The victory test after move 5 of `NorthDiagonalWin`, at column 3, row 0. */
  lemma NorthDiagonalWinTest5(first: Player)
    ensures var x: Cell, o: Cell := first, Next(first);
      !CheckVictory(Grid([0, 0, 0, 0, 0, 0], [x, 0, 0, 0, 0, 0], [o, x, 0, 0, 0, 0], [x, 0, 0, 0, 0, 0], [o, 0, 0, 0, 0, 0], [0, 0, 0, 0, 0, 0], [0, 0, 0, 0, 0, 0]), 3, 0)
  {
    var x: Cell, o: Cell := first, Next(first);
    var board := Grid([0, 0, 0, 0, 0, 0], [x, 0, 0, 0, 0, 0], [o, x, 0, 0, 0, 0], [x, 0, 0, 0, 0, 0], [o, 0, 0, 0, 0, 0], [0, 0, 0, 0, 0, 0], [0, 0, 0, 0, 0, 0]);
    assert board[3][0] == x;
    NoRunAlong(board, 3, 0, x, Horizontal, -1, 1);
    NoRunAlong(board, 3, 0, x, Vertical, -1, 1);
    NoRunAlong(board, 3, 0, x, SouthDiagonal, -1, 1);
    NoRunAlong(board, 3, 0, x, NorthDiagonal, -2, 1);
    NotConnected(board, 3, 0);
    CheckVictoryMatchesRuns(board, 3, 0);
  }

  /** Move 5 of `NorthDiagonalWin`: column 3, landing on row 0. */
  lemma NorthDiagonalWinMove5(first: Player)
    ensures var x: Cell, o: Cell := first, Next(first);
      && Step(State(first, Grid([0, 0, 0, 0, 0, 0], [x, 0, 0, 0, 0, 0], [o, x, 0, 0, 0, 0], [0, 0, 0, 0, 0, 0], [o, 0, 0, 0, 0, 0], [0, 0, 0, 0, 0, 0], [0, 0, 0, 0, 0, 0]), None), 3) ==
         State(Next(first), Grid([0, 0, 0, 0, 0, 0], [x, 0, 0, 0, 0, 0], [o, x, 0, 0, 0, 0], [x, 0, 0, 0, 0, 0], [o, 0, 0, 0, 0, 0], [0, 0, 0, 0, 0, 0], [0, 0, 0, 0, 0, 0]), None)
      && Actions(State(first, Grid([0, 0, 0, 0, 0, 0], [x, 0, 0, 0, 0, 0], [o, x, 0, 0, 0, 0], [0, 0, 0, 0, 0, 0], [o, 0, 0, 0, 0, 0], [0, 0, 0, 0, 0, 0], [0, 0, 0, 0, 0, 0]), None)) != []
  {
    var x: Cell, o: Cell := first, Next(first);
    var s := State(first, Grid([0, 0, 0, 0, 0, 0], [x, 0, 0, 0, 0, 0], [o, x, 0, 0, 0, 0], [0, 0, 0, 0, 0, 0], [o, 0, 0, 0, 0, 0], [0, 0, 0, 0, 0, 0], [0, 0, 0, 0, 0, 0]), None);
    var board := Grid([0, 0, 0, 0, 0, 0], [x, 0, 0, 0, 0, 0], [o, x, 0, 0, 0, 0], [x, 0, 0, 0, 0, 0], [o, 0, 0, 0, 0, 0], [0, 0, 0, 0, 0, 0], [0, 0, 0, 0, 0, 0]);
    LandsOnLowestEmpty(s.board[3], 0);
    assert s.board[3][0 := x] == [x, 0, 0, 0, 0, 0];
    assert s.board[3 := [x, 0, 0, 0, 0, 0]] == board;
    NorthDiagonalWinTest5(first);
    StepResult(s, 3, 0, board, false);
    OpenColumnNotFinal(s, 3);
  }

  /** The victory test after move 6 of `NorthDiagonalWin`, at column 4, row 1. */
  lemma NorthDiagonalWinTest6(first: Player)
    ensures var x: Cell, o: Cell := first, Next(first);
      !CheckVictory(Grid([0, 0, 0, 0, 0, 0], [x, 0, 0, 0, 0, 0], [o, x, 0, 0, 0, 0], [x, 0, 0, 0, 0, 0], [o, o, 0, 0, 0, 0], [0, 0, 0, 0, 0, 0], [0, 0, 0, 0, 0, 0]), 4, 1)
  {
    var x: Cell, o: Cell := first, Next(first);
    var board := Grid([0, 0, 0, 0, 0, 0], [x, 0, 0, 0, 0, 0], [o, x, 0, 0, 0, 0], [x, 0, 0, 0, 0, 0], [o, o, 0, 0, 0, 0], [0, 0, 0, 0, 0, 0], [0, 0, 0, 0, 0, 0]);
    assert board[4][1] == o;
    NoRunAlong(board, 4, 1, o, Horizontal, -1, 1);
    NoRunAlong(board, 4, 1, o, Vertical, -2, 1);
    NoRunAlong(board, 4, 1, o, SouthDiagonal, -1, 1);
    NoRunAlong(board, 4, 1, o, NorthDiagonal, -1, 1);
    NotConnected(board, 4, 1);
    CheckVictoryMatchesRuns(board, 4, 1);
  }

  /** Move 6 of `NorthDiagonalWin`: column 4, landing on row 1. */
  lemma NorthDiagonalWinMove6(first: Player)
    ensures var x: Cell, o: Cell := first, Next(first);
      && Step(State(Next(first), Grid([0, 0, 0, 0, 0, 0], [x, 0, 0, 0, 0, 0], [o, x, 0, 0, 0, 0], [x, 0, 0, 0, 0, 0], [o, 0, 0, 0, 0, 0], [0, 0, 0, 0, 0, 0], [0, 0, 0, 0, 0, 0]), None), 4) ==
         State(first, Grid([0, 0, 0, 0, 0, 0], [x, 0, 0, 0, 0, 0], [o, x, 0, 0, 0, 0], [x, 0, 0, 0, 0, 0], [o, o, 0, 0, 0, 0], [0, 0, 0, 0, 0, 0], [0, 0, 0, 0, 0, 0]), None)
      && Actions(State(Next(first), Grid([0, 0, 0, 0, 0, 0], [x, 0, 0, 0, 0, 0], [o, x, 0, 0, 0, 0], [x, 0, 0, 0, 0, 0], [o, 0, 0, 0, 0, 0], [0, 0, 0, 0, 0, 0], [0, 0, 0, 0, 0, 0]), None)) != []
  {
    var x: Cell, o: Cell := first, Next(first);
    var s := State(Next(first), Grid([0, 0, 0, 0, 0, 0], [x, 0, 0, 0, 0, 0], [o, x, 0, 0, 0, 0], [x, 0, 0, 0, 0, 0], [o, 0, 0, 0, 0, 0], [0, 0, 0, 0, 0, 0], [0, 0, 0, 0, 0, 0]), None);
    var board := Grid([0, 0, 0, 0, 0, 0], [x, 0, 0, 0, 0, 0], [o, x, 0, 0, 0, 0], [x, 0, 0, 0, 0, 0], [o, o, 0, 0, 0, 0], [0, 0, 0, 0, 0, 0], [0, 0, 0, 0, 0, 0]);
    LandsOnLowestEmpty(s.board[4], 1);
    assert s.board[4][1 := o] == [o, o, 0, 0, 0, 0];
    assert s.board[4 := [o, o, 0, 0, 0, 0]] == board;
    NorthDiagonalWinTest6(first);
    StepResult(s, 4, 1, board, false);
    OpenColumnNotFinal(s, 4);
  }

  /** The victory test after move 7 of `NorthDiagonalWin`, at column 3, row 1. */
  lemma NorthDiagonalWinTest7(first: Player)
    ensures var x: Cell, o: Cell := first, Next(first);
      !CheckVictory(Grid([0, 0, 0, 0, 0, 0], [x, 0, 0, 0, 0, 0], [o, x, 0, 0, 0, 0], [x, x, 0, 0, 0, 0], [o, o, 0, 0, 0, 0], [0, 0, 0, 0, 0, 0], [0, 0, 0, 0, 0, 0]), 3, 1)
  {
    var x: Cell, o: Cell := first, Next(first);
    var board := Grid([0, 0, 0, 0, 0, 0], [x, 0, 0, 0, 0, 0], [o, x, 0, 0, 0, 0], [x, x, 0, 0, 0, 0], [o, o, 0, 0, 0, 0], [0, 0, 0, 0, 0, 0], [0, 0, 0, 0, 0, 0]);
    assert board[3][1] == x;
    NoRunAlong(board, 3, 1, x, Horizontal, -2, 1);
    NoRunAlong(board, 3, 1, x, Vertical, -2, 1);
    NoRunAlong(board, 3, 1, x, SouthDiagonal, -1, 1);
    NoRunAlong(board, 3, 1, x, NorthDiagonal, -1, 1);
    NotConnected(board, 3, 1);
    CheckVictoryMatchesRuns(board, 3, 1);
  }

  /** Move 7 of `NorthDiagonalWin`: column 3, landing on row 1. */
  lemma NorthDiagonalWinMove7(first: Player)
    ensures var x: Cell, o: Cell := first, Next(first);
      && Step(State(first, Grid([0, 0, 0, 0, 0, 0], [x, 0, 0, 0, 0, 0], [o, x, 0, 0, 0, 0], [x, 0, 0, 0, 0, 0], [o, o, 0, 0, 0, 0], [0, 0, 0, 0, 0, 0], [0, 0, 0, 0, 0, 0]), None), 3) ==
         State(Next(first), Grid([0, 0, 0, 0, 0, 0], [x, 0, 0, 0, 0, 0], [o, x, 0, 0, 0, 0], [x, x, 0, 0, 0, 0], [o, o, 0, 0, 0, 0], [0, 0, 0, 0, 0, 0], [0, 0, 0, 0, 0, 0]), None)
      && Actions(State(first, Grid([0, 0, 0, 0, 0, 0], [x, 0, 0, 0, 0, 0], [o, x, 0, 0, 0, 0], [x, 0, 0, 0, 0, 0], [o, o, 0, 0, 0, 0], [0, 0, 0, 0, 0, 0], [0, 0, 0, 0, 0, 0]), None)) != []
  {
    var x: Cell, o: Cell := first, Next(first);
    var s := State(first, Grid([0, 0, 0, 0, 0, 0], [x, 0, 0, 0, 0, 0], [o, x, 0, 0, 0, 0], [x, 0, 0, 0, 0, 0], [o, o, 0, 0, 0, 0], [0, 0, 0, 0, 0, 0], [0, 0, 0, 0, 0, 0]), None);
    var board := Grid([0, 0, 0, 0, 0, 0], [x, 0, 0, 0, 0, 0], [o, x, 0, 0, 0, 0], [x, x, 0, 0, 0, 0], [o, o, 0, 0, 0, 0], [0, 0, 0, 0, 0, 0], [0, 0, 0, 0, 0, 0]);
    LandsOnLowestEmpty(s.board[3], 1);
    assert s.board[3][1 := x] == [x, x, 0, 0, 0, 0];
    assert s.board[3 := [x, x, 0, 0, 0, 0]] == board;
    NorthDiagonalWinTest7(first);
    StepResult(s, 3, 1, board, false);
    OpenColumnNotFinal(s, 3);
  }

  /** The victory test after move 8 of `NorthDiagonalWin`, at column 4, row 2. */
  lemma NorthDiagonalWinTest8(first: Player)
    ensures var x: Cell, o: Cell := first, Next(first);
      !CheckVictory(Grid([0, 0, 0, 0, 0, 0], [x, 0, 0, 0, 0, 0], [o, x, 0, 0, 0, 0], [x, x, 0, 0, 0, 0], [o, o, o, 0, 0, 0], [0, 0, 0, 0, 0, 0], [0, 0, 0, 0, 0, 0]), 4, 2)
  {
    var x: Cell, o: Cell := first, Next(first);
    var board := Grid([0, 0, 0, 0, 0, 0], [x, 0, 0, 0, 0, 0], [o, x, 0, 0, 0, 0], [x, x, 0, 0, 0, 0], [o, o, o, 0, 0, 0], [0, 0, 0, 0, 0, 0], [0, 0, 0, 0, 0, 0]);
    assert board[4][2] == o;
    NoRunAlong(board, 4, 2, o, Horizontal, -1, 1);
    NoRunAlong(board, 4, 2, o, Vertical, -3, 1);
    NoRunAlong(board, 4, 2, o, SouthDiagonal, -1, 1);
    NoRunAlong(board, 4, 2, o, NorthDiagonal, -1, 1);
    NotConnected(board, 4, 2);
    CheckVictoryMatchesRuns(board, 4, 2);
  }

  /** Move 8 of `NorthDiagonalWin`: column 4, landing on row 2. */
  lemma NorthDiagonalWinMove8(first: Player)
    ensures var x: Cell, o: Cell := first, Next(first);
      && Step(State(Next(first), Grid([0, 0, 0, 0, 0, 0], [x, 0, 0, 0, 0, 0], [o, x, 0, 0, 0, 0], [x, x, 0, 0, 0, 0], [o, o, 0, 0, 0, 0], [0, 0, 0, 0, 0, 0], [0, 0, 0, 0, 0, 0]), None), 4) ==
         State(first, Grid([0, 0, 0, 0, 0, 0], [x, 0, 0, 0, 0, 0], [o, x, 0, 0, 0, 0], [x, x, 0, 0, 0, 0], [o, o, o, 0, 0, 0], [0, 0, 0, 0, 0, 0], [0, 0, 0, 0, 0, 0]), None)
      && Actions(State(Next(first), Grid([0, 0, 0, 0, 0, 0], [x, 0, 0, 0, 0, 0], [o, x, 0, 0, 0, 0], [x, x, 0, 0, 0, 0], [o, o, 0, 0, 0, 0], [0, 0, 0, 0, 0, 0], [0, 0, 0, 0, 0, 0]), None)) != []
  {
    var x: Cell, o: Cell := first, Next(first);
    var s := State(Next(first), Grid([0, 0, 0, 0, 0, 0], [x, 0, 0, 0, 0, 0], [o, x, 0, 0, 0, 0], [x, x, 0, 0, 0, 0], [o, o, 0, 0, 0, 0], [0, 0, 0, 0, 0, 0], [0, 0, 0, 0, 0, 0]), None);
    var board := Grid([0, 0, 0, 0, 0, 0], [x, 0, 0, 0, 0, 0], [o, x, 0, 0, 0, 0], [x, x, 0, 0, 0, 0], [o, o, o, 0, 0, 0], [0, 0, 0, 0, 0, 0], [0, 0, 0, 0, 0, 0]);
    LandsOnLowestEmpty(s.board[4], 2);
    assert s.board[4][2 := o] == [o, o, o, 0, 0, 0];
    assert s.board[4 := [o, o, o, 0, 0, 0]] == board;
    NorthDiagonalWinTest8(first);
    StepResult(s, 4, 2, board, false);
    OpenColumnNotFinal(s, 4);
  }

  /** The victory test after move 9 of `NorthDiagonalWin`, at column 3, row 2. */
  lemma NorthDiagonalWinTest9(first: Player)
    ensures var x: Cell, o: Cell := first, Next(first);
      !CheckVictory(Grid([0, 0, 0, 0, 0, 0], [x, 0, 0, 0, 0, 0], [o, x, 0, 0, 0, 0], [x, x, x, 0, 0, 0], [o, o, o, 0, 0, 0], [0, 0, 0, 0, 0, 0], [0, 0, 0, 0, 0, 0]), 3, 2)
  {
    var x: Cell, o: Cell := first, Next(first);
    var board := Grid([0, 0, 0, 0, 0, 0], [x, 0, 0, 0, 0, 0], [o, x, 0, 0, 0, 0], [x, x, x, 0, 0, 0], [o, o, o, 0, 0, 0], [0, 0, 0, 0, 0, 0], [0, 0, 0, 0, 0, 0]);
    assert board[3][2] == x;
    NoRunAlong(board, 3, 2, x, Horizontal, -1, 1);
    NoRunAlong(board, 3, 2, x, Vertical, -3, 1);
    NoRunAlong(board, 3, 2, x, SouthDiagonal, -3, 1);
    NoRunAlong(board, 3, 2, x, NorthDiagonal, -1, 1);
    NotConnected(board, 3, 2);
    CheckVictoryMatchesRuns(board, 3, 2);
  }

  /** Move 9 of `NorthDiagonalWin`: column 3, landing on row 2. */
  lemma NorthDiagonalWinMove9(first: Player)
    ensures var x: Cell, o: Cell := first, Next(first);
      && Step(State(first, Grid([0, 0, 0, 0, 0, 0], [x, 0, 0, 0, 0, 0], [o, x, 0, 0, 0, 0], [x, x, 0, 0, 0, 0], [o, o, o, 0, 0, 0], [0, 0, 0, 0, 0, 0], [0, 0, 0, 0, 0, 0]), None), 3) ==
         State(Next(first), Grid([0, 0, 0, 0, 0, 0], [x, 0, 0, 0, 0, 0], [o, x, 0, 0, 0, 0], [x, x, x, 0, 0, 0], [o, o, o, 0, 0, 0], [0, 0, 0, 0, 0, 0], [0, 0, 0, 0, 0, 0]), None)
      && Actions(State(first, Grid([0, 0, 0, 0, 0, 0], [x, 0, 0, 0, 0, 0], [o, x, 0, 0, 0, 0], [x, x, 0, 0, 0, 0], [o, o, o, 0, 0, 0], [0, 0, 0, 0, 0, 0], [0, 0, 0, 0, 0, 0]), None)) != []
  {
    var x: Cell, o: Cell := first, Next(first);
    var s := State(first, Grid([0, 0, 0, 0, 0, 0], [x, 0, 0, 0, 0, 0], [o, x, 0, 0, 0, 0], [x, x, 0, 0, 0, 0], [o, o, o, 0, 0, 0], [0, 0, 0, 0, 0, 0], [0, 0, 0, 0, 0, 0]), None);
    var board := Grid([0, 0, 0, 0, 0, 0], [x, 0, 0, 0, 0, 0], [o, x, 0, 0, 0, 0], [x, x, x, 0, 0, 0], [o, o, o, 0, 0, 0], [0, 0, 0, 0, 0, 0], [0, 0, 0, 0, 0, 0]);
    LandsOnLowestEmpty(s.board[3], 2);
    assert s.board[3][2 := x] == [x, x, x, 0, 0, 0];
    assert s.board[3 := [x, x, x, 0, 0, 0]] == board;
    NorthDiagonalWinTest9(first);
    StepResult(s, 3, 2, board, false);
    OpenColumnNotFinal(s, 3);
  }

  /** The victory test after move 10 of `NorthDiagonalWin`, at column 5, row 0. */
  lemma NorthDiagonalWinTest10(first: Player)
    ensures var x: Cell, o: Cell := first, Next(first);
      !CheckVictory(Grid([0, 0, 0, 0, 0, 0], [x, 0, 0, 0, 0, 0], [o, x, 0, 0, 0, 0], [x, x, x, 0, 0, 0], [o, o, o, 0, 0, 0], [o, 0, 0, 0, 0, 0], [0, 0, 0, 0, 0, 0]), 5, 0)
  {
    var x: Cell, o: Cell := first, Next(first);
    var board := Grid([0, 0, 0, 0, 0, 0], [x, 0, 0, 0, 0, 0], [o, x, 0, 0, 0, 0], [x, x, x, 0, 0, 0], [o, o, o, 0, 0, 0], [o, 0, 0, 0, 0, 0], [0, 0, 0, 0, 0, 0]);
    assert board[5][0] == o;
    NoRunAlong(board, 5, 0, o, Horizontal, -2, 1);
    NoRunAlong(board, 5, 0, o, Vertical, -1, 1);
    NoRunAlong(board, 5, 0, o, SouthDiagonal, -1, 1);
    NoRunAlong(board, 5, 0, o, NorthDiagonal, -2, 1);
    NotConnected(board, 5, 0);
    CheckVictoryMatchesRuns(board, 5, 0);
  }

  /** Move 10 of `NorthDiagonalWin`: column 5, landing on row 0. */
  lemma NorthDiagonalWinMove10(first: Player)
    ensures var x: Cell, o: Cell := first, Next(first);
      && Step(State(Next(first), Grid([0, 0, 0, 0, 0, 0], [x, 0, 0, 0, 0, 0], [o, x, 0, 0, 0, 0], [x, x, x, 0, 0, 0], [o, o, o, 0, 0, 0], [0, 0, 0, 0, 0, 0], [0, 0, 0, 0, 0, 0]), None), 5) ==
         State(first, Grid([0, 0, 0, 0, 0, 0], [x, 0, 0, 0, 0, 0], [o, x, 0, 0, 0, 0], [x, x, x, 0, 0, 0], [o, o, o, 0, 0, 0], [o, 0, 0, 0, 0, 0], [0, 0, 0, 0, 0, 0]), None)
      && Actions(State(Next(first), Grid([0, 0, 0, 0, 0, 0], [x, 0, 0, 0, 0, 0], [o, x, 0, 0, 0, 0], [x, x, x, 0, 0, 0], [o, o, o, 0, 0, 0], [0, 0, 0, 0, 0, 0], [0, 0, 0, 0, 0, 0]), None)) != []
  {
    var x: Cell, o: Cell := first, Next(first);
    var s := State(Next(first), Grid([0, 0, 0, 0, 0, 0], [x, 0, 0, 0, 0, 0], [o, x, 0, 0, 0, 0], [x, x, x, 0, 0, 0], [o, o, o, 0, 0, 0], [0, 0, 0, 0, 0, 0], [0, 0, 0, 0, 0, 0]), None);
    var board := Grid([0, 0, 0, 0, 0, 0], [x, 0, 0, 0, 0, 0], [o, x, 0, 0, 0, 0], [x, x, x, 0, 0, 0], [o, o, o, 0, 0, 0], [o, 0, 0, 0, 0, 0], [0, 0, 0, 0, 0, 0]);
    LandsOnLowestEmpty(s.board[5], 0);
    assert s.board[5][0 := o] == [o, 0, 0, 0, 0, 0];
    assert s.board[5 := [o, 0, 0, 0, 0, 0]] == board;
    NorthDiagonalWinTest10(first);
    StepResult(s, 5, 0, board, false);
    OpenColumnNotFinal(s, 5);
  }

  /** The victory test after move 11 of `NorthDiagonalWin`, at column 4, row 3. */
  lemma NorthDiagonalWinTest11(first: Player)
    ensures var x: Cell, o: Cell := first, Next(first);
      CheckVictory(Grid([0, 0, 0, 0, 0, 0], [x, 0, 0, 0, 0, 0], [o, x, 0, 0, 0, 0], [x, x, x, 0, 0, 0], [o, o, o, x, 0, 0], [o, 0, 0, 0, 0, 0], [0, 0, 0, 0, 0, 0]), 4, 3)
  {
    var x: Cell, o: Cell := first, Next(first);
    var board := Grid([0, 0, 0, 0, 0, 0], [x, 0, 0, 0, 0, 0], [o, x, 0, 0, 0, 0], [x, x, x, 0, 0, 0], [o, o, o, x, 0, 0], [o, 0, 0, 0, 0, 0], [0, 0, 0, 0, 0, 0]);
    assert board[4][3] == x;
    FourConnects(board, 4, 3, SouthDiagonal, -3);
    CheckVictoryMatchesRuns(board, 4, 3);
  }

  /** Move 11 of `NorthDiagonalWin`: column 4, landing on row 3. */
  lemma NorthDiagonalWinMove11(first: Player)
    ensures var x: Cell, o: Cell := first, Next(first);
      && Step(State(first, Grid([0, 0, 0, 0, 0, 0], [x, 0, 0, 0, 0, 0], [o, x, 0, 0, 0, 0], [x, x, x, 0, 0, 0], [o, o, o, 0, 0, 0], [o, 0, 0, 0, 0, 0], [0, 0, 0, 0, 0, 0]), None), 4) ==
         State(Next(first), Grid([0, 0, 0, 0, 0, 0], [x, 0, 0, 0, 0, 0], [o, x, 0, 0, 0, 0], [x, x, x, 0, 0, 0], [o, o, o, x, 0, 0], [o, 0, 0, 0, 0, 0], [0, 0, 0, 0, 0, 0]), Some(first))
      && Actions(State(first, Grid([0, 0, 0, 0, 0, 0], [x, 0, 0, 0, 0, 0], [o, x, 0, 0, 0, 0], [x, x, x, 0, 0, 0], [o, o, o, 0, 0, 0], [o, 0, 0, 0, 0, 0], [0, 0, 0, 0, 0, 0]), None)) != []
      && Actions(State(Next(first), Grid([0, 0, 0, 0, 0, 0], [x, 0, 0, 0, 0, 0], [o, x, 0, 0, 0, 0], [x, x, x, 0, 0, 0], [o, o, o, x, 0, 0], [o, 0, 0, 0, 0, 0], [0, 0, 0, 0, 0, 0]), Some(first))) == []
  {
    var x: Cell, o: Cell := first, Next(first);
    var s := State(first, Grid([0, 0, 0, 0, 0, 0], [x, 0, 0, 0, 0, 0], [o, x, 0, 0, 0, 0], [x, x, x, 0, 0, 0], [o, o, o, 0, 0, 0], [o, 0, 0, 0, 0, 0], [0, 0, 0, 0, 0, 0]), None);
    var board := Grid([0, 0, 0, 0, 0, 0], [x, 0, 0, 0, 0, 0], [o, x, 0, 0, 0, 0], [x, x, x, 0, 0, 0], [o, o, o, x, 0, 0], [o, 0, 0, 0, 0, 0], [0, 0, 0, 0, 0, 0]);
    LandsOnLowestEmpty(s.board[4], 3);
    assert s.board[4][3 := x] == [o, o, o, x, 0, 0];
    assert s.board[4 := [o, o, o, x, 0, 0]] == board;
    NorthDiagonalWinTest11(first);
    StepResult(s, 4, 3, board, true);
    OpenColumnNotFinal(s, 4);
  }

  /** Four on a rising diagonal, from column 1 row 0 to column 4 row 3. */
  lemma NorthDiagonalWin(first: Player)
    ensures var s0 := Initialize(7, 6, first); var s1 := Step(s0, 1); var s2 := Step(s1, 2); var s3 := Step(s2, 2); var s4 := Step(s3, 4); var s5 := Step(s4, 3); var s6 := Step(s5, 4); var s7 := Step(s6, 3); var s8 := Step(s7, 4); var s9 := Step(s8, 3); var s10 := Step(s9, 5); var s11 := Step(s10, 4);
      Actions(s1) != [] && Actions(s2) != [] && Actions(s3) != [] && Actions(s4) != [] && Actions(s5) != [] && Actions(s6) != [] && Actions(s7) != [] && Actions(s8) != [] && Actions(s9) != [] && Actions(s10) != [] && Actions(s11) == []
  {
    EmptyGrid(first);
    VerticalWinMove1(first);
    VerticalWinMove2(first);
    NorthDiagonalWinMove3(first);
    NorthDiagonalWinMove4(first);
    NorthDiagonalWinMove5(first);
    NorthDiagonalWinMove6(first);
    NorthDiagonalWinMove7(first);
    NorthDiagonalWinMove8(first);
    NorthDiagonalWinMove9(first);
    NorthDiagonalWinMove10(first);
    NorthDiagonalWinMove11(first);
  }

  /** The victory test after move 1 of `SouthDiagonalWin`, at column 4, row 0. */
  lemma SouthDiagonalWinTest1(first: Player)
    ensures var x: Cell, o: Cell := first, Next(first);
      !CheckVictory(Grid([0, 0, 0, 0, 0, 0], [0, 0, 0, 0, 0, 0], [0, 0, 0, 0, 0, 0], [0, 0, 0, 0, 0, 0], [x, 0, 0, 0, 0, 0], [0, 0, 0, 0, 0, 0], [0, 0, 0, 0, 0, 0]), 4, 0)
  {
    var x: Cell, o: Cell := first, Next(first);
    var board := Grid([0, 0, 0, 0, 0, 0], [0, 0, 0, 0, 0, 0], [0, 0, 0, 0, 0, 0], [0, 0, 0, 0, 0, 0], [x, 0, 0, 0, 0, 0], [0, 0, 0, 0, 0, 0], [0, 0, 0, 0, 0, 0]);
    assert board[4][0] == x;
    NoRunAlong(board, 4, 0, x, Horizontal, -1, 1);
    NoRunAlong(board, 4, 0, x, Vertical, -1, 1);
    NoRunAlong(board, 4, 0, x, SouthDiagonal, -1, 1);
    NoRunAlong(board, 4, 0, x, NorthDiagonal, -1, 1);
    NotConnected(board, 4, 0);
    CheckVictoryMatchesRuns(board, 4, 0);
  }

  /** Move 1 of `SouthDiagonalWin`: column 4, landing on row 0. */
  lemma SouthDiagonalWinMove1(first: Player)
    ensures var x: Cell, o: Cell := first, Next(first);
      && Step(State(first, Grid([0, 0, 0, 0, 0, 0], [0, 0, 0, 0, 0, 0], [0, 0, 0, 0, 0, 0], [0, 0, 0, 0, 0, 0], [0, 0, 0, 0, 0, 0], [0, 0, 0, 0, 0, 0], [0, 0, 0, 0, 0, 0]), None), 4) ==
         State(Next(first), Grid([0, 0, 0, 0, 0, 0], [0, 0, 0, 0, 0, 0], [0, 0, 0, 0, 0, 0], [0, 0, 0, 0, 0, 0], [x, 0, 0, 0, 0, 0], [0, 0, 0, 0, 0, 0], [0, 0, 0, 0, 0, 0]), None)
      && Actions(State(first, Grid([0, 0, 0, 0, 0, 0], [0, 0, 0, 0, 0, 0], [0, 0, 0, 0, 0, 0], [0, 0, 0, 0, 0, 0], [0, 0, 0, 0, 0, 0], [0, 0, 0, 0, 0, 0], [0, 0, 0, 0, 0, 0]), None)) != []
  {
    var x: Cell, o: Cell := first, Next(first);
    var s := State(first, Grid([0, 0, 0, 0, 0, 0], [0, 0, 0, 0, 0, 0], [0, 0, 0, 0, 0, 0], [0, 0, 0, 0, 0, 0], [0, 0, 0, 0, 0, 0], [0, 0, 0, 0, 0, 0], [0, 0, 0, 0, 0, 0]), None);
    var board := Grid([0, 0, 0, 0, 0, 0], [0, 0, 0, 0, 0, 0], [0, 0, 0, 0, 0, 0], [0, 0, 0, 0, 0, 0], [x, 0, 0, 0, 0, 0], [0, 0, 0, 0, 0, 0], [0, 0, 0, 0, 0, 0]);
    LandsOnLowestEmpty(s.board[4], 0);
    assert s.board[4][0 := x] == [x, 0, 0, 0, 0, 0];
    assert s.board[4 := [x, 0, 0, 0, 0, 0]] == board;
    SouthDiagonalWinTest1(first);
    StepResult(s, 4, 0, board, false);
    OpenColumnNotFinal(s, 4);
  }

  /** The victory test after move 2 of `SouthDiagonalWin`, at column 3, row 0. */
  lemma SouthDiagonalWinTest2(first: Player)
    ensures var x: Cell, o: Cell := first, Next(first);
      !CheckVictory(Grid([0, 0, 0, 0, 0, 0], [0, 0, 0, 0, 0, 0], [0, 0, 0, 0, 0, 0], [o, 0, 0, 0, 0, 0], [x, 0, 0, 0, 0, 0], [0, 0, 0, 0, 0, 0], [0, 0, 0, 0, 0, 0]), 3, 0)
  {
    var x: Cell, o: Cell := first, Next(first);
    var board := Grid([0, 0, 0, 0, 0, 0], [0, 0, 0, 0, 0, 0], [0, 0, 0, 0, 0, 0], [o, 0, 0, 0, 0, 0], [x, 0, 0, 0, 0, 0], [0, 0, 0, 0, 0, 0], [0, 0, 0, 0, 0, 0]);
    assert board[3][0] == o;
    NoRunAlong(board, 3, 0, o, Horizontal, -1, 1);
    NoRunAlong(board, 3, 0, o, Vertical, -1, 1);
    NoRunAlong(board, 3, 0, o, SouthDiagonal, -1, 1);
    NoRunAlong(board, 3, 0, o, NorthDiagonal, -1, 1);
    NotConnected(board, 3, 0);
    CheckVictoryMatchesRuns(board, 3, 0);
  }

  /** Move 2 of `SouthDiagonalWin`: column 3, landing on row 0. */
  lemma SouthDiagonalWinMove2(first: Player)
    ensures var x: Cell, o: Cell := first, Next(first);
      && Step(State(Next(first), Grid([0, 0, 0, 0, 0, 0], [0, 0, 0, 0, 0, 0], [0, 0, 0, 0, 0, 0], [0, 0, 0, 0, 0, 0], [x, 0, 0, 0, 0, 0], [0, 0, 0, 0, 0, 0], [0, 0, 0, 0, 0, 0]), None), 3) ==
         State(first, Grid([0, 0, 0, 0, 0, 0], [0, 0, 0, 0, 0, 0], [0, 0, 0, 0, 0, 0], [o, 0, 0, 0, 0, 0], [x, 0, 0, 0, 0, 0], [0, 0, 0, 0, 0, 0], [0, 0, 0, 0, 0, 0]), None)
      && Actions(State(Next(first), Grid([0, 0, 0, 0, 0, 0], [0, 0, 0, 0, 0, 0], [0, 0, 0, 0, 0, 0], [0, 0, 0, 0, 0, 0], [x, 0, 0, 0, 0, 0], [0, 0, 0, 0, 0, 0], [0, 0, 0, 0, 0, 0]), None)) != []
  {
    var x: Cell, o: Cell := first, Next(first);
    var s := State(Next(first), Grid([0, 0, 0, 0, 0, 0], [0, 0, 0, 0, 0, 0], [0, 0, 0, 0, 0, 0], [0, 0, 0, 0, 0, 0], [x, 0, 0, 0, 0, 0], [0, 0, 0, 0, 0, 0], [0, 0, 0, 0, 0, 0]), None);
    var board := Grid([0, 0, 0, 0, 0, 0], [0, 0, 0, 0, 0, 0], [0, 0, 0, 0, 0, 0], [o, 0, 0, 0, 0, 0], [x, 0, 0, 0, 0, 0], [0, 0, 0, 0, 0, 0], [0, 0, 0, 0, 0, 0]);
    LandsOnLowestEmpty(s.board[3], 0);
    assert s.board[3][0 := o] == [o, 0, 0, 0, 0, 0];
    assert s.board[3 := [o, 0, 0, 0, 0, 0]] == board;
    SouthDiagonalWinTest2(first);
    StepResult(s, 3, 0, board, false);
    OpenColumnNotFinal(s, 3);
  }

  /** The victory test after move 3 of `SouthDiagonalWin`, at column 3, row 1. */
  lemma SouthDiagonalWinTest3(first: Player)
    ensures var x: Cell, o: Cell := first, Next(first);
      !CheckVictory(Grid([0, 0, 0, 0, 0, 0], [0, 0, 0, 0, 0, 0], [0, 0, 0, 0, 0, 0], [o, x, 0, 0, 0, 0], [x, 0, 0, 0, 0, 0], [0, 0, 0, 0, 0, 0], [0, 0, 0, 0, 0, 0]), 3, 1)
  {
    var x: Cell, o: Cell := first, Next(first);
    var board := Grid([0, 0, 0, 0, 0, 0], [0, 0, 0, 0, 0, 0], [0, 0, 0, 0, 0, 0], [o, x, 0, 0, 0, 0], [x, 0, 0, 0, 0, 0], [0, 0, 0, 0, 0, 0], [0, 0, 0, 0, 0, 0]);
    assert board[3][1] == x;
    NoRunAlong(board, 3, 1, x, Horizontal, -1, 1);
    NoRunAlong(board, 3, 1, x, Vertical, -1, 1);
    NoRunAlong(board, 3, 1, x, SouthDiagonal, -1, 1);
    NoRunAlong(board, 3, 1, x, NorthDiagonal, -1, 2);
    NotConnected(board, 3, 1);
    CheckVictoryMatchesRuns(board, 3, 1);
  }

  /** Move 3 of `SouthDiagonalWin`: column 3, landing on row 1. */
  lemma SouthDiagonalWinMove3(first: Player)
    ensures var x: Cell, o: Cell := first, Next(first);
      && Step(State(first, Grid([0, 0, 0, 0, 0, 0], [0, 0, 0, 0, 0, 0], [0, 0, 0, 0, 0, 0], [o, 0, 0, 0, 0, 0], [x, 0, 0, 0, 0, 0], [0, 0, 0, 0, 0, 0], [0, 0, 0, 0, 0, 0]), None), 3) ==
         State(Next(first), Grid([0, 0, 0, 0, 0, 0], [0, 0, 0, 0, 0, 0], [0, 0, 0, 0, 0, 0], [o, x, 0, 0, 0, 0], [x, 0, 0, 0, 0, 0], [0, 0, 0, 0, 0, 0], [0, 0, 0, 0, 0, 0]), None)
      && Actions(State(first, Grid([0, 0, 0, 0, 0, 0], [0, 0, 0, 0, 0, 0], [0, 0, 0, 0, 0, 0], [o, 0, 0, 0, 0, 0], [x, 0, 0, 0, 0, 0], [0, 0, 0, 0, 0, 0], [0, 0, 0, 0, 0, 0]), None)) != []
  {
    var x: Cell, o: Cell := first, Next(first);
    var s := State(first, Grid([0, 0, 0, 0, 0, 0], [0, 0, 0, 0, 0, 0], [0, 0, 0, 0, 0, 0], [o, 0, 0, 0, 0, 0], [x, 0, 0, 0, 0, 0], [0, 0, 0, 0, 0, 0], [0, 0, 0, 0, 0, 0]), None);
    var board := Grid([0, 0, 0, 0, 0, 0], [0, 0, 0, 0, 0, 0], [0, 0, 0, 0, 0, 0], [o, x, 0, 0, 0, 0], [x, 0, 0, 0, 0, 0], [0, 0, 0, 0, 0, 0], [0, 0, 0, 0, 0, 0]);
    LandsOnLowestEmpty(s.board[3], 1);
    assert s.board[3][1 := x] == [o, x, 0, 0, 0, 0];
    assert s.board[3 := [o, x, 0, 0, 0, 0]] == board;
    SouthDiagonalWinTest3(first);
    StepResult(s, 3, 1, board, false);
    OpenColumnNotFinal(s, 3);
  }

  /** The victory test after move 4 of `SouthDiagonalWin`, at column 1, row 0. */
  lemma SouthDiagonalWinTest4(first: Player)
    ensures var x: Cell, o: Cell := first, Next(first);
      !CheckVictory(Grid([0, 0, 0, 0, 0, 0], [o, 0, 0, 0, 0, 0], [0, 0, 0, 0, 0, 0], [o, x, 0, 0, 0, 0], [x, 0, 0, 0, 0, 0], [0, 0, 0, 0, 0, 0], [0, 0, 0, 0, 0, 0]), 1, 0)
  {
    var x: Cell, o: Cell := first, Next(first);
    var board := Grid([0, 0, 0, 0, 0, 0], [o, 0, 0, 0, 0, 0], [0, 0, 0, 0, 0, 0], [o, x, 0, 0, 0, 0], [x, 0, 0, 0, 0, 0], [0, 0, 0, 0, 0, 0], [0, 0, 0, 0, 0, 0]);
    assert board[1][0] == o;
    NoRunAlong(board, 1, 0, o, Horizontal, -1, 1);
    NoRunAlong(board, 1, 0, o, Vertical, -1, 1);
    NoRunAlong(board, 1, 0, o, SouthDiagonal, -1, 1);
    NoRunAlong(board, 1, 0, o, NorthDiagonal, -1, 1);
    NotConnected(board, 1, 0);
    CheckVictoryMatchesRuns(board, 1, 0);
  }

  /** Move 4 of `SouthDiagonalWin`: column 1, landing on row 0. */
  lemma SouthDiagonalWinMove4(first: Player)
    ensures var x: Cell, o: Cell := first, Next(first);
      && Step(State(Next(first), Grid([0, 0, 0, 0, 0, 0], [0, 0, 0, 0, 0, 0], [0, 0, 0, 0, 0, 0], [o, x, 0, 0, 0, 0], [x, 0, 0, 0, 0, 0], [0, 0, 0, 0, 0, 0], [0, 0, 0, 0, 0, 0]), None), 1) ==
         State(first, Grid([0, 0, 0, 0, 0, 0], [o, 0, 0, 0, 0, 0], [0, 0, 0, 0, 0, 0], [o, x, 0, 0, 0, 0], [x, 0, 0, 0, 0, 0], [0, 0, 0, 0, 0, 0], [0, 0, 0, 0, 0, 0]), None)
      && Actions(State(Next(first), Grid([0, 0, 0, 0, 0, 0], [0, 0, 0, 0, 0, 0], [0, 0, 0, 0, 0, 0], [o, x, 0, 0, 0, 0], [x, 0, 0, 0, 0, 0], [0, 0, 0, 0, 0, 0], [0, 0, 0, 0, 0, 0]), None)) != []
  {
    var x: Cell, o: Cell := first, Next(first);
    var s := State(Next(first), Grid([0, 0, 0, 0, 0, 0], [0, 0, 0, 0, 0, 0], [0, 0, 0, 0, 0, 0], [o, x, 0, 0, 0, 0], [x, 0, 0, 0, 0, 0], [0, 0, 0, 0, 0, 0], [0, 0, 0, 0, 0, 0]), None);
    var board := Grid([0, 0, 0, 0, 0, 0], [o, 0, 0, 0, 0, 0], [0, 0, 0, 0, 0, 0], [o, x, 0, 0, 0, 0], [x, 0, 0, 0, 0, 0], [0, 0, 0, 0, 0, 0], [0, 0, 0, 0, 0, 0]);
    LandsOnLowestEmpty(s.board[1], 0);
    assert s.board[1][0 := o] == [o, 0, 0, 0, 0, 0];
    assert s.board[1 := [o, 0, 0, 0, 0, 0]] == board;
    SouthDiagonalWinTest4(first);
    StepResult(s, 1, 0, board, false);
    OpenColumnNotFinal(s, 1);
  }

  /** The victory test after move 5 of `SouthDiagonalWin`, at column 2, row 0. */
  lemma SouthDiagonalWinTest5(first: Player)
    ensures var x: Cell, o: Cell := first, Next(first);
      !CheckVictory(Grid([0, 0, 0, 0, 0, 0], [o, 0, 0, 0, 0, 0], [x, 0, 0, 0, 0, 0], [o, x, 0, 0, 0, 0], [x, 0, 0, 0, 0, 0], [0, 0, 0, 0, 0, 0], [0, 0, 0, 0, 0, 0]), 2, 0)
  {
    var x: Cell, o: Cell := first, Next(first);
    var board := Grid([0, 0, 0, 0, 0, 0], [o, 0, 0, 0, 0, 0], [x, 0, 0, 0, 0, 0], [o, x, 0, 0, 0, 0], [x, 0, 0, 0, 0, 0], [0, 0, 0, 0, 0, 0], [0, 0, 0, 0, 0, 0]);
    assert board[2][0] == x;
    NoRunAlong(board, 2, 0, x, Horizontal, -1, 1);
    NoRunAlong(board, 2, 0, x, Vertical, -1, 1);
    NoRunAlong(board, 2, 0, x, SouthDiagonal, -1, 2);
    NoRunAlong(board, 2, 0, x, NorthDiagonal, -1, 1);
    NotConnected(board, 2, 0);
    CheckVictoryMatchesRuns(board, 2, 0);
  }

  /** Move 5 of `SouthDiagonalWin`: column 2, landing on row 0. */
  lemma SouthDiagonalWinMove5(first: Player)
    ensures var x: Cell, o: Cell := first, Next(first);
      && Step(State(first, Grid([0, 0, 0, 0, 0, 0], [o, 0, 0, 0, 0, 0], [0, 0, 0, 0, 0, 0], [o, x, 0, 0, 0, 0], [x, 0, 0, 0, 0, 0], [0, 0, 0, 0, 0, 0], [0, 0, 0, 0, 0, 0]), None), 2) ==
         State(Next(first), Grid([0, 0, 0, 0, 0, 0], [o, 0, 0, 0, 0, 0], [x, 0, 0, 0, 0, 0], [o, x, 0, 0, 0, 0], [x, 0, 0, 0, 0, 0], [0, 0, 0, 0, 0, 0], [0, 0, 0, 0, 0, 0]), None)
      && Actions(State(first, Grid([0, 0, 0, 0, 0, 0], [o, 0, 0, 0, 0, 0], [0, 0, 0, 0, 0, 0], [o, x, 0, 0, 0, 0], [x, 0, 0, 0, 0, 0], [0, 0, 0, 0, 0, 0], [0, 0, 0, 0, 0, 0]), None)) != []
  {
    var x: Cell, o: Cell := first, Next(first);
    var s := State(first, Grid([0, 0, 0, 0, 0, 0], [o, 0, 0, 0, 0, 0], [0, 0, 0, 0, 0, 0], [o, x, 0, 0, 0, 0], [x, 0, 0, 0, 0, 0], [0, 0, 0, 0, 0, 0], [0, 0, 0, 0, 0, 0]), None);
    var board := Grid([0, 0, 0, 0, 0, 0], [o, 0, 0, 0, 0, 0], [x, 0, 0, 0, 0, 0], [o, x, 0, 0, 0, 0], [x, 0, 0, 0, 0, 0], [0, 0, 0, 0, 0, 0], [0, 0, 0, 0, 0, 0]);
    LandsOnLowestEmpty(s.board[2], 0);
    assert s.board[2][0 := x] == [x, 0, 0, 0, 0, 0];
    assert s.board[2 := [x, 0, 0, 0, 0, 0]] == board;
    SouthDiagonalWinTest5(first);
    StepResult(s, 2, 0, board, false);
    OpenColumnNotFinal(s, 2);
  }

  /** The victory test after move 6 of `SouthDiagonalWin`, at column 1, row 1. */
  lemma SouthDiagonalWinTest6(first: Player)
    ensures var x: Cell, o: Cell := first, Next(first);
      !CheckVictory(Grid([0, 0, 0, 0, 0, 0], [o, o, 0, 0, 0, 0], [x, 0, 0, 0, 0, 0], [o, x, 0, 0, 0, 0], [x, 0, 0, 0, 0, 0], [0, 0, 0, 0, 0, 0], [0, 0, 0, 0, 0, 0]), 1, 1)
  {
    var x: Cell, o: Cell := first, Next(first);
    var board := Grid([0, 0, 0, 0, 0, 0], [o, o, 0, 0, 0, 0], [x, 0, 0, 0, 0, 0], [o, x, 0, 0, 0, 0], [x, 0, 0, 0, 0, 0], [0, 0, 0, 0, 0, 0], [0, 0, 0, 0, 0, 0]);
    assert board[1][1] == o;
    NoRunAlong(board, 1, 1, o, Horizontal, -1, 1);
    NoRunAlong(board, 1, 1, o, Vertical, -2, 1);
    NoRunAlong(board, 1, 1, o, SouthDiagonal, -1, 1);
    NoRunAlong(board, 1, 1, o, NorthDiagonal, -1, 1);
    NotConnected(board, 1, 1);
    CheckVictoryMatchesRuns(board, 1, 1);
  }

  /** Move 6 of `SouthDiagonalWin`: column 1, landing on row 1. */
  lemma SouthDiagonalWinMove6(first: Player)
    ensures var x: Cell, o: Cell := first, Next(first);
      && Step(State(Next(first), Grid([0, 0, 0, 0, 0, 0], [o, 0, 0, 0, 0, 0], [x, 0, 0, 0, 0, 0], [o, x, 0, 0, 0, 0], [x, 0, 0, 0, 0, 0], [0, 0, 0, 0, 0, 0], [0, 0, 0, 0, 0, 0]), None), 1) ==
         State(first, Grid([0, 0, 0, 0, 0, 0], [o, o, 0, 0, 0, 0], [x, 0, 0, 0, 0, 0], [o, x, 0, 0, 0, 0], [x, 0, 0, 0, 0, 0], [0, 0, 0, 0, 0, 0], [0, 0, 0, 0, 0, 0]), None)
      && Actions(State(Next(first), Grid([0, 0, 0, 0, 0, 0], [o, 0, 0, 0, 0, 0], [x, 0, 0, 0, 0, 0], [o, x, 0, 0, 0, 0], [x, 0, 0, 0, 0, 0], [0, 0, 0, 0, 0, 0], [0, 0, 0, 0, 0, 0]), None)) != []
  {
    var x: Cell, o: Cell := first, Next(first);
    var s := State(Next(first), Grid([0, 0, 0, 0, 0, 0], [o, 0, 0, 0, 0, 0], [x, 0, 0, 0, 0, 0], [o, x, 0, 0, 0, 0], [x, 0, 0, 0, 0, 0], [0, 0, 0, 0, 0, 0], [0, 0, 0, 0, 0, 0]), None);
    var board := Grid([0, 0, 0, 0, 0, 0], [o, o, 0, 0, 0, 0], [x, 0, 0, 0, 0, 0], [o, x, 0, 0, 0, 0], [x, 0, 0, 0, 0, 0], [0, 0, 0, 0, 0, 0], [0, 0, 0, 0, 0, 0]);
    LandsOnLowestEmpty(s.board[1], 1);
    assert s.board[1][1 := o] == [o, o, 0, 0, 0, 0];
    assert s.board[1 := [o, o, 0, 0, 0, 0]] == board;
    SouthDiagonalWinTest6(first);
    StepResult(s, 1, 1, board, false);
    OpenColumnNotFinal(s, 1);
  }

  /** The victory test after move 7 of `SouthDiagonalWin`, at column 2, row 1. */
  lemma SouthDiagonalWinTest7(first: Player)
    ensures var x: Cell, o: Cell := first, Next(first);
      !CheckVictory(Grid([0, 0, 0, 0, 0, 0], [o, o, 0, 0, 0, 0], [x, x, 0, 0, 0, 0], [o, x, 0, 0, 0, 0], [x, 0, 0, 0, 0, 0], [0, 0, 0, 0, 0, 0], [0, 0, 0, 0, 0, 0]), 2, 1)
  {
    var x: Cell, o: Cell := first, Next(first);
    var board := Grid([0, 0, 0, 0, 0, 0], [o, o, 0, 0, 0, 0], [x, x, 0, 0, 0, 0], [o, x, 0, 0, 0, 0], [x, 0, 0, 0, 0, 0], [0, 0, 0, 0, 0, 0], [0, 0, 0, 0, 0, 0]);
    assert board[2][1] == x;
    NoRunAlong(board, 2, 1, x, Horizontal, -1, 2);
    NoRunAlong(board, 2, 1, x, Vertical, -2, 1);
    NoRunAlong(board, 2, 1, x, SouthDiagonal, -1, 1);
    NoRunAlong(board, 2, 1, x, NorthDiagonal, -1, 1);
    NotConnected(board, 2, 1);
    CheckVictoryMatchesRuns(board, 2, 1);
  }

  /** Move 7 of `SouthDiagonalWin`: column 2, landing on row 1. */
  lemma SouthDiagonalWinMove7(first: Player)
    ensures var x: Cell, o: Cell := first, Next(first);
      && Step(State(first, Grid([0, 0, 0, 0, 0, 0], [o, o, 0, 0, 0, 0], [x, 0, 0, 0, 0, 0], [o, x, 0, 0, 0, 0], [x, 0, 0, 0, 0, 0], [0, 0, 0, 0, 0, 0], [0, 0, 0, 0, 0, 0]), None), 2) ==
         State(Next(first), Grid([0, 0, 0, 0, 0, 0], [o, o, 0, 0, 0, 0], [x, x, 0, 0, 0, 0], [o, x, 0, 0, 0, 0], [x, 0, 0, 0, 0, 0], [0, 0, 0, 0, 0, 0], [0, 0, 0, 0, 0, 0]), None)
      && Actions(State(first, Grid([0, 0, 0, 0, 0, 0], [o, o, 0, 0, 0, 0], [x, 0, 0, 0, 0, 0], [o, x, 0, 0, 0, 0], [x, 0, 0, 0, 0, 0], [0, 0, 0, 0, 0, 0], [0, 0, 0, 0, 0, 0]), None)) != []
  {
    var x: Cell, o: Cell := first, Next(first);
    var s := State(first, Grid([0, 0, 0, 0, 0, 0], [o, o, 0, 0, 0, 0], [x, 0, 0, 0, 0, 0], [o, x, 0, 0, 0, 0], [x, 0, 0, 0, 0, 0], [0, 0, 0, 0, 0, 0], [0, 0, 0, 0, 0, 0]), None);
    var board := Grid([0, 0, 0, 0, 0, 0], [o, o, 0, 0, 0, 0], [x, x, 0, 0, 0, 0], [o, x, 0, 0, 0, 0], [x, 0, 0, 0, 0, 0], [0, 0, 0, 0, 0, 0], [0, 0, 0, 0, 0, 0]);
    LandsOnLowestEmpty(s.board[2], 1);
    assert s.board[2][1 := x] == [x, x, 0, 0, 0, 0];
    assert s.board[2 := [x, x, 0, 0, 0, 0]] == board;
    SouthDiagonalWinTest7(first);
    StepResult(s, 2, 1, board, false);
    OpenColumnNotFinal(s, 2);
  }

  /** The victory test after move 8 of `SouthDiagonalWin`, at column 1, row 2. */
  lemma SouthDiagonalWinTest8(first: Player)
    ensures var x: Cell, o: Cell := first, Next(first);
      !CheckVictory(Grid([0, 0, 0, 0, 0, 0], [o, o, o, 0, 0, 0], [x, x, 0, 0, 0, 0], [o, x, 0, 0, 0, 0], [x, 0, 0, 0, 0, 0], [0, 0, 0, 0, 0, 0], [0, 0, 0, 0, 0, 0]), 1, 2)
  {
    var x: Cell, o: Cell := first, Next(first);
    var board := Grid([0, 0, 0, 0, 0, 0], [o, o, o, 0, 0, 0], [x, x, 0, 0, 0, 0], [o, x, 0, 0, 0, 0], [x, 0, 0, 0, 0, 0], [0, 0, 0, 0, 0, 0], [0, 0, 0, 0, 0, 0]);
    assert board[1][2] == o;
    NoRunAlong(board, 1, 2, o, Horizontal, -1, 1);
    NoRunAlong(board, 1, 2, o, Vertical, -3, 1);
    NoRunAlong(board, 1, 2, o, SouthDiagonal, -1, 1);
    NoRunAlong(board, 1, 2, o, NorthDiagonal, -1, 1);
    NotConnected(board, 1, 2);
    CheckVictoryMatchesRuns(board, 1, 2);
  }

  /** Move 8 of `SouthDiagonalWin`: column 1, landing on row 2. */
  lemma SouthDiagonalWinMove8(first: Player)
    ensures var x: Cell, o: Cell := first, Next(first);
      && Step(State(Next(first), Grid([0, 0, 0, 0, 0, 0], [o, o, 0, 0, 0, 0], [x, x, 0, 0, 0, 0], [o, x, 0, 0, 0, 0], [x, 0, 0, 0, 0, 0], [0, 0, 0, 0, 0, 0], [0, 0, 0, 0, 0, 0]), None), 1) ==
         State(first, Grid([0, 0, 0, 0, 0, 0], [o, o, o, 0, 0, 0], [x, x, 0, 0, 0, 0], [o, x, 0, 0, 0, 0], [x, 0, 0, 0, 0, 0], [0, 0, 0, 0, 0, 0], [0, 0, 0, 0, 0, 0]), None)
      && Actions(State(Next(first), Grid([0, 0, 0, 0, 0, 0], [o, o, 0, 0, 0, 0], [x, x, 0, 0, 0, 0], [o, x, 0, 0, 0, 0], [x, 0, 0, 0, 0, 0], [0, 0, 0, 0, 0, 0], [0, 0, 0, 0, 0, 0]), None)) != []
  {
    var x: Cell, o: Cell := first, Next(first);
    var s := State(Next(first), Grid([0, 0, 0, 0, 0, 0], [o, o, 0, 0, 0, 0], [x, x, 0, 0, 0, 0], [o, x, 0, 0, 0, 0], [x, 0, 0, 0, 0, 0], [0, 0, 0, 0, 0, 0], [0, 0, 0, 0, 0, 0]), None);
    var board := Grid([0, 0, 0, 0, 0, 0], [o, o, o, 0, 0, 0], [x, x, 0, 0, 0, 0], [o, x, 0, 0, 0, 0], [x, 0, 0, 0, 0, 0], [0, 0, 0, 0, 0, 0], [0, 0, 0, 0, 0, 0]);
    LandsOnLowestEmpty(s.board[1], 2);
    assert s.board[1][2 := o] == [o, o, o, 0, 0, 0];
    assert s.board[1 := [o, o, o, 0, 0, 0]] == board;
    SouthDiagonalWinTest8(first);
    StepResult(s, 1, 2, board, false);
    OpenColumnNotFinal(s, 1);
  }

  /** The victory test after move 9 of `SouthDiagonalWin`, at column 2, row 2. */
  lemma SouthDiagonalWinTest9(first: Player)
    ensures var x: Cell, o: Cell := first, Next(first);
      !CheckVictory(Grid([0, 0, 0, 0, 0, 0], [o, o, o, 0, 0, 0], [x, x, x, 0, 0, 0], [o, x, 0, 0, 0, 0], [x, 0, 0, 0, 0, 0], [0, 0, 0, 0, 0, 0], [0, 0, 0, 0, 0, 0]), 2, 2)
  {
    var x: Cell, o: Cell := first, Next(first);
    var board := Grid([0, 0, 0, 0, 0, 0], [o, o, o, 0, 0, 0], [x, x, x, 0, 0, 0], [o, x, 0, 0, 0, 0], [x, 0, 0, 0, 0, 0], [0, 0, 0, 0, 0, 0], [0, 0, 0, 0, 0, 0]);
    assert board[2][2] == x;
    NoRunAlong(board, 2, 2, x, Horizontal, -1, 1);
    NoRunAlong(board, 2, 2, x, Vertical, -3, 1);
    NoRunAlong(board, 2, 2, x, SouthDiagonal, -1, 1);
    NoRunAlong(board, 2, 2, x, NorthDiagonal, -1, 3);
    NotConnected(board, 2, 2);
    CheckVictoryMatchesRuns(board, 2, 2);
  }

  /** Move 9 of `SouthDiagonalWin`: column 2, landing on row 2. */
  lemma SouthDiagonalWinMove9(first: Player)
    ensures var x: Cell, o: Cell := first, Next(first);
      && Step(State(first, Grid([0, 0, 0, 0, 0, 0], [o, o, o, 0, 0, 0], [x, x, 0, 0, 0, 0], [o, x, 0, 0, 0, 0], [x, 0, 0, 0, 0, 0], [0, 0, 0, 0, 0, 0], [0, 0, 0, 0, 0, 0]), None), 2) ==
         State(Next(first), Grid([0, 0, 0, 0, 0, 0], [o, o, o, 0, 0, 0], [x, x, x, 0, 0, 0], [o, x, 0, 0, 0, 0], [x, 0, 0, 0, 0, 0], [0, 0, 0, 0, 0, 0], [0, 0, 0, 0, 0, 0]), None)
      && Actions(State(first, Grid([0, 0, 0, 0, 0, 0], [o, o, o, 0, 0, 0], [x, x, 0, 0, 0, 0], [o, x, 0, 0, 0, 0], [x, 0, 0, 0, 0, 0], [0, 0, 0, 0, 0, 0], [0, 0, 0, 0, 0, 0]), None)) != []
  {
    var x: Cell, o: Cell := first, Next(first);
    var s := State(first, Grid([0, 0, 0, 0, 0, 0], [o, o, o, 0, 0, 0], [x, x, 0, 0, 0, 0], [o, x, 0, 0, 0, 0], [x, 0, 0, 0, 0, 0], [0, 0, 0, 0, 0, 0], [0, 0, 0, 0, 0, 0]), None);
    var board := Grid([0, 0, 0, 0, 0, 0], [o, o, o, 0, 0, 0], [x, x, x, 0, 0, 0], [o, x, 0, 0, 0, 0], [x, 0, 0, 0, 0, 0], [0, 0, 0, 0, 0, 0], [0, 0, 0, 0, 0, 0]);
    LandsOnLowestEmpty(s.board[2], 2);
    assert s.board[2][2 := x] == [x, x, x, 0, 0, 0];
    assert s.board[2 := [x, x, x, 0, 0, 0]] == board;
    SouthDiagonalWinTest9(first);
    StepResult(s, 2, 2, board, false);
    OpenColumnNotFinal(s, 2);
  }

  /** The victory test after move 10 of `SouthDiagonalWin`, at column 5, row 0. */
  lemma SouthDiagonalWinTest10(first: Player)
    ensures var x: Cell, o: Cell := first, Next(first);
      !CheckVictory(Grid([0, 0, 0, 0, 0, 0], [o, o, o, 0, 0, 0], [x, x, x, 0, 0, 0], [o, x, 0, 0, 0, 0], [x, 0, 0, 0, 0, 0], [o, 0, 0, 0, 0, 0], [0, 0, 0, 0, 0, 0]), 5, 0)
  {
    var x: Cell, o: Cell := first, Next(first);
    var board := Grid([0, 0, 0, 0, 0, 0], [o, o, o, 0, 0, 0], [x, x, x, 0, 0, 0], [o, x, 0, 0, 0, 0], [x, 0, 0, 0, 0, 0], [o, 0, 0, 0, 0, 0], [0, 0, 0, 0, 0, 0]);
    assert board[5][0] == o;
    NoRunAlong(board, 5, 0, o, Horizontal, -1, 1);
    NoRunAlong(board, 5, 0, o, Vertical, -1, 1);
    NoRunAlong(board, 5, 0, o, SouthDiagonal, -1, 1);
    NoRunAlong(board, 5, 0, o, NorthDiagonal, -1, 1);
    NotConnected(board, 5, 0);
    CheckVictoryMatchesRuns(board, 5, 0);
  }

  /** Move 10 of `SouthDiagonalWin`: column 5, landing on row 0. */
  lemma SouthDiagonalWinMove10(first: Player)
    ensures var x: Cell, o: Cell := first, Next(first);
      && Step(State(Next(first), Grid([0, 0, 0, 0, 0, 0], [o, o, o, 0, 0, 0], [x, x, x, 0, 0, 0], [o, x, 0, 0, 0, 0], [x, 0, 0, 0, 0, 0], [0, 0, 0, 0, 0, 0], [0, 0, 0, 0, 0, 0]), None), 5) ==
         State(first, Grid([0, 0, 0, 0, 0, 0], [o, o, o, 0, 0, 0], [x, x, x, 0, 0, 0], [o, x, 0, 0, 0, 0], [x, 0, 0, 0, 0, 0], [o, 0, 0, 0, 0, 0], [0, 0, 0, 0, 0, 0]), None)
      && Actions(State(Next(first), Grid([0, 0, 0, 0, 0, 0], [o, o, o, 0, 0, 0], [x, x, x, 0, 0, 0], [o, x, 0, 0, 0, 0], [x, 0, 0, 0, 0, 0], [0, 0, 0, 0, 0, 0], [0, 0, 0, 0, 0, 0]), None)) != []
  {
    var x: Cell, o: Cell := first, Next(first);
    var s := State(Next(first), Grid([0, 0, 0, 0, 0, 0], [o, o, o, 0, 0, 0], [x, x, x, 0, 0, 0], [o, x, 0, 0, 0, 0], [x, 0, 0, 0, 0, 0], [0, 0, 0, 0, 0, 0], [0, 0, 0, 0, 0, 0]), None);
    var board := Grid([0, 0, 0, 0, 0, 0], [o, o, o, 0, 0, 0], [x, x, x, 0, 0, 0], [o, x, 0, 0, 0, 0], [x, 0, 0, 0, 0, 0], [o, 0, 0, 0, 0, 0], [0, 0, 0, 0, 0, 0]);
    LandsOnLowestEmpty(s.board[5], 0);
    assert s.board[5][0 := o] == [o, 0, 0, 0, 0, 0];
    assert s.board[5 := [o, 0, 0, 0, 0, 0]] == board;
    SouthDiagonalWinTest10(first);
    StepResult(s, 5, 0, board, false);
    OpenColumnNotFinal(s, 5);
  }

  /** The victory test after move 11 of `SouthDiagonalWin`, at column 1, row 3. */
  lemma SouthDiagonalWinTest11(first: Player)
    ensures var x: Cell, o: Cell := first, Next(first);
      CheckVictory(Grid([0, 0, 0, 0, 0, 0], [o, o, o, x, 0, 0], [x, x, x, 0, 0, 0], [o, x, 0, 0, 0, 0], [x, 0, 0, 0, 0, 0], [o, 0, 0, 0, 0, 0], [0, 0, 0, 0, 0, 0]), 1, 3)
  {
    var x: Cell, o: Cell := first, Next(first);
    var board := Grid([0, 0, 0, 0, 0, 0], [o, o, o, x, 0, 0], [x, x, x, 0, 0, 0], [o, x, 0, 0, 0, 0], [x, 0, 0, 0, 0, 0], [o, 0, 0, 0, 0, 0], [0, 0, 0, 0, 0, 0]);
    assert board[1][3] == x;
    FourConnects(board, 1, 3, NorthDiagonal, 0);
    CheckVictoryMatchesRuns(board, 1, 3);
  }

  /** Move 11 of `SouthDiagonalWin`: column 1, landing on row 3. */
  lemma SouthDiagonalWinMove11(first: Player)
    ensures var x: Cell, o: Cell := first, Next(first);
      && Step(State(first, Grid([0, 0, 0, 0, 0, 0], [o, o, o, 0, 0, 0], [x, x, x, 0, 0, 0], [o, x, 0, 0, 0, 0], [x, 0, 0, 0, 0, 0], [o, 0, 0, 0, 0, 0], [0, 0, 0, 0, 0, 0]), None), 1) ==
         State(Next(first), Grid([0, 0, 0, 0, 0, 0], [o, o, o, x, 0, 0], [x, x, x, 0, 0, 0], [o, x, 0, 0, 0, 0], [x, 0, 0, 0, 0, 0], [o, 0, 0, 0, 0, 0], [0, 0, 0, 0, 0, 0]), Some(first))
      && Actions(State(first, Grid([0, 0, 0, 0, 0, 0], [o, o, o, 0, 0, 0], [x, x, x, 0, 0, 0], [o, x, 0, 0, 0, 0], [x, 0, 0, 0, 0, 0], [o, 0, 0, 0, 0, 0], [0, 0, 0, 0, 0, 0]), None)) != []
      && Actions(State(Next(first), Grid([0, 0, 0, 0, 0, 0], [o, o, o, x, 0, 0], [x, x, x, 0, 0, 0], [o, x, 0, 0, 0, 0], [x, 0, 0, 0, 0, 0], [o, 0, 0, 0, 0, 0], [0, 0, 0, 0, 0, 0]), Some(first))) == []
  {
    var x: Cell, o: Cell := first, Next(first);
    var s := State(first, Grid([0, 0, 0, 0, 0, 0], [o, o, o, 0, 0, 0], [x, x, x, 0, 0, 0], [o, x, 0, 0, 0, 0], [x, 0, 0, 0, 0, 0], [o, 0, 0, 0, 0, 0], [0, 0, 0, 0, 0, 0]), None);
    var board := Grid([0, 0, 0, 0, 0, 0], [o, o, o, x, 0, 0], [x, x, x, 0, 0, 0], [o, x, 0, 0, 0, 0], [x, 0, 0, 0, 0, 0], [o, 0, 0, 0, 0, 0], [0, 0, 0, 0, 0, 0]);
    LandsOnLowestEmpty(s.board[1], 3);
    assert s.board[1][3 := x] == [o, o, o, x, 0, 0];
    assert s.board[1 := [o, o, o, x, 0, 0]] == board;
    SouthDiagonalWinTest11(first);
    StepResult(s, 1, 3, board, true);
    OpenColumnNotFinal(s, 1);
  }

  /** Four on a falling diagonal, from column 1 row 3 to column 4 row 0. */
  lemma SouthDiagonalWin(first: Player)
    ensures var s0 := Initialize(7, 6, first); var s1 := Step(s0, 4); var s2 := Step(s1, 3); var s3 := Step(s2, 3); var s4 := Step(s3, 1); var s5 := Step(s4, 2); var s6 := Step(s5, 1); var s7 := Step(s6, 2); var s8 := Step(s7, 1); var s9 := Step(s8, 2); var s10 := Step(s9, 5); var s11 := Step(s10, 1);
      Actions(s1) != [] && Actions(s2) != [] && Actions(s3) != [] && Actions(s4) != [] && Actions(s5) != [] && Actions(s6) != [] && Actions(s7) != [] && Actions(s8) != [] && Actions(s9) != [] && Actions(s10) != [] && Actions(s11) == []
  {
    EmptyGrid(first);
    SouthDiagonalWinMove1(first);
    SouthDiagonalWinMove2(first);
    SouthDiagonalWinMove3(first);
    SouthDiagonalWinMove4(first);
    SouthDiagonalWinMove5(first);
    SouthDiagonalWinMove6(first);
    SouthDiagonalWinMove7(first);
    SouthDiagonalWinMove8(first);
    SouthDiagonalWinMove9(first);
    SouthDiagonalWinMove10(first);
    SouthDiagonalWinMove11(first);
  }
}
