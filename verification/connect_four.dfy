/**
 Connect-four rules on a board of any positive width and height, stored column by column:
 `board[c][r]` is row `r` of column `c`, row 0 being where a piece dropped
 into an empty column lands. A cell holds 0 when empty, otherwise the number
 of the player who took it. Legal moves are the columns that still hold an
 empty cell; a move fills the lowest empty cell of its column, looks for four
 in a row through that cell, and hands the turn over.
 */
module ConnectFour {

  import opened Wrappers
  import opened Players
  import Environment

  /** A cell: 0 when empty, else the player who took it. */
  type Cell = c: int | 0 <= c <= 2

  /** Columns of equal, positive height, and at least one column. */
  predicate Rectangular(b: seq<seq<Cell>>) {
    && |b| > 0 && |b[0]| > 0
    && forall c | 0 <= c < |b| :: |b[c]| == |b[0]|
  }

  type Board = b: seq<seq<Cell>> | Rectangular(b) witness [[0]]

  function Width(b: Board): nat { |b| }

  function Height(b: Board): nat { |b[0]| }

  datatype State = State(playerTurn: Player, board: Board, winner: Option<Player>)

  /** The opening position: every cell empty; who moves first is a parameter (`random.randint(1, 2)` in `ConnectFour.initialize`). */
  function Initialize(width: nat, height: nat, first: Player): (s: State)
    requires width > 0 && height > 0
    ensures Width(s.board) == width && Height(s.board) == height
    ensures forall c, r | 0 <= c < width && 0 <= r < height :: s.board[c][r] == 0
    ensures s.playerTurn == first && s.winner.None?
  {
    State(first, seq(width, _ => seq(height, _ => 0)), None)
  }

  // ---------------------------------------------------------------------
  // Legal moves
  // ---------------------------------------------------------------------

  /** The smallest cell of a column. */
  function MinOf(col: seq<Cell>): (m: Cell)
    requires |col| > 0
    ensures m in col
    ensures forall x | x in col :: m <= x
  {
    if |col| == 1 then col[0]
    else
      var rest := MinOf(col[1..]);
      assert forall x | x in col[1..] :: x in col;
      assert forall x | x in col :: x == col[0] || x in col[1..];
      if col[0] <= rest then col[0] else rest
  }

  /** Strictly increasing. */
  ghost predicate Ascending(xs: seq<int>) {
    forall i, j | 0 <= i < j < |xs| :: xs[i] < xs[j]
  }

  /** The columns from `from` on whose smallest cell is empty, in increasing order. */
  function OpenColumns(b: Board, from: nat): (r: seq<int>)
    requires from <= |b|
    ensures forall c :: c in r <==> from <= c < |b| && 0 in b[c]
    ensures forall i | 0 <= i < |r| :: from <= r[i] < |b|
    ensures Ascending(r)
    decreases |b| - from
  {
    if from == |b| then []
    else
      var rest := OpenColumns(b, from + 1);
      if MinOf(b[from]) == 0 then [from] + rest else rest
  }

  /**
   The legal moves: none once somebody has won, otherwise every column that
   still has an empty cell, in increasing order.
   */
  function Actions(s: State): (r: seq<int>)
    ensures s.winner.Some? ==> r == []
    ensures s.winner.None? ==> forall c :: c in r <==> 0 <= c < Width(s.board) && 0 in s.board[c]
    ensures Ascending(r)
  {
    if s.winner.Some? then [] else OpenColumns(s.board, 0)
  }

  // ---------------------------------------------------------------------
  // Dropping a piece
  // ---------------------------------------------------------------------

  /** `row` is the lowest empty cell of `col`. */
  ghost predicate LowestEmpty(col: seq<Cell>, row: int) {
    && 0 <= row < |col|
    && col[row] == 0
    && forall j | 0 <= j < row :: col[j] != 0
  }

  /**
   Where a piece dropped into `col` lands: the first position of the
   column's smallest cell, which is its lowest empty cell whenever it has
   one. On a full column it is the first cell holding the smaller player
   number, which the move then overwrites.
   */
  function Landing(col: seq<Cell>): (row: nat)
    requires |col| > 0
    ensures row < |col|
    ensures forall j | 0 <= j < |col| :: col[row] <= col[j]
    ensures forall j | 0 <= j < row :: col[row] < col[j]
    ensures 0 in col ==> LowestEmpty(col, row)
  {
    if |col| == 1 then 0
    else
      var n := |col| - 1;
      var j := Landing(col[..n]);
      assert forall k | 0 <= k < n :: col[..n][k] == col[k];
      if col[n] < col[j] then n else j
  }

  /** `b'` is `b` with exactly the cell (`col`, `row`) set to `v`. */
  ghost predicate OnlyChange(b: Board, b': Board, col: int, row: int, v: Cell) {
    && |b'| == |b|
    && (forall c | 0 <= c < |b| :: |b'[c]| == |b[c]|)
    && forall c, r | 0 <= c < |b| && 0 <= r < |b[c]| :: b'[c][r] == (if c == col && r == row then v else b[c][r])
  }

  /**
   Drop the mover's piece into column `col`, record the mover as the winner
   when the victory test passes at the landing cell, and hand the turn over.
   The receiver is a value and is left as it was. A column outside the
   board makes NumPy raise or wrap around in `_step`, so it is excluded here.
   */
  function Step(s: State, col: int): (r: State)
    requires 0 <= col < Width(s.board)
    ensures Width(r.board) == Width(s.board) && Height(r.board) == Height(s.board)
    ensures OnlyChange(s.board, r.board, col, Landing(s.board[col]), s.playerTurn)
    ensures r.playerTurn == Next(s.playerTurn)
    ensures s.winner.Some? ==> r.winner.Some?
  {
    var row := Landing(s.board[col]);
    var column: seq<Cell> := s.board[col][row := s.playerTurn];
    var board: Board := s.board[col := column];
    var winner := if CheckVictory(board, col, row) then Some(s.playerTurn) else s.winner;
    State(Next(s.playerTurn), board, winner)
  }

  // ---------------------------------------------------------------------
  // The victory test, as `check_victory` computes it
  // ---------------------------------------------------------------------

  /** The cell (c, r) is on the board. */
  predicate InBounds(b: Board, c: int, r: int) {
    0 <= c < Width(b) && 0 <= r < Height(b)
  }

  /** A run counter after one more cell: one longer on a match, back to zero otherwise. */
  function Tally(counter: nat, hit: bool): nat {
    if hit then counter + 1 else 0
  }

  function Max(x: int, y: int): int {
    if x >= y then x else y
  }

  /** The scan's four run counters: horizontal, vertical, south diagonal, north diagonal. */
  datatype Counters = Counters(horizontal: nat, vertical: nat, south: nat, north: nat)

  function Largest(k: Counters): nat {
    Max(Max(Max(k.horizontal, k.vertical), k.south), k.north)
  }

  /**
   The counters after the cells at offset `i` around (c, r): a counter only
   moves when its cell is on the board.
   */
  function Advance(b: Board, c: int, r: int, player: Cell, i: int, k: Counters): Counters
    requires InBounds(b, c, r)
  {
    var inCol := 0 <= c + i < Width(b);
    Counters(
      if inCol then Tally(k.horizontal, b[c + i][r] == player) else k.horizontal,
      if 0 <= r + i < Height(b) then Tally(k.vertical, b[c][r + i] == player) else k.vertical,
      if inCol && 0 <= r + i < Height(b) then Tally(k.south, b[c + i][r + i] == player) else k.south,
      if inCol && 0 <= r - i < Height(b) then Tally(k.north, b[c + i][r - i] == player) else k.north)
  }

  /**
   The scan from offset `i` (from -3 to 3) around (c, r), with the counters
   so far; it stops with success as soon as the largest counter is 4.
   */
  function Scan(b: Board, c: int, r: int, player: Cell, i: int, k: Counters): bool
    requires InBounds(b, c, r)
    requires -3 <= i <= 4
    decreases 4 - i
  {
    if i == 4 then false
    else
      var k' := Advance(b, c, r, player, i, k);
      if Largest(k') == 4 then true else Scan(b, c, r, player, i + 1, k')
  }

  /** The victory test after a piece landed at (c, r): four in a row of that cell's value, found by the scan. */
  predicate CheckVictory(b: Board, c: int, r: int)
    requires InBounds(b, c, r)
  {
    Scan(b, c, r, b[c][r], -3, Counters(0, 0, 0, 0))
  }

  // ---------------------------------------------------------------------
  // Four in a row, stated directly
  // ---------------------------------------------------------------------

  /**
   The four lines through a cell. South-diagonal cells step both column and
   row up; north-diagonal cells step the column up and the row down.
   */
  datatype Direction = Horizontal | Vertical | SouthDiagonal | NorthDiagonal

  /** Column step of offset `i` along `d`. */
  function DCol(d: Direction, i: int): int {
    if d.Vertical? then 0 else i
  }

  /** Row step of offset `i` along `d`. */
  function DRow(d: Direction, i: int): int {
    match d
    case Horizontal => 0
    case Vertical => i
    case SouthDiagonal => i
    case NorthDiagonal => -i
  }

  /** The cell at offset `i` from (c, r) along `d` is on the board. */
  predicate InRange(b: Board, c: int, r: int, d: Direction, i: int) {
    InBounds(b, c + DCol(d, i), r + DRow(d, i))
  }

  /** The cell at offset `i` from (c, r) along `d` is on the board and holds `player`. */
  predicate Hit(b: Board, c: int, r: int, player: Cell, d: Direction, i: int) {
    InRange(b, c, r, d, i) && b[c + DCol(d, i)][r + DRow(d, i)] == player
  }

  /** Offsets `s` to `s + 3` along `d` all hold `player`. */
  ghost predicate RunAt(b: Board, c: int, r: int, player: Cell, d: Direction, s: int) {
    forall i | s <= i < s + 4 :: Hit(b, c, r, player, d, i)
  }

  /**
   Four cells in a row along some direction, all on the board, one of them
   (c, r), all holding what (c, r) holds.
   */
  ghost predicate Connected(b: Board, c: int, r: int)
    requires InBounds(b, c, r)
  {
    exists d: Direction, s | -3 <= s <= 0 :: RunAt(b, c, r, b[c][r], d, s)
  }

  // ---------------------------------------------------------------------
  // The scan finds exactly the runs of four
  // ---------------------------------------------------------------------

  /** The value of the scan's counter for `d` after offset `i`; -4 stands for "before the scan". */
  function Counter(b: Board, c: int, r: int, player: Cell, d: Direction, i: int): nat
    requires -4 <= i
    decreases i + 4
  {
    if i == -4 then 0
    else if InRange(b, c, r, d, i) then Tally(Counter(b, c, r, player, d, i - 1), Hit(b, c, r, player, d, i))
    else Counter(b, c, r, player, d, i - 1)
  }

  /** The number of consecutive hits along `d` ending at offset `i`, counting back no further than -3. */
  function RunLength(b: Board, c: int, r: int, player: Cell, d: Direction, i: int): nat
    requires -4 <= i
    decreases i + 4
  {
    if i == -4 || !Hit(b, c, r, player, d, i) then 0
    else RunLength(b, c, r, player, d, i - 1) + 1
  }

  /** The offsets on the board along a direction form an interval. */
  lemma InRangeConvex(b: Board, c: int, r: int, d: Direction, i: int, j: int, k: int)
    requires i <= j <= k
    requires InRange(b, c, r, d, i) && InRange(b, c, r, d, k)
    ensures InRange(b, c, r, d, j)
  {
  }

  /** Before the first offset on the board, a counter has not moved. */
  lemma {:induction false} CounterIdleBeforeRange(b: Board, c: int, r: int, player: Cell, d: Direction, i: int)
    requires -4 <= i
    requires forall k | -3 <= k <= i :: !InRange(b, c, r, d, k)
    ensures Counter(b, c, r, player, d, i) == 0
    decreases i + 4
  {
    if i > -4 {
      CounterIdleBeforeRange(b, c, r, player, d, i - 1);
    }
  }

  /** At an offset on the board, the counter is the length of the run of hits ending there. */
  lemma {:induction false} CounterIsRunLength(b: Board, c: int, r: int, player: Cell, d: Direction, i: int)
    requires -4 <= i
    requires InRange(b, c, r, d, i)
    ensures Counter(b, c, r, player, d, i) == RunLength(b, c, r, player, d, i)
    decreases i + 4
  {
    if i > -4 && Hit(b, c, r, player, d, i) && i - 1 > -4 {
      if InRange(b, c, r, d, i - 1) {
        CounterIsRunLength(b, c, r, player, d, i - 1);
      } else {
        forall k | -3 <= k <= i - 1
          ensures !InRange(b, c, r, d, k)
        {
          if InRange(b, c, r, d, k) {
            InRangeConvex(b, c, r, d, k, i - 1, i);
          }
        }
        CounterIdleBeforeRange(b, c, r, player, d, i - 1);
      }
    }
  }

  /** A counter that is not zero holds the value it took at some offset on the board. */
  lemma {:induction false} CounterFromRange(b: Board, c: int, r: int, player: Cell, d: Direction, i: int)
    requires -4 <= i
    requires Counter(b, c, r, player, d, i) > 0
    ensures exists k | -3 <= k <= i :: InRange(b, c, r, d, k) && Counter(b, c, r, player, d, k) == Counter(b, c, r, player, d, i)
    decreases i + 4
  {
    if !InRange(b, c, r, d, i) {
      CounterFromRange(b, c, r, player, d, i - 1);
    }
  }

  /** A run of at least `n` hits ends at `i` exactly when the `n` offsets up to `i` are all hits. */
  lemma {:induction false} RunLengthMeaning(b: Board, c: int, r: int, player: Cell, d: Direction, i: int, n: nat)
    requires -4 <= i
    ensures RunLength(b, c, r, player, d, i) >= n <==>
      (i - n >= -4 && forall k | i - n < k <= i :: Hit(b, c, r, player, d, k))
    decreases n
  {
    if n > 0 && i > -4 {
      RunLengthMeaning(b, c, r, player, d, i - 1, n - 1);
    }
  }

  /** `Counter` for all four directions. */
  function CountersAt(b: Board, c: int, r: int, player: Cell, i: int): Counters
    requires -4 <= i
  {
    Counters(Counter(b, c, r, player, Horizontal, i), Counter(b, c, r, player, Vertical, i),
             Counter(b, c, r, player, SouthDiagonal, i), Counter(b, c, r, player, NorthDiagonal, i))
  }

  /** At offset `i`, the counter for `d` moves as the scan moves it. */
  lemma CounterStep(b: Board, c: int, r: int, player: Cell, d: Direction, i: int)
    requires InBounds(b, c, r)
    requires -3 <= i
    ensures var before := Counter(b, c, r, player, d, i - 1);
      var c', r' := c + DCol(d, i), r + DRow(d, i);
      Counter(b, c, r, player, d, i) == if InBounds(b, c', r') then Tally(before, b[c'][r'] == player) else before
  {
  }

  /** One pass of the scan moves each counter exactly as `Counter` does. */
  lemma AdvanceIsCounter(b: Board, c: int, r: int, player: Cell, i: int)
    requires InBounds(b, c, r)
    requires -3 <= i
    ensures Advance(b, c, r, player, i, CountersAt(b, c, r, player, i - 1)) == CountersAt(b, c, r, player, i)
  {
    CounterStep(b, c, r, player, Horizontal, i);
    CounterStep(b, c, r, player, Vertical, i);
    CounterStep(b, c, r, player, SouthDiagonal, i);
    CounterStep(b, c, r, player, NorthDiagonal, i);
  }

  /** Some counter reaches 4 at an offset from `i` to 3. */
  predicate ReachesFour(b: Board, c: int, r: int, player: Cell, i: int)
    requires -4 <= i <= 4
    decreases 4 - i
  {
    i < 4 && (Largest(CountersAt(b, c, r, player, i)) >= 4 || ReachesFour(b, c, r, player, i + 1))
  }

  /**
   Scanning from offset `i`, with every counter below 4 so far, succeeds
   exactly when some counter reaches 4 later on. Counters grow by at most
   one per offset, so the first time one reaches 4 the largest counter is
   exactly 4.
   */
  lemma {:induction false} ScanFindsFour(b: Board, c: int, r: int, player: Cell, i: int)
    requires InBounds(b, c, r)
    requires -3 <= i <= 4
    requires Largest(CountersAt(b, c, r, player, i - 1)) <= 3
    ensures Scan(b, c, r, player, i, CountersAt(b, c, r, player, i - 1)) == ReachesFour(b, c, r, player, i)
    decreases 4 - i
  {
    if i < 4 {
      var k := CountersAt(b, c, r, player, i);
      AdvanceIsCounter(b, c, r, player, i);
      AdvanceGrowsByOne(b, c, r, player, i, CountersAt(b, c, r, player, i - 1));
      if Largest(k) != 4 {
        assert CountersAt(b, c, r, player, (i + 1) - 1) == k;
        ScanFindsFour(b, c, r, player, i + 1);
      }
    }
  }

  /** When `ReachesFour` holds, a direction and an offset whose counter is at least 4. */
  lemma {:induction false} FourFound(b: Board, c: int, r: int, player: Cell, i: int) returns (d: Direction, j: int)
    requires -4 <= i <= 4
    requires ReachesFour(b, c, r, player, i)
    ensures i <= j <= 3 && Counter(b, c, r, player, d, j) >= 4
    decreases 4 - i
  {
    var k := CountersAt(b, c, r, player, i);
    if Largest(k) >= 4 {
      j := i;
      if k.horizontal >= 4 {
        d := Horizontal;
      } else if k.vertical >= 4 {
        d := Vertical;
      } else if k.south >= 4 {
        d := SouthDiagonal;
      } else {
        d := NorthDiagonal;
      }
    } else {
      d, j := FourFound(b, c, r, player, i + 1);
    }
  }

  /** A counter at least 4 at an offset from `i` to 3 makes `ReachesFour` hold from `i`. */
  lemma {:induction false} FourReached(b: Board, c: int, r: int, player: Cell, d: Direction, i: int, j: int)
    requires -4 <= i <= j <= 3
    requires Counter(b, c, r, player, d, j) >= 4
    ensures ReachesFour(b, c, r, player, i)
    decreases j - i
  {
    if j == i {
      CounterAtMostLargest(b, c, r, player, d, i);
    } else {
      FourReached(b, c, r, player, d, i + 1, j);
    }
  }

  /** Each direction's counter is at most the largest one. */
  lemma CounterAtMostLargest(b: Board, c: int, r: int, player: Cell, d: Direction, i: int)
    requires -4 <= i
    ensures Counter(b, c, r, player, d, i) <= Largest(CountersAt(b, c, r, player, i))
  {
    match d
    case Horizontal =>
    case Vertical =>
    case SouthDiagonal =>
    case NorthDiagonal =>
  }

  /** No counter grows by more than one per offset, so neither does the largest. */
  lemma AdvanceGrowsByOne(b: Board, c: int, r: int, player: Cell, i: int, k: Counters)
    requires InBounds(b, c, r)
    ensures Largest(Advance(b, c, r, player, i, k)) <= Largest(k) + 1
  {
  }

  /** A passing victory test has found four in a row through the cell. */
  lemma VictoryIsConnected(b: Board, c: int, r: int)
    requires InBounds(b, c, r)
    requires CheckVictory(b, c, r)
    ensures Connected(b, c, r)
  {
    var p := b[c][r];
    ScanFindsFour(b, c, r, p, -3);
    var d, j := FourFound(b, c, r, p, -3);
    CounterFromRange(b, c, r, p, d, j);
    var k :| -3 <= k <= j && InRange(b, c, r, d, k) && Counter(b, c, r, p, d, k) == Counter(b, c, r, p, d, j);
    CounterIsRunLength(b, c, r, p, d, k);
    RunLengthMeaning(b, c, r, p, d, k, 4);
    assert RunAt(b, c, r, p, d, k - 3);
  }

  /** Four in a row through the cell make the victory test pass. */
  lemma ConnectedIsVictory(b: Board, c: int, r: int)
    requires InBounds(b, c, r)
    requires Connected(b, c, r)
    ensures CheckVictory(b, c, r)
  {
    var p := b[c][r];
    var d: Direction, s :| -3 <= s <= 0 && RunAt(b, c, r, p, d, s);
    RunLengthMeaning(b, c, r, p, d, s + 3, 4);
    assert Hit(b, c, r, p, d, s + 3);
    CounterIsRunLength(b, c, r, p, d, s + 3);
    FourReached(b, c, r, p, d, -3, s + 3);
    ScanFindsFour(b, c, r, p, -3);
  }

  /** The victory test passes exactly when there are four in a row through the cell. */
  lemma CheckVictoryMatchesRuns(b: Board, c: int, r: int)
    requires InBounds(b, c, r)
    ensures CheckVictory(b, c, r) <==> Connected(b, c, r)
  {
    if CheckVictory(b, c, r) {
      VictoryIsConnected(b, c, r);
    }
    if Connected(b, c, r) {
      ConnectedIsVictory(b, c, r);
    }
  }

  /**
   A step records the mover as the winner exactly when the landing cell
   completes four in a row; otherwise the winner is left as it was.
   */
  lemma StepWinner(s: State, col: int)
    requires 0 <= col < Width(s.board)
    ensures var row := Landing(s.board[col]);
      Step(s, col).winner == if Connected(Step(s, col).board, col, row) then Some(s.playerTurn) else s.winner
  {
    var row := Landing(s.board[col]);
    CheckVictoryMatchesRuns(Step(s, col).board, col, row);
  }

  /** Four hits from offset `s` along `d`, written out. */
  predicate Four(b: Board, c: int, r: int, player: Cell, d: Direction, s: int) {
    Hit(b, c, r, player, d, s) && Hit(b, c, r, player, d, s + 1) && Hit(b, c, r, player, d, s + 2) && Hit(b, c, r, player, d, s + 3)
  }

  /**
   Two misses along `d`, one before the cell and one after it, at most four
   apart, leave no room for four in a row along `d` through the cell.
   */
  lemma NoRunAlong(b: Board, c: int, r: int, player: Cell, d: Direction, i: int, j: int)
    requires -3 <= i < 0 < j <= 3 && j - i <= 4
    requires !Hit(b, c, r, player, d, i) && !Hit(b, c, r, player, d, j)
    ensures forall s | -3 <= s <= 0 :: !RunAt(b, c, r, player, d, s)
  {
    forall s | -3 <= s <= 0
      ensures !RunAt(b, c, r, player, d, s)
    {
      if s <= i {
        assert !Hit(b, c, r, player, d, i);
      } else {
        assert !Hit(b, c, r, player, d, j);
      }
    }
  }

  /** With no run along any of the four directions, there is no four in a row. */
  lemma NotConnected(b: Board, c: int, r: int)
    requires InBounds(b, c, r)
    requires forall s | -3 <= s <= 0 :: !RunAt(b, c, r, b[c][r], Horizontal, s)
    requires forall s | -3 <= s <= 0 :: !RunAt(b, c, r, b[c][r], Vertical, s)
    requires forall s | -3 <= s <= 0 :: !RunAt(b, c, r, b[c][r], SouthDiagonal, s)
    requires forall s | -3 <= s <= 0 :: !RunAt(b, c, r, b[c][r], NorthDiagonal, s)
    ensures !Connected(b, c, r)
  {
    forall d: Direction, s | -3 <= s <= 0
      ensures !RunAt(b, c, r, b[c][r], d, s)
    {
      match d
      case Horizontal =>
      case Vertical =>
      case SouthDiagonal =>
      case NorthDiagonal =>
    }
  }

  /** Four hits along a line through the cell are four in a row. */
  lemma FourConnects(b: Board, c: int, r: int, d: Direction, s: int)
    requires InBounds(b, c, r)
    requires -3 <= s <= 0
    requires Four(b, c, r, b[c][r], d, s)
    ensures Connected(b, c, r)
  {
    assert RunAt(b, c, r, b[c][r], d, s);
  }

  /** The lowest empty cell is where a piece lands. */
  lemma LandsOnLowestEmpty(col: seq<Cell>, row: int)
    requires LowestEmpty(col, row)
    ensures Landing(col) == row
  {
  }

  /** The state a step produces, given where the piece lands and the outcome of the victory test. */
  lemma StepResult(s: State, col: int, row: int, board: Board, won: bool)
    requires 0 <= col < Width(s.board)
    requires row == Landing(s.board[col])
    requires var column: seq<Cell> := s.board[col][row := s.playerTurn]; board == s.board[col := column]
    requires won == CheckVictory(board, col, row)
    ensures Step(s, col) == State(Next(s.playerTurn), board, if won then Some(s.playerTurn) else s.winner)
  {
  }

  /** While nobody has won, every column with an empty cell is a legal move. */
  lemma OpenColumnIsAction(s: State, col: int)
    requires s.winner.None?
    requires 0 <= col < Width(s.board) && 0 in s.board[col]
    ensures col in Actions(s)
  {
  }

  /** While nobody has won, a board with an empty cell is not final. */
  lemma OpenColumnNotFinal(s: State, col: int)
    requires s.winner.None?
    requires 0 <= col < Width(s.board) && 0 in s.board[col]
    ensures Actions(s) != []
  {
    OpenColumnIsAction(s, col);
  }

  // ---------------------------------------------------------------------
  // Gravity, termination, equality
  // ---------------------------------------------------------------------

  /** Every column is a run of pieces followed only by empty cells. */
  ghost predicate Settled(b: Board) {
    forall c, i, j | 0 <= c < |b| && 0 <= i < j < |b[c]| :: b[c][i] == 0 ==> b[c][j] == 0
  }

  /** The empty board is settled. */
  lemma InitialSettled(width: nat, height: nat, first: Player)
    requires width > 0 && height > 0
    ensures Settled(Initialize(width, height, first).board)
  {
  }

  /**
   A step keeps every column settled: the piece lands on the lowest empty
   cell, and on a full column it replaces one piece by another.
   */
  lemma StepKeepsSettled(s: State, col: int)
    requires 0 <= col < Width(s.board)
    requires Settled(s.board)
    ensures Settled(Step(s, col).board)
  {
    var b, b' := s.board, Step(s, col).board;
    var row := Landing(b[col]);
    forall c, i, j | 0 <= c < |b'| && 0 <= i < j < |b'[c]| && b'[c][i] == 0
      ensures b'[c][j] == 0
    {
      if c == col {
        assert i != row && b[col][i] == 0;
        assert row < i;
      }
    }
  }

  /** The number of empty cells of a column. */
  function ZerosIn(col: seq<Cell>): nat {
    if |col| == 0 then 0 else (if col[0] == 0 then 1 else 0) + ZerosIn(col[1..])
  }

  /** The number of empty cells of a board. */
  function Zeros(b: seq<seq<Cell>>): nat {
    if |b| == 0 then 0 else ZerosIn(b[0]) + Zeros(b[1..])
  }

  /** Writing one cell changes the column's count by what it removes and adds. */
  lemma {:induction false} ZerosInUpdate(col: seq<Cell>, row: nat, v: Cell)
    requires row < |col|
    ensures ZerosIn(col[row := v]) == ZerosIn(col) - (if col[row] == 0 then 1 else 0) + (if v == 0 then 1 else 0)
  {
    if row == 0 {
      assert col[row := v][1..] == col[1..];
    } else {
      assert col[row := v][1..] == col[1..][row - 1 := v];
      ZerosInUpdate(col[1..], row - 1, v);
    }
  }

  /** Replacing one column changes the board's count by the difference of the columns' counts. */
  lemma {:induction false} ZerosUpdate(b: seq<seq<Cell>>, c: nat, col: seq<Cell>)
    requires c < |b|
    ensures Zeros(b[c := col]) == Zeros(b) - ZerosIn(b[c]) + ZerosIn(col)
  {
    if c == 0 {
      assert b[c := col][1..] == b[1..];
    } else {
      assert b[c := col][1..] == b[1..][c - 1 := col];
      ZerosUpdate(b[1..], c - 1, col);
    }
  }

  /** A piece dropped into a column with room fills exactly one empty cell. */
  lemma StepTakesOneZero(s: State, col: int)
    requires 0 <= col < Width(s.board)
    requires 0 in s.board[col]
    ensures Zeros(Step(s, col).board) == Zeros(s.board) - 1
  {
    var row := Landing(s.board[col]);
    var column: seq<Cell> := s.board[col][row := s.playerTurn];
    assert Step(s, col).board == s.board[col := column];
    ZerosInUpdate(s.board[col], row, s.playerTurn);
    ZerosUpdate(s.board, col, column);
  }

  /** Board equality as NumPy's `array_equal`: same shape, same cells. */
  predicate SameBoard(a: Board, b: Board) {
    && |a| == |b|
    && (forall c | 0 <= c < |a| :: |a[c]| == |b[c]|)
    && forall c, r | 0 <= c < |a| && 0 <= r < |a[c]| :: a[c][r] == b[c][r]
  }

  /** Two states are equal when turn, winner and board all agree. */
  predicate Equal(s: State, t: State) {
    s.playerTurn == t.playerTurn && s.winner == t.winner && SameBoard(s.board, t.board)
  }

  /** Equality of states is identity of the values: nothing is ignored. */
  lemma EqualIsIdentity(s: State, t: State)
    ensures Equal(s, t) <==> s == t
  {
    if Equal(s, t) {
      forall c | 0 <= c < |s.board|
        ensures s.board[c] == t.board[c]
      {
      }
    }
  }

  /**
   Connect four as the engine sees it: states filed by the whole state,
   ranked by their number of empty cells.
   */
  function AsGame(): Environment.Game<State, int, State> {
    Environment.Game(
      Actions,
      (s: State, col: int) requires 0 <= col < Width(s.board) => Step(s, col),
      (s: State) => s,
      (s: State) => Zeros(s.board))
  }

  /** Store keys agree exactly when states compare equal. */
  lemma KeyIsEquality(s: State, t: State)
    ensures AsGame().key(s) == AsGame().key(t) <==> Equal(s, t)
  {
    EqualIsIdentity(s, t);
  }

  /** Every play of connect four ends. */
  lemma GameTerminates()
    ensures Environment.Terminating(AsGame())
  {
    forall s, col | col in Actions(s)
      ensures 0 <= col < Width(s.board) && Zeros(Step(s, col).board) < Zeros(s.board)
    {
      StepTakesOneZero(s, col);
    }
  }
}
