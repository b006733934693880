# A Dafny model of the `mcts` game-playing engine

This project models the core of the `mcts` Python package in Dafny and proves properties of the model. The package has three parts:

- **The search engine** (`mcts/mcts.py`). It keeps two maps from a game state to its statistics: `counters` holds visit counts and `evals` holds evaluation entries. `search` runs a fixed number of iterations. Each iteration picks a uniformly random root action and plays uniformly random moves from its successor until a final state (`rollout`). It then evaluates that final state and credits every state of the playout (`update`). Finally it returns the root action whose successor has the greatest `estimate`, taking the first one on ties.
- **Tic-tac-toe** (`mcts/environments/tic_tac_toe.py`). The legal moves are the empty cells in row-major order. A step marks one cell, checks the moved cell's row, its column and both diagonals for a win, and hands the turn over. Two states are equal when their boards are.
- **Connect four** (`mcts/environments/connect_four.py`), on a board of any positive width and height, stored column by column. The legal moves are the columns that still hold an empty cell. A piece lands on the first minimum of its column. That is its lowest empty cell when the column has one; on a full column `np.argmin` picks the first cell holding the column's smallest player number and overwrites it. A sliding run counter over four directions looks for four in a row through the landing cell. Two states are equal when turn, winner and board all agree.

The tournament's evaluation function (`mcts/tournament.py`) is modelled too: 0 without a winner, 1 for a win and -1 for a loss. So are the winning move sequences of both games' tests.

## Layout

| file | module | contents |
|---|---|---|
| `wrappers.dfy` | `Wrappers` | `Option` |
| `players.dfy` | `Players` | player numbers 1 and 2, the turn toggle `p % 2 + 1`, the tournament evaluation |
| `environment.dfy` | `Environment` | the interface the engine sees: ordered actions, a pure step, the key under which the store files a state (Python's `__eq__`/`__hash__`), and a rank that legal steps lower |
| `randomness.dfy` | `Randomness` | the injected random choice |
| `value_store.dfy` | `ValueStore` | `counters`/`evals`, `Update`, `Estimate` |
| `mcts.dfy` | `Mcts` | `Rollout`, `ArgMax`, `Search` |
| `tic_tac_toe.dfy`, `tic_tac_toe_scenarios.dfy` | `TicTacToe`, `TicTacToeScenarios` | rules and test sequences |
| `connect_four.dfy`, `connect_four_scenarios.dfy` | `ConnectFour`, `ConnectFourScenarios` | rules and test sequences |

## How the code differs from textbook MCTS

The model follows the code.

- **No wall-clock timeout.** `search` runs a fixed `num_rollouts` iterations, 10000 by default.
- **No selection phase.** Every iteration starts with a uniformly random root action. The store is never consulted while playing.
- **Every playout state is credited**, from the root's successor to the final state. The root itself is never credited.
- **The entry is overwritten, not accumulated.** `update` writes `evals[s] = counters[s] + evaluation`, replacing the entry on every credit. An estimate is therefore `(n + latest evaluation) / n`, not a mean of evaluations. `ValueStore.Update` models this exactly. `ValueStore.SecondUpdateOverwrites` proves the consequence: after two credits of a fresh state the first evaluation is gone, and the estimate equals the mean of the two only when the first evaluation was 2.

## Model

| member | source | states |
|---|---|---|
| Players.Next | mcts/environments/tic_tac_toe.py:58 | the turn always passes to the other player (1 and 2 swap) |
| Players.Evaluation | mcts/tournament.py:44-49 | the result is 0 exactly when there is no winner, 1 exactly when `player` won, -1 exactly when the other player won |
| Environment.IsFinal | mcts/environment.py:7-9 | `is_final` as written: a state is final exactly when no action is legal in it |
| Randomness.Choice | mcts/mcts.py:16 | a random choice returns a member of the list and uses up exactly one draw |
| ValueStore.Empty | mcts/mcts.py:8-9 | a new engine's store is well formed and every state has zero visits |
| ValueStore.Estimate | mcts/mcts.py:40-43 | the estimate is the unknown sentinel exactly for states never credited |
| ValueStore.Credit | mcts/mcts.py:37-38 | one pass of the loop: one more visit for `s`, its entry replaced by the new count plus the evaluation, every other state's count and entry unchanged |
| ValueStore.Update | mcts/mcts.py:35-38 | each state's count rises by the number of times it occurs in the list; each listed state's entry is its final count plus the evaluation; unlisted states keep their entries; the key sets grow exactly by the listed states; every counted state has a count of at least 1 and an entry, so `Estimate` never divides by zero |
| ValueStore.UpdateKeys | mcts/mcts.py:36-38 | nothing is removed: the keys after an update are the old keys plus the listed states |
| ValueStore.EstimateAfterUpdate | mcts/mcts.py:35-43 | after an update, a listed state's estimate is (n + evaluation) / n, where n is its new count |
| ValueStore.FirstUpdate | mcts/mcts.py:35-43 | the first credit of a fresh state with value v makes its estimate 1 + v |
| ValueStore.SecondUpdateOverwrites | mcts/mcts.py:38 | after two credits of a fresh state, the estimate is (2 + v2) / 2 whatever v1 was; it is the mean of v1 and v2 exactly when v1 = 2 |
| Mcts.NewEngine | mcts/mcts.py:7-11 | an engine built without an iteration count keeps the given game and evaluation function, runs 10000 iterations and starts with an empty store |
| Mcts.Rollout | mcts/mcts.py:27-33 | on a game whose legal steps lower a rank, a playout: it is non-empty and starts at `s`; each state follows the previous one by a legal action; the last state is final; it has at most rank(s) + 1 states; it uses one draw per move |
| Mcts.ArgMax | mcts/mcts.py:24 | the index of a greatest estimate, with no earlier index as great, where unknown ranks below every known value |
| Mcts.FirstMaxUnique | mcts/mcts.py:24 | the first greatest index is unique, so the chosen action is determined by the estimates |
| Mcts.ArgMaxAllUnknown | mcts/mcts.py:22-25 | when no successor has an estimate, the first action wins |
| Mcts.SuccessorValues | mcts/mcts.py:22-23 | one estimate per root action, in action order; each is known exactly when that successor has been credited |
| Mcts.Search | mcts/mcts.py:13-25 | on a non-final root: exactly `num_rollouts` playouts are returned, each a legal play from the successor of a root action to a final state; the new store is the old one updated with each playout in turn, crediting its states with the evaluation of its final state; the result is the first root action whose successor has the greatest estimate in that store; counts never decrease; after at least one iteration some successor has a known estimate |
| Mcts.Iteration | mcts/mcts.py:16-20 | one iteration: a legal play from the successor of a root action to a final state, and the store updated with that play's states and its final state's evaluation; that successor is now credited |
| Mcts.CreditTouchesOnlyPlay | mcts/mcts.py:35-38 | crediting a playout gives every state on it one more visit and a known estimate; every state not on it keeps its count and its estimate |
| Mcts.Replay | mcts/mcts.py:15-20 | crediting a list of playouts in order keeps the store well formed and never lowers a count |
| Mcts.BestAction | mcts/mcts.py:22-25 | the root action at the first index of a greatest successor estimate |
| Mcts.VisitedIsKnown | mcts/mcts.py:22-23 | a credited successor has a known estimate, so it outranks every never-credited one |
| TicTacToe.Initialize | mcts/environments/tic_tac_toe.py:98-105 | the opening board is all empty, the given player moves first, and there is no winner |
| TicTacToe.EmptiesFrom | mcts/environments/tic_tac_toe.py:29-34 | the list holds exactly the empty cells, in strictly increasing row-major order |
| TicTacToe.Actions | mcts/environments/tic_tac_toe.py:24-35 | once somebody has won there are no moves; otherwise the moves are exactly the empty cells, in row-major order |
| TicTacToe.EmptyCellIsAction | mcts/environments/tic_tac_toe.py:29-35 | while nobody has won, every empty cell is a legal move |
| TicTacToe.FullBoardIsFinal | mcts/environments/tic_tac_toe.py:24-35 | a full board with no winner has no moves, so it is final |
| TicTacToe.CheckVictory | mcts/environments/tic_tac_toe.py:60-68 | `check_victory` as written: the moved cell's column, its row, or either diagonal holds only the mover's marks; a passing test always has the mover's mark on the moved cell or the centre. `CheckVictoryMatchesLines` relates it to the table of eight lines |
| TicTacToe.VictoryHasLine | mcts/environments/tic_tac_toe.py:60-68 | a passing victory test names a completed line from the table of eight lines |
| TicTacToe.LineGivesVictory | mcts/environments/tic_tac_toe.py:60-68 | a completed line through the moved cell, or a completed diagonal, passes the victory test |
| TicTacToe.CheckVictoryMatchesLines | mcts/environments/tic_tac_toe.py:60-68 | the victory test passes if and only if the mover owns a line through the moved cell or a diagonal |
| TicTacToe.Step | mcts/environments/tic_tac_toe.py:37-58 | the moved cell gets the mover's mark, every other cell is unchanged, and the turn passes to the other player |
| TicTacToe.StepWinner | mcts/environments/tic_tac_toe.py:56-57 | the mover becomes the winner if they own a line through the moved cell or a diagonal after the mark; otherwise the winner is unchanged |
| TicTacToe.StepTakesOneEmpty | mcts/environments/tic_tac_toe.py:47-55 | marking an empty cell, which is what every legal move does, reduces the number of empty cells by exactly one |
| TicTacToe.Equal | mcts/environments/tic_tac_toe.py:75-76 | `__eq__` as written: boards are compared, turn and winner are not. `EqualIgnoresTurnAndWinner` and `KeyIsEquality` state its consequences |
| TicTacToe.EqualIgnoresTurnAndWinner | mcts/environments/tic_tac_toe.py:75-76 | states that differ only in turn and winner are equal |
| TicTacToe.KeyIsEquality | mcts/environments/tic_tac_toe.py:70-76 | two states share a store entry exactly when they compare equal |
| TicTacToe.GameTerminates | mcts/environments/tic_tac_toe.py:24-58 | every legal move lowers the number of empty cells, so every playout ends |
| TicTacToeScenarios.ColumnWin | test/environments/tic_tac_toe_test.py:19-24 | the vertical test sequence stays non-final until its last move, which ends the game; this holds for either opening player |
| TicTacToeScenarios.RowWin | test/environments/tic_tac_toe_test.py:27-32 | the horizontal test sequence stays non-final until its last move, which ends the game |
| TicTacToeScenarios.MainDiagonalWin | test/environments/tic_tac_toe_test.py:36-41 | the north-diagonal test sequence stays non-final until its last move, which ends the game |
| TicTacToeScenarios.AntiDiagonalWin | test/environments/tic_tac_toe_test.py:44-49 | the south-diagonal test sequence stays non-final until its last move, which ends the game |
| ConnectFour.Initialize | mcts/environments/connect_four.py:103-108 | the opening board has the requested width and height, every cell is empty, the given player moves first, and there is no winner |
| ConnectFour.MinOf | mcts/environments/connect_four.py:33 | the minimum of a column is one of its cells and no cell is smaller |
| ConnectFour.OpenColumns | mcts/environments/connect_four.py:33-34 | the list holds exactly the columns that contain an empty cell, in strictly increasing order |
| ConnectFour.Actions | mcts/environments/connect_four.py:28-34 | once somebody has won there are no moves; otherwise the moves are exactly the columns holding an empty cell, in ascending order |
| ConnectFour.Landing | mcts/environments/connect_four.py:45 | the landing row is the first position of the column's smallest value, which is the lowest empty cell when the column has one |
| ConnectFour.LandsOnLowestEmpty | mcts/environments/connect_four.py:45 | a piece lands on the lowest empty cell |
| ConnectFour.Step | mcts/environments/connect_four.py:36-49 | the board keeps its shape; exactly the landing cell of the column changes, to the mover's mark; the turn passes to the other player; a winner is never cleared |
| ConnectFour.Advance | mcts/environments/connect_four.py:61-69 | one pass of the scan loop as written: each of the four run counters whose cell is on the board goes up by one on a match and drops to zero otherwise; a counter whose cell is off the board keeps its value |
| ConnectFour.Scan | mcts/environments/connect_four.py:61-73 | the scan loop as written, from offset -3 to 3, stopping with success once the largest counter is 4. `ScanFindsFour` states when it succeeds |
| ConnectFour.CheckVictory | mcts/environments/connect_four.py:51-73 | `check_victory` as written: the scan around the landing cell for that cell's value, from zeroed counters. `CheckVictoryMatchesRuns` proves it equivalent to four in a row through the landing cell |
| ConnectFour.ScanFindsFour | mcts/environments/connect_four.py:61-73 | the scan from an offset stops with success exactly when some direction's run counter reaches four at that offset or a later one |
| ConnectFour.VictoryIsConnected | mcts/environments/connect_four.py:51-73 | a passing victory test implies four cells in a row on the board, through the landing cell, holding its value |
| ConnectFour.ConnectedIsVictory | mcts/environments/connect_four.py:51-73 | four cells in a row on the board through the landing cell, holding its value, make the victory test pass |
| ConnectFour.CheckVictoryMatchesRuns | mcts/environments/connect_four.py:51-73 | the victory test passes if and only if there are four in a row, horizontally, vertically or on either diagonal, through the landing cell |
| ConnectFour.StepWinner | mcts/environments/connect_four.py:47-48 | the mover becomes the winner exactly when the landing cell completes four in a row; otherwise the winner is unchanged |
| ConnectFour.InitialSettled | mcts/environments/connect_four.py:103-108 | the opening board satisfies the gravity invariant |
| ConnectFour.StepKeepsSettled | mcts/environments/connect_four.py:45-46 | a step keeps every column a run of pieces followed only by empty cells |
| ConnectFour.StepTakesOneZero | mcts/environments/connect_four.py:45-46 | a piece dropped into a column with room reduces the number of empty cells by exactly one |
| ConnectFour.Equal | mcts/environments/connect_four.py:80-85 | `__eq__` as written: same turn, same winner, and boards equal in the sense of `np.array_equal`. `EqualIsIdentity` proves this is value equality |
| ConnectFour.EqualIsIdentity | mcts/environments/connect_four.py:80-85 | states are equal exactly when turn, winner and every board cell agree, so equality is identity |
| ConnectFour.KeyIsEquality | mcts/environments/connect_four.py:75-85 | two states share a store entry exactly when they compare equal |
| ConnectFour.GameTerminates | mcts/environments/connect_four.py:28-49 | every legal move is a column on the board and lowers the number of empty cells, so every playout ends |
| ConnectFourScenarios.VerticalWin | test/environments/connect_four_test.py:19-24 | on a 7x6 board, the vertical test sequence stays non-final until its last move, which ends the game; this holds for either opening player |
| ConnectFourScenarios.HorizontalWin | test/environments/connect_four_test.py:27-32 | the horizontal test sequence stays non-final until its last move, which ends the game |
| ConnectFourScenarios.NorthDiagonalWin | test/environments/connect_four_test.py:35-40 | the north-diagonal test sequence stays non-final until its last move, which ends the game |
| ConnectFourScenarios.SouthDiagonalWin | test/environments/connect_four_test.py:43-48 | the south-diagonal test sequence stays non-final until its last move, which ends the game |

## Left out

- Randomness: `random.choice` is replaced by an injected stream of draws (`Randomness.Rng`). The k-th choice among n candidates takes draw k modulo n. Uniformity is not modelled. The random opening player of both `initialize` methods is a parameter.
- Floating point: evaluations and estimates are exact reals. Connect four's `float32` cells are the integers 0, 1 and 2. The `-inf` sentinel is the `Unknown` estimate.
- Mutation: the store is threaded through `Mcts.Search` as a value instead of living on the engine object. States are immutable values, so "the receiver is left unchanged" holds by construction and is not stated as a contract.
- `__hash__` and `__str__` of both games: only equality is modelled, as the key under which the store files a state.
- The agents, the tournament loop, argument parsing and printing.
- Mcts.Rollout: requires a game whose legal steps lower a rank. The Python code simply loops, and would not end on a game without such a measure.
- Mcts.Search: requires a root with at least one legal action. The Python code raises on an empty action list: at `random.choice`, or at `np.argmax` when there are no iterations.
- Mcts.Search: says that each returned playout is a legal play from a successor of a root action, but not which one the draws select. The draws only stand in for the random generator, whose outcomes are not part of the contract.
- TicTacToe.Step: positions are limited to rows and columns 0 to 2. The Python code accepts negative indices through Python's indexing from the end.
- ConnectFour.Step: requires a column on the board. The Python code raises past the last column and wraps negative columns around through NumPy indexing.
- ConnectFour.Initialize: requires a positive width and height. For a zero size the Python code builds an empty array; its move list is then empty for zero width and raises for zero height.
- Players.Evaluation: takes the state's winner rather than the state. It is the same function of the state, since the Python code reads nothing else.
- Search quality, for example that search completes an open line in tic-tac-toe given enough iterations: this depends on the probabilities of the random playouts and is not modelled.
