# 3×3×3 gravity connect-three: rules, state codec and enumerator step

This project models the game-rules and state-encoding core of a solver for
"connect three" on a 3×3×3 board with gravity, as written in `src/main.rs`.
Two players drop pieces into one of nine columns. A piece falls to the lowest
empty cell of its column. Three equal pieces in a line win. It then proves
properties of that model.

- `grid.dfy` (module `Grid`): the board `data[x][y][z]`, kept as 27 flat
  cells with cell (x, y, z) at `x + 3y + 9z`. Also the game (a board and the
  player to move), the empty board, `switch_player`, and the gravity
  invariant (no piece above an empty cell).
- `moves.dfy` (module `Moves`): `get_top`, the in-place `place_new_piece` on
  an array of 27 cells, `get_all_next_states` with its nested column loops,
  and `_get_num_open_spaces`.
- `lines.dfy` (module `Lines`): the recursive walk `check_win_direction` and
  `is_over` with its fixed probes. It also has a corrected `is_over` that
  probes all 49 lines.
- `codec.dfy` (module `Codec`): `board_to_number`, a base-3 number with cell
  (x, y, z) weighted 3^(x+3y+9z). Also `_number_to_board` as written, and
  with its middle index corrected. Rust's truncating `%` and `/` on `i64`
  are written out.
- `enumerator.dfy` (module `Enumerator`): one step of the `_generate` worker.
  A game is received from the work queue (`src/main.rs:290`); only then does
  the worker take the seen-set lock, which it holds through the expansion
  (`src/main.rs:292-309`). Unless `is_over` reports the game finished, each
  successor whose state number is not yet in the seen-set is reported as an
  edge, inserted into the seen-set and queued. The step is modelled as one
  sequential update of class `Explorer` that dequeues the front game and
  expands it. The step uses `is_over` as written, so a game won only on
  a face anti-diagonal is still expanded (`Enumerator.AntiDiagonalGameExpanded`).

The game's design and the code differ in three places, and the model follows
the code:
- By design the player to move follows from the number of pieces on the
  board. `_number_to_board` always sets player 1 (`src/main.rs:222`).
- By design a full board ends the game. `is_over` looks only for lines
  (`Lines.IsOverChecks` has no fullness term). A full board simply has no
  successors (`Moves.FullBoardHasNoSuccessors`).
- By design all 49 lines of the cube win. The code probes 40 of them (see
  Findings).

## Model

| member | source | states |
|---|---|---|
| Grid.EmptyBoard | src/main.rs:32-36 | the new board has 27 cells, all empty |
| Grid.SwitchPlayer | src/main.rs:38-44 | the result is always 1 or 2: player 1 hands over to 2, and every other value, player 2 included, to 1 |
| Grid.SwitchPlayerAlternates | src/main.rs:38-44 | on players 1 and 2, switching twice gives the player back |
| Moves.GetTop | src/main.rs:46-53 | `Some(h)`: cell h of the column is empty and every cell below it is occupied; `None` exactly when all three cells are occupied |
| Moves.PlaceNewPiece | src/main.rs:55-62 | returns the column's top; if there is one, exactly that cell of the array now holds `player`; if the column is full, the array is unchanged |
| Moves.PlaceWrites | src/main.rs:55-62 | placing into a column with room writes `player` into its empty top cell and changes nothing else |
| Moves.GetAllNextStates | src/main.rs:64-76 | the output is the successor list: one board per open column, in x-outer, y-inner order |
| Moves.DropIntoCopy | src/main.rs:68-69 | cloning the board and calling `place_new_piece` on the clone returns the column's top, and, when there is room, the board `Place` describes |
| Moves.OpenColumnsSpec | src/main.rs:64-76 | the open columns are at most 9, strictly increasing, and are exactly the columns where `get_top` finds room |
| Moves.SuccessorsByColumn | src/main.rs:64-76 | there are as many successors as open columns, and the k-th successor is the drop into the k-th open column |
| Moves.SuccessorIsPlace | src/main.rs:64-76 | every successor is the drop of `player` into some open column |
| Moves.SuccessorChangesOneCell | src/main.rs:64-76 | every successor differs from the board in exactly one formerly empty cell, which now holds `player` |
| Moves.SuccessorKeepsGravity | src/main.rs:64-76 | successors of a board with no floating piece have no floating piece |
| Moves.SuccessorKeepsCellsInRange | src/main.rs:64-76 | with player 1 or 2, successors of a board with cells in {0, 1, 2} keep cells in {0, 1, 2} |
| Moves.SuccessorOpenCount | src/main.rs:132-144 | every successor has exactly one empty cell fewer than the board, as `_get_num_open_spaces` counts |
| Moves.FullBoardHasNoSuccessors | src/main.rs:64-76 | a board with no empty cell has no successors |
| Moves.GetNumOpenSpaces | src/main.rs:132-144 | the nested loops return the number of empty cells of the board |
| Moves.ZeroCountNone | src/main.rs:132-144 | the empty-cell count is 0 exactly when every cell is occupied |
| Lines.CheckWinDirection | src/main.rs:78-130 | the recursive walk as written, for `left` in 0..3 and no coordinate equal to 3 while steps remain: a walk that succeeds stands on a cell inside the cube holding a piece, and after the first step that piece is `last`; its full meaning is stated by `Lines.WalkThreeSteps` |
| Lines.IsOver | src/main.rs:146-205 | the 49 probes as written: a board without pieces is never over; which lines it detects is stated by `Lines.IsOverChecks` |
| Lines.IsOverAllLines | src/main.rs:146-205 | the corrected test, with the face anti-diagonals probed: a board without pieces is never over; which lines it detects is stated by `Lines.IsOverAllLinesChecks` |
| Lines.WalkThreeSteps | src/main.rs:78-130 | with `left` = 3 the walk is true iff s, s+d and s+2d are cells holding one and the same non-zero piece, whatever `last` is |
| Lines.WalkTwoSteps | src/main.rs:78-130 | with `left` = 2 the walk is true iff this cell and the next hold the non-zero `last` |
| Lines.WalkLastStep | src/main.rs:78-130 | with `left` = 1 the walk is true iff this cell holds the non-zero `last` |
| Lines.ProbeMeaning | src/main.rs:146-205 | a probe `check_win_direction(g, s, d, 3, -1)` on a line of the cube is true iff that line holds three equal pieces |
| Lines.IsOverChecks | src/main.rs:146-205 | `is_over` holds iff some line other than a face anti-diagonal holds three equal pieces |
| Lines.ReversedProbesRepeat | src/main.rs:168-191 | the probes at lines 172, 180 and 188 return exactly what the probes at 169, 177 and 185 return |
| Lines.ReverseProbe | src/main.rs:78-130 | walking a line from its far end gives the same answer as walking it from its start |
| Lines.ColumnLineDetected | src/main.rs:161-167 | a column of three equal pieces makes `is_over` true |
| Lines.AntiDiagonalMissed | src/main.rs:168-191 | a gravity-valid board with an anti-diagonal of player 1 is not over by `is_over`, but is over by the corrected test |
| Lines.IsOverAllLinesChecks | src/main.rs:146-205 | the corrected test holds iff some line of the cube holds three equal pieces |
| Codec.BoardToNumber | src/main.rs:207-217 | the nested loops return the base-3 value of the cells |
| Codec.ValueIsPositionalSum | src/main.rs:207-217 | that value is the sum of cell i times 3^i |
| Codec.EncodeRange | src/main.rs:207-217 | for cells in {0, 1, 2} the number lies in [0, 3^27), and 3^27 is below 2^63 |
| Codec.EncodeInjective | src/main.rs:207-217 | two boards with cells in {0, 1, 2} and the same number are equal |
| Codec.EncodePlace | src/main.rs:207-217 | putting `player` on the empty cell (x, y, z) adds exactly player·3^(x+3y+9z) |
| Codec.EncodeZeroExactlyEmpty | src/main.rs:207-217 | for cells in {0, 1, 2} the number is 0 exactly for the empty board |
| Codec.TruncatedStep | src/main.rs:225-227 | for a non-negative number, the written digit is `num % 3` in {0, 1, 2}, and `num -= num % 3; num /= 3` is `num / 3` |
| Codec.NegativeNumberGivesNegativeCell | src/main.rs:225-227 | a negative number not divisible by 3 gives a negative first cell; nothing rejects it |
| Codec.NumberToBoardAsWritten | src/main.rs:219-230 | the decoder as written stops with index 3 out of bounds at power 9, whatever the input |
| Codec.NumberToBoard | src/main.rs:219-230 | the corrected decoder writes the 27 truncated base-3 digits of the number into cells 0..26 and sets player 1 |
| Codec.DecodeDigit | src/main.rs:224-228 | one pass of the corrected loop extends the decoded prefix by digit `power` and leaves the number the next pass decodes |
| Codec.DigitsOfValue | src/main.rs:219-230 | decoding the value of digits in {0, 1, 2} gives those digits back |
| Codec.ValueOfDigits | src/main.rs:219-230 | a number in [0, 3^k) is the value of its k decoded digits, which are all in {0, 1, 2} |
| Codec.DecodeEncode | src/main.rs:219-230 | decoding the number of a board with cells in {0, 1, 2} gives back that board |
| Codec.EncodeDecode | src/main.rs:219-230 | encoding the decoded board of a number in [0, 3^27) gives back that number |
| Enumerator.ExpandFromFacts | src/main.rs:295-309 | the successor loop queues games with the other player to move, on boards from the list, each with the edge (state, successor); each has a number not seen before, no two share a number, the seen-set grows by exactly their numbers, and every listed board ends up seen |
| Enumerator.TerminalExpandsNothing | src/main.rs:294 | a finished game queues nothing, reports nothing and leaves the seen-set unchanged |
| Enumerator.ExpansionSeesAllSuccessors | src/main.rs:294-309 | for a running game the seen-set only grows, and every successor's number ends up in it |
| Enumerator.ExpansionQueuesFreshSuccessors | src/main.rs:294-309 | every queued game is a successor with the other player to move whose number was unseen, and no number is queued twice |
| Enumerator.RunningGameExpands | src/main.rs:294-309 | a game `is_over` does not report finished, with a column that has room, queues at least one game when nothing is seen yet |
| Enumerator.AntiDiagonalGameExpanded | src/main.rs:294-309 | the game won by player 1 on a floor anti-diagonal, player 2 to move, is expanded with an empty seen-set, because `is_over` misses that line |
| Enumerator.SuccessorPlayable | src/main.rs:295-301 | a successor of a playable game, with the other player to move, is playable and has a non-zero number |
| Enumerator.Explorer.constructor | src/main.rs:274-281 | the queue holds only the empty board with player 1 to move; the seen-set and the edge list are empty |
| Enumerator.Explorer.RootNeverSeen | src/main.rs:278-281 | the root's number 0 is never in the seen-set |
| Enumerator.Explorer.Step | src/main.rs:289-312 | with an empty queue nothing changes; otherwise the front game is removed (the receive at :290) and expanded under the lock (:292-309), the seen-set only grows, and the invariant holds (no number queued twice, every queued game playable) |
| Enumerator.Explorer.Expand | src/main.rs:292-309 | seen-set, queue and edges become exactly what the expansion of the game prescribes |
| Enumerator.Explorer.QueueFresh | src/main.rs:295-309 | the loop over successors updates seen-set, queue and edges exactly as the inner loop prescribes |
| Enumerator.Explorer.AddFresh | src/main.rs:306-308 | a fresh number is inserted into the seen-set and its game is queued at the back, keeping the invariant |
| Enumerator.HistoryAppend | src/main.rs:306-308 | queuing a playable game whose number is fresh and non-zero keeps every queued number distinct and the seen-set equal to the numbers queued after the root |

## Left out

- `process()` and `main` (src/main.rs:232-271): file I/O with a fixed path, text parsing, parallel iteration, channels and serialization.
- The plumbing of `_generate`: thread spawning, `Arc<Mutex<…>>`, the crossbeam channels, the result-writer loop and its file writes. The result channel is the `edges` sequence. Concurrency is not modelled.
- `Pair` and the serde, bincode and graphlib imports: serialization only.
- A retrograde solver, best-move records and a lookup table are not in `src/main.rs`, so they are not part of this model.
- Machine widths: `i8` cells and coordinates and `i64` state numbers are unbounded integers here. `Codec.EncodeRange` shows that state numbers of boards with cells in {0, 1, 2} fit in `i64`.
- Enumerator.Explorer.Step: with several workers, the receive at `src/main.rs:290` happens before the lock at `src/main.rs:292`, so games can be expanded, and their edges reported, out of queue order. The model fixes first-in first-out order. The proved invariants (the seen-set only grows, no number is queued twice, every queued game is playable) do not depend on that order.
- Lines.CheckWinDirection: modelled only for `left` in 0..3, with no walk standing on coordinate 3 while steps remain. Every call in `is_over` meets this. The bound test lets 3 through to the array read, and any other `left` is never passed.
- Moves.PlaceNewPiece: the source clones the board before each call in `get_all_next_states`. The model allocates a fresh array per column, so aliasing does not arise.

## Findings

| source | as written | input that shows it | evidently intended | confidence | as-written member | corrected member |
|---|---|---|---|---|---|---|
| src/main.rs:225 | cell `[power % 3][power / 3][power / 9]` gets the digit; the middle index is `power / 3`, which reaches 3 at power 9 | any number, e.g. 0: the write at power 9 indexes `[0][3][1]` | `[power % 3][(power / 3) % 3][power / 9]`, the inverse of `board_to_number` | not executed | Codec.NumberToBoardAsWritten | Codec.NumberToBoard |
| src/main.rs:172 | the second probe of each face-diagonal loop (lines 172, 180, 188) walks the same line as the first, backwards; face anti-diagonals such as (x,0,2),(x,1,1),(x,2,0) are never probed, so 40 of the 49 lines are checked | player 1 on (2,0,0), (1,1,0), (0,2,0) and player 2 on (0,0,0), (2,2,0): `is_over` is false | probe the anti-diagonals from (x,2,0) along (0,-1,1), from (2,y,0) along (-1,0,1) and from (2,0,z) along (-1,1,0) | not executed | Lines.AntiDiagonalMissed | Lines.IsOverAllLinesChecks |
