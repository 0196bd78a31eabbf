/** The 3×3×3 board of the gravity "connect three" game and the values built on it.

    A board is the source's `data[x][y][z]`: `x` and `y` pick one of the nine
    columns and `z` is the height.  Here its 27 cells are kept flat, cell
    (x, y, z) at position `Idx(x, y, z) = x + 3y + 9z`, which is also the
    exponent the state encoding gives that cell.  A cell holds 0 (empty) or
    1 / 2 (the two players). */
module Grid {

  datatype Option<T> = None | Some(value: T)

  /** Flat position of cell (x, y, z). */
  function Idx(x: nat, y: nat, z: nat): (i: nat)
    requires x < 3 && y < 3 && z < 3
    ensures i < 27
  {
    x + 3 * y + 9 * z
  }

  /** Every flat position is the position of exactly the cell its base-3 digits name. */
  lemma Coords(i: nat)
    requires i < 27
    ensures i % 3 < 3 && (i / 3) % 3 < 3 && i / 9 < 3
    ensures Idx(i % 3, (i / 3) % 3, i / 9) == i
  {
    assert i == 3 * (i / 3) + i % 3;
    assert i / 3 == 3 * (i / 9) + (i / 3) % 3;
  }

  datatype Board = Board(cells: seq<int>)
  {
    predicate WellFormed()
    {
      |cells| == 27
    }

    /** The source's `data[x][y][z]`, the cell at position `Idx(x, y, z)`. */
    function Cell(x: nat, y: nat, z: nat): int
      requires WellFormed() && x < 3 && y < 3 && z < 3
    {
      cells[x + 3 * y + 9 * z]
    }
  }

  /** A board and the player to move (the source's `Game`). */
  datatype Game = Game(board: Board, player: int)

  /** `make_new_board`: every cell empty. */
  function EmptyBoard(): (b: Board)
    ensures b.WellFormed()
    ensures forall i :: 0 <= i < 27 ==> b.cells[i] == 0
  {
    Board(seq(27, _ => 0))
  }

  /** Every cell is empty or holds one of the two players. */
  predicate CellsInRange(b: Board)
  {
    forall i :: 0 <= i < |b.cells| ==> 0 <= b.cells[i] <= 2
  }

  /** In column (x, y) no piece rests on an empty cell. */
  predicate Settled(b: Board, x: nat, y: nat)
    requires b.WellFormed() && x < 3 && y < 3
  {
    (b.Cell(x, y, 1) != 0 ==> b.Cell(x, y, 0) != 0) &&
    (b.Cell(x, y, 2) != 0 ==> b.Cell(x, y, 1) != 0)
  }

  /** The gravity invariant: in every column the pieces form a run from the floor. */
  predicate Gravity(b: Board)
    requires b.WellFormed()
  {
    forall x: nat, y: nat :: x < 3 && y < 3 ==> Settled(b, x, y)
  }

  /** `switch_player`: player 1 hands over to 2, and every other value to 1. */
  function SwitchPlayer(player: int): (next: int)
    ensures next == 1 || next == 2
    ensures player == 1 || player == 2 ==> next != player
    ensures player != 1 ==> next == 1
  {
    if player == 1 then 2 else 1
  }

  /** On the two real players, switching twice gives the player back. */
  lemma SwitchPlayerAlternates(player: int)
    requires player == 1 || player == 2
    ensures SwitchPlayer(SwitchPlayer(player)) == player
  {
  }

  /** Cells visited so far in the loop order x, y, z keep the board's value; the rest hold `filler`. */
  ghost predicate VisitedPrefix(part: seq<int>, cells: seq<int>, x: nat, y: nat, z: nat, filler: int)
  {
    |part| == 27 && |cells| == 27 &&
    forall a: nat, b: nat, c: nat {:trigger Idx(a, b, c)} :: a < 3 && b < 3 && c < 3 ==>
      part[Idx(a, b, c)] == if a < x || (a == x && (b < y || (b == y && c < z))) then cells[Idx(a, b, c)] else filler
  }

  /** Once every cell has been visited the partial copy is the whole board. */
  lemma VisitedAll(part: seq<int>, cells: seq<int>, filler: int)
    requires VisitedPrefix(part, cells, 3, 0, 0, filler)
    ensures part == cells
  {
    forall i | 0 <= i < 27 ensures part[i] == cells[i] {
      Coords(i);
    }
  }

  /** Visiting cell (x, y, z) extends the visited prefix by that cell. */
  lemma VisitNext(part: seq<int>, cells: seq<int>, x: nat, y: nat, z: nat, filler: int)
    requires x < 3 && y < 3 && z < 3
    requires VisitedPrefix(part, cells, x, y, z, filler)
    ensures VisitedPrefix(part[Idx(x, y, z) := cells[Idx(x, y, z)]], cells, x, y, z + 1, filler)
  {
  }
}
