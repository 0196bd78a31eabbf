/** Move generation: the top of a column, dropping a piece, the successor
    boards of a position and the count of empty cells. */
module Moves {
  import opened Grid

  /** The first empty height at or above `z` in column (x, y), scanning upwards. */
  function TopFrom(b: Board, x: nat, y: nat, z: nat): (r: Option<nat>)
    requires b.WellFormed() && x < 3 && y < 3 && z <= 3
    ensures r.Some? ==> z <= r.value < 3 && b.Cell(x, y, r.value) == 0
    ensures r.Some? ==> forall h: nat :: z <= h < r.value ==> b.Cell(x, y, h) != 0
    ensures r.None? <==> forall h: nat :: z <= h < 3 ==> b.Cell(x, y, h) != 0
    decreases 3 - z
  {
    if z == 3 then None
    else if b.Cell(x, y, z) == 0 then Some(z)
    else TopFrom(b, x, y, z + 1)
  }

  /** `get_top`: the lowest empty height of column (x, y), or None when the column is full. */
  function GetTop(b: Board, x: nat, y: nat): (r: Option<nat>)
    requires b.WellFormed() && x < 3 && y < 3
    ensures r.Some? ==> r.value < 3 && b.Cell(x, y, r.value) == 0
    ensures r.Some? ==> forall h: nat :: h < r.value ==> b.Cell(x, y, h) != 0
    ensures r.None? <==> forall h: nat :: h < 3 ==> b.Cell(x, y, h) != 0
  {
    TopFrom(b, x, y, 0)
  }

  /** The board `place_new_piece` leaves behind: `player` at the top of column (x, y),
      or the board unchanged when that column is full. */
  function Place(b: Board, x: nat, y: nat, player: int): (r: Board)
    requires b.WellFormed() && x < 3 && y < 3
    ensures r.WellFormed()
  {
    match GetTop(b, x, y)
    case Some(z) => Board(b.cells[Idx(x, y, z) := player])
    case None => b
  }

  /** `place_new_piece`: drops `player` into column (x, y) of the board in place and
      returns the height it landed at; a full column is left alone and None returned. */
  method PlaceNewPiece(g: array<int>, x: nat, y: nat, player: int) returns (z: Option<nat>)
    requires g.Length == 27 && x < 3 && y < 3
    modifies g
    ensures z == GetTop(Board(old(g[..])), x, y)
    ensures z.Some? ==> g[..] == old(g[..])[Idx(x, y, z.value) := player]
    ensures z.None? ==> g[..] == old(g[..])
  {
    z := GetTop(Board(g[..]), x, y);
    if z.Some? {
      g[Idx(x, y, z.value)] := player;
    }
  }

  /** Column number c (c < 9) is column (ColX(c), ColY(c)) = (c / 3, c % 3): the source's
      loops run x outer, y inner, so they visit the columns in increasing number. */
  function ColX(c: nat): (x: nat)
    requires c < 9
    ensures x < 3
  {
    if c < 3 then 0 else if c < 6 then 1 else 2
  }

  function ColY(c: nat): (y: nat)
    requires c < 9
    ensures y < 3 && c == 3 * ColX(c) + y
  {
    c - 3 * ColX(c)
  }

  predicate ColumnOpen(b: Board, c: nat)
    requires b.WellFormed() && c < 9
  {
    GetTop(b, ColX(c), ColY(c)).Some?
  }

  /** For each of the nine columns, whether it has room. */
  function OpenFlags(b: Board): (open: seq<bool>)
    requires b.WellFormed()
    ensures |open| == 9
  {
    seq(9, c requires 0 <= c < 9 => ColumnOpen(b, c))
  }

  /** The indices below n whose flag is set, in increasing order. */
  function Chosen(open: seq<bool>, n: nat): seq<nat>
    requires n <= |open|
  {
    if n == 0 then [] else Chosen(open, n - 1) + (if open[n - 1] then [n - 1] else [])
  }

  /** The open columns, in increasing order. */
  function OpenColumns(b: Board): seq<nat>
    requires b.WellFormed()
  {
    Chosen(OpenFlags(b), 9)
  }

  /** The successor boards contributed by the first n columns. */
  function SuccessorsUpTo(b: Board, player: int, n: nat): seq<Board>
    requires b.WellFormed() && n <= 9
  {
    if n == 0 then []
    else
      SuccessorsUpTo(b, player, n - 1)
      + (if ColumnOpen(b, n - 1) then [Place(b, ColX(n - 1), ColY(n - 1), player)] else [])
  }

  /** What `get_all_next_states` yields. */
  function Successors(b: Board, player: int): seq<Board>
    requires b.WellFormed()
  {
    SuccessorsUpTo(b, player, 9)
  }

  /** `get_all_next_states`: for each column in x-outer, y-inner order, a copy of the
      board with `player` dropped into it, skipping full columns. */
  method GetAllNextStates(g: Board, player: int) returns (output: seq<Board>)
    requires g.WellFormed()
    ensures output == Successors(g, player)
  {
    output := [];
    for x := 0 to 3
      invariant output == SuccessorsUpTo(g, player, 3 * x)
    {
      for y := 0 to 3
        invariant output == SuccessorsUpTo(g, player, 3 * x + y)
      {
        var worked, newBoard := DropIntoCopy(g, x, y, player);
        SuccessorsUpToNext(g, player, x, y, worked, newBoard);
        if worked.Some? {
          output := output + [newBoard];
        }
      }
    }
  }

  /** The body of the column loop in `get_all_next_states`: clone the board and call
      `place_new_piece` on the clone. */
  method DropIntoCopy(g: Board, x: nat, y: nat, player: int) returns (worked: Option<nat>, next: Board)
    requires g.WellFormed() && x < 3 && y < 3
    ensures worked == GetTop(g, x, y)
    ensures worked.Some? ==> next == Place(g, x, y, player)
  {
    var newBoard := new int[27](i requires 0 <= i < 27 => g.cells[i]);
    assert newBoard[..] == g.cells && Board(g.cells) == g;
    worked := PlaceNewPiece(newBoard, x, y, player);
    DropIsPlace(g, x, y, player, worked, newBoard[..]);
    next := Board(newBoard[..]);
  }

  /** What `place_new_piece` leaves in a copy of the board is `Place` of that board. */
  lemma DropIsPlace(g: Board, x: nat, y: nat, player: int, worked: Option<nat>, after: seq<int>)
    requires g.WellFormed() && x < 3 && y < 3
    requires worked == GetTop(g, x, y)
    requires worked.Some? ==> after == g.cells[Idx(x, y, worked.value) := player]
    ensures worked.Some? ==> Board(after) == Place(g, x, y, player)
  {
  }

  /** Column (x, y) is column number 3x + y: it adds the board left by the drop when the
      drop found room, and nothing otherwise. */
  lemma SuccessorsUpToNext(b: Board, player: int, x: nat, y: nat, worked: Option<nat>, after: Board)
    requires b.WellFormed() && x < 3 && y < 3
    requires worked == GetTop(b, x, y)
    requires worked.Some? ==> after == Place(b, x, y, player)
    ensures SuccessorsUpTo(b, player, 3 * x + (y + 1)) ==
            SuccessorsUpTo(b, player, 3 * x + y) + (if worked.Some? then [after] else [])
  {
    assert ColX(3 * x + y) == x && ColY(3 * x + y) == y;
  }

  /** The chosen indices are increasing, below n, and exactly the flagged ones. */
  lemma {:induction false} ChosenSpec(open: seq<bool>, n: nat)
    requires n <= |open|
    ensures |Chosen(open, n)| <= n
    ensures forall i, j :: 0 <= i < j < |Chosen(open, n)| ==> Chosen(open, n)[i] < Chosen(open, n)[j]
    ensures forall i :: 0 <= i < |Chosen(open, n)| ==> Chosen(open, n)[i] < n
    ensures forall c: nat :: c in Chosen(open, n) <==> c < n && open[c]
  {
    if n > 0 {
      ChosenSpec(open, n - 1);
    }
  }

  /** `get_all_next_states` yields at most nine boards, one per column with room,
      in increasing column order. */
  lemma OpenColumnsSpec(b: Board)
    requires b.WellFormed()
    ensures |OpenColumns(b)| <= 9
    ensures forall i, j :: 0 <= i < j < |OpenColumns(b)| ==> OpenColumns(b)[i] < OpenColumns(b)[j]
    ensures forall c: nat :: c in OpenColumns(b) <==> c < 9 && GetTop(b, ColX(c), ColY(c)).Some?
  {
    ChosenSpec(OpenFlags(b), 9);
  }

  lemma {:induction false} SuccessorsUpToByColumn(b: Board, player: int, n: nat)
    requires b.WellFormed() && n <= 9
    ensures |SuccessorsUpTo(b, player, n)| == |Chosen(OpenFlags(b), n)|
    ensures forall k :: 0 <= k < |SuccessorsUpTo(b, player, n)| ==>
      Chosen(OpenFlags(b), n)[k] < 9 &&
      SuccessorsUpTo(b, player, n)[k] == Place(b, ColX(Chosen(OpenFlags(b), n)[k]), ColY(Chosen(OpenFlags(b), n)[k]), player)
  {
    if n > 0 {
      SuccessorsUpToByColumn(b, player, n - 1);
      ChosenSpec(OpenFlags(b), n - 1);
      var open := ColumnOpen(b, n - 1);
      assert OpenFlags(b)[n - 1] == open;
      var prev, prevCols := SuccessorsUpTo(b, player, n - 1), Chosen(OpenFlags(b), n - 1);
      var succ, cols := SuccessorsUpTo(b, player, n), Chosen(OpenFlags(b), n);
      if open {
        var last := Place(b, ColX(n - 1), ColY(n - 1), player);
        assert succ == prev + [last];
        assert cols == prevCols + [n - 1];
      } else {
        assert succ == prev;
        assert cols == prevCols;
      }
    }
  }

  /** The k-th successor is the board with `player` dropped into the k-th open column. */
  lemma SuccessorsByColumn(b: Board, player: int)
    requires b.WellFormed()
    ensures |Successors(b, player)| == |OpenColumns(b)|
    ensures forall k :: 0 <= k < |Successors(b, player)| ==>
      OpenColumns(b)[k] < 9 &&
      Successors(b, player)[k] == Place(b, ColX(OpenColumns(b)[k]), ColY(OpenColumns(b)[k]), player)
  {
    SuccessorsUpToByColumn(b, player, 9);
  }

  /** A board with a column that has room has at least one successor. */
  lemma OpenColumnGivesSuccessor(b: Board, player: int, c: nat)
    requires b.WellFormed() && c < 9 && ColumnOpen(b, c)
    ensures Successors(b, player) != []
  {
    OpenColumnsSpec(b);
    SuccessorsByColumn(b, player);
    assert c in OpenColumns(b);
  }

  /** Every successor is the input with `player` dropped into some open column. */
  lemma SuccessorIsPlace(b: Board, player: int, s: Board)
    requires b.WellFormed() && s in Successors(b, player)
    ensures exists c: nat :: c < 9 && ColumnOpen(b, c) && s == Place(b, ColX(c), ColY(c), player)
  {
    SuccessorsByColumn(b, player);
    OpenColumnsSpec(b);
    var k :| 0 <= k < |Successors(b, player)| && Successors(b, player)[k] == s;
    var c := OpenColumns(b)[k];
    assert c in OpenColumns(b);
  }

  /** Dropping into a column with room writes `player` over the empty top cell. */
  lemma PlaceWrites(b: Board, x: nat, y: nat, player: int)
    requires b.WellFormed() && x < 3 && y < 3 && GetTop(b, x, y).Some?
    ensures var z := GetTop(b, x, y).value;
      b.cells[Idx(x, y, z)] == 0 && Place(b, x, y, player).cells == b.cells[Idx(x, y, z) := player]
  {
  }

  /** Each successor differs from the input in exactly one formerly empty cell, which now holds `player`. */
  lemma SuccessorChangesOneCell(b: Board, player: int, s: Board)
    requires b.WellFormed() && s in Successors(b, player)
    ensures s.WellFormed()
    ensures exists i :: 0 <= i < 27 && b.cells[i] == 0 && s.cells == b.cells[i := player]
  {
    SuccessorIsPlace(b, player, s);
    var c: nat :| c < 9 && ColumnOpen(b, c) && s == Place(b, ColX(c), ColY(c), player);
    PlaceWrites(b, ColX(c), ColY(c), player);
  }

  /** On a gravity-respecting board every cell above the top of a column is empty. */
  lemma AboveTopEmpty(b: Board, x: nat, y: nat)
    requires b.WellFormed() && x < 3 && y < 3 && Gravity(b)
    requires GetTop(b, x, y).Some?
    ensures forall h: nat :: GetTop(b, x, y).value <= h < 3 ==> b.Cell(x, y, h) == 0
  {
    var z := GetTop(b, x, y).value;
    assert Settled(b, x, y);
    assert b.Cell(x, y, z) == 0;
  }

  /** Dropping a piece keeps the gravity invariant: the new piece lands on a non-empty cell
      or the floor, and nothing above it is occupied. */
  lemma PlaceKeepsGravity(b: Board, x: nat, y: nat, player: int)
    requires b.WellFormed() && x < 3 && y < 3 && Gravity(b)
    ensures Gravity(Place(b, x, y, player))
  {
    var r := Place(b, x, y, player);
    if GetTop(b, x, y).Some? {
      var z := GetTop(b, x, y).value;
      AboveTopEmpty(b, x, y);
      forall a: nat, c: nat | a < 3 && c < 3 ensures Settled(r, a, c) {
        if a == x && c == y {
          assert forall h: nat :: h < 3 && h != z ==> r.Cell(a, c, h) == b.Cell(a, c, h);
          assert r.Cell(a, c, z) == player;
        } else {
          assert forall h: nat :: h < 3 ==> r.Cell(a, c, h) == b.Cell(a, c, h);
          assert Settled(b, a, c);
        }
      }
    }
  }

  /** Every successor of a gravity-respecting board respects gravity. */
  lemma SuccessorKeepsGravity(b: Board, player: int, s: Board)
    requires b.WellFormed() && s in Successors(b, player)
    requires Gravity(b)
    ensures s.WellFormed() && Gravity(s)
  {
    SuccessorIsPlace(b, player, s);
    var c: nat :| c < 9 && ColumnOpen(b, c) && s == Place(b, ColX(c), ColY(c), player);
    PlaceKeepsGravity(b, ColX(c), ColY(c), player);
  }

  /** A successor keeps every cell in {0, 1, 2} when the mover is a real player. */
  lemma SuccessorKeepsCellsInRange(b: Board, player: int, s: Board)
    requires b.WellFormed() && s in Successors(b, player)
    requires CellsInRange(b) && (player == 1 || player == 2)
    ensures CellsInRange(s)
  {
    SuccessorChangesOneCell(b, player, s);
  }

  /** Number of zero entries. */
  function ZeroCount(s: seq<int>): (n: nat)
    ensures n <= |s|
  {
    if s == [] then 0 else (if s[0] == 0 then 1 else 0) + ZeroCount(s[1..])
  }

  /** The number of empty cells of a board. */
  function OpenCount(b: Board): nat
  {
    ZeroCount(b.cells)
  }

  /** Overwriting one entry changes the zero count by what was lost and what was written. */
  lemma {:induction false} ZeroCountUpdate(s: seq<int>, i: nat, v: int)
    requires i < |s|
    ensures ZeroCount(s[i := v]) == ZeroCount(s) - (if s[i] == 0 then 1 else 0) + (if v == 0 then 1 else 0)
  {
    if i > 0 {
      assert s[i := v][1..] == s[1..][i - 1 := v];
      ZeroCountUpdate(s[1..], i - 1, v);
    } else {
      assert s[i := v][1..] == s[1..];
    }
  }

  /** A sequence with no zero entry has zero count 0, and conversely. */
  lemma {:induction false} ZeroCountNone(s: seq<int>)
    ensures ZeroCount(s) == 0 <==> forall i :: 0 <= i < |s| ==> s[i] != 0
  {
    if s != [] {
      ZeroCountNone(s[1..]);
      if ZeroCount(s) == 0 {
        forall i | 0 <= i < |s| ensures s[i] != 0 {
          if i > 0 { assert s[i] == s[1..][i - 1]; }
        }
      }
    }
  }

  /** Each successor has exactly one empty cell fewer than the input when the mover is non-zero. */
  lemma SuccessorOpenCount(b: Board, player: int, s: Board)
    requires b.WellFormed() && s in Successors(b, player) && player != 0
    ensures OpenCount(s) == OpenCount(b) - 1
  {
    SuccessorChangesOneCell(b, player, s);
    var i :| 0 <= i < 27 && b.cells[i] == 0 && s.cells == b.cells[i := player];
    ZeroCountUpdate(b.cells, i, player);
  }

  lemma {:induction false} NoOpenColumnNoSuccessors(b: Board, player: int, n: nat)
    requires b.WellFormed() && n <= 9
    requires forall c: nat :: c < n ==> !ColumnOpen(b, c)
    ensures SuccessorsUpTo(b, player, n) == []
  {
    if n > 0 {
      NoOpenColumnNoSuccessors(b, player, n - 1);
      assert !ColumnOpen(b, n - 1);
    }
  }

  /** A board without an empty cell has no successor. */
  lemma FullBoardHasNoSuccessors(b: Board, player: int)
    requires b.WellFormed() && OpenCount(b) == 0
    ensures Successors(b, player) == []
  {
    ZeroCountNone(b.cells);
    forall c: nat | c < 9 ensures !ColumnOpen(b, c) {
      var x, y := ColX(c), ColY(c);
      assert b.Cell(x, y, 0) != 0 && b.Cell(x, y, 1) != 0 && b.Cell(x, y, 2) != 0;
    }
    NoOpenColumnNoSuccessors(b, player, 9);
  }

  /** `_get_num_open_spaces`: counts the empty cells in the source's nested loops. */
  method GetNumOpenSpaces(g: Game) returns (output: int)
    requires g.board.WellFormed()
    ensures output == OpenCount(g.board)
  {
    var cells := g.board.cells;
    output := 0;
    ghost var part := seq(27, _ => 1);
    assert ZeroCount(part) == 0 by { ZeroCountNone(part); }
    for x := 0 to 3
      invariant VisitedPrefix(part, cells, x, 0, 0, 1)
      invariant output == ZeroCount(part)
    {
      for y := 0 to 3
        invariant VisitedPrefix(part, cells, x, y, 0, 1)
        invariant output == ZeroCount(part)
      {
        for z := 0 to 3
          invariant VisitedPrefix(part, cells, x, y, z, 1)
          invariant output == ZeroCount(part)
        {
          ZeroCountUpdate(part, Idx(x, y, z), cells[Idx(x, y, z)]);
          VisitNext(part, cells, x, y, z, 1);
          part := part[Idx(x, y, z) := cells[Idx(x, y, z)]];
          if cells[Idx(x, y, z)] == 0 {
            output := output + 1;
          }
        }
      }
    }
    VisitedAll(part, cells, 1);
  }
}
