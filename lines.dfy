/** Win detection: the three-step walk along a direction and the fixed set of
    start/direction pairs the game-over test probes. */
module Lines {
  import opened Grid

  /** A cell coordinate or a direction, components as in the source's `i8` arguments. */
  datatype Vec = Vec(x: int, y: int, z: int)
  {
    function Plus(d: Vec): Vec
    {
      Vec(x + d.x, y + d.y, z + d.z)
    }

    function Neg(): Vec
    {
      Vec(-x, -y, -z)
    }
  }

  predicate InGrid(p: Vec)
  {
    0 <= p.x < 3 && 0 <= p.y < 3 && 0 <= p.z < 3
  }

  function At(b: Board, p: Vec): int
    requires b.WellFormed() && InGrid(p)
  {
    b.Cell(p.x, p.y, p.z)
  }

  /** Cell p exists and holds v. */
  predicate Holds(b: Board, p: Vec, v: int)
    requires b.WellFormed()
  {
    InGrid(p) && At(b, p) == v
  }

  /** s, s + d and s + 2d are cells of the board holding one and the same piece. */
  predicate Monochrome(b: Board, s: Vec, d: Vec)
    requires b.WellFormed()
  {
    InGrid(s) && At(b, s) != 0 && Holds(b, s.Plus(d), At(b, s)) && Holds(b, s.Plus(d).Plus(d), At(b, s))
  }

  /** A step to one of the 26 neighbouring cells. */
  predicate IsDirection(d: Vec)
  {
    -1 <= d.x <= 1 && -1 <= d.y <= 1 && -1 <= d.z <= 1 && (d.x != 0 || d.y != 0 || d.z != 0)
  }

  /** (s, d) walks one of the 49 lines of the cube; each line has two such descriptions. */
  predicate IsLine(s: Vec, d: Vec)
  {
    IsDirection(d) && InGrid(s) && InGrid(s.Plus(d).Plus(d))
  }

  /** A face diagonal whose two moving components have opposite signs, such as
      (x, 0, 2), (x, 1, 1), (x, 2, 0). */
  predicate IsFaceAntiDiagonal(d: Vec)
  {
    (d.x == 0 && d.y != 0 && d.z == -d.y) || (d.y == 0 && d.x != 0 && d.z == -d.x) ||
    (d.z == 0 && d.x != 0 && d.y == -d.x)
  }

  /** A walk along one coordinate never stands on the value 3 while steps remain. */
  predicate AvoidsEdge(c: int, dc: int, left: int)
  {
    (left >= 1 ==> c != 3) && (left >= 2 ==> c + dc != 3) && (left >= 3 ==> c + 2 * dc != 3)
  }

  /** `check_win_direction`: with `left` = 3 it reads the start cell and carries its value as
      `last` through the next two steps.  The bound test rejects coordinates above 3 or
      below 0, so a coordinate equal to 3 would reach the array read; the precondition
      says no walk stands on 3 while steps remain, which every call in `is_over` meets. */
  function CheckWinDirection(g: Game, x: int, y: int, z: int, dirx: int, diry: int, dirz: int,
                             left: int, last: int): (r: bool)
    requires g.board.WellFormed()
    requires 0 <= left <= 3
    requires AvoidsEdge(x, dirx, left) && AvoidsEdge(y, diry, left) && AvoidsEdge(z, dirz, left)
    ensures r ==> 1 <= left && InGrid(Vec(x, y, z)) && g.board.Cell(x, y, z) != 0
    ensures r && left < 3 ==> g.board.Cell(x, y, z) == last
    decreases left
  {
    if left == 0 then false
    else if x > 3 || x < 0 || y > 3 || y < 0 || z > 3 || z < 0 then false
    else if g.board.Cell(x, y, z) == 0 then false
    else if g.board.Cell(x, y, z) == last || left == 3 then
      if left == 1 then true
      else if left == 3 then
        CheckWinDirection(g, x + dirx, y + diry, z + dirz, dirx, diry, dirz, left - 1, g.board.Cell(x, y, z))
      else
        CheckWinDirection(g, x + dirx, y + diry, z + dirz, dirx, diry, dirz, left - 1, last)
    else false
  }

  /** The last step of the walk: it succeeds exactly when the cell holds the non-empty `last`. */
  lemma WalkLastStep(g: Game, x: int, y: int, z: int, dirx: int, diry: int, dirz: int, last: int)
    requires g.board.WellFormed()
    requires AvoidsEdge(x, dirx, 1) && AvoidsEdge(y, diry, 1) && AvoidsEdge(z, dirz, 1)
    ensures CheckWinDirection(g, x, y, z, dirx, diry, dirz, 1, last) <==> last != 0 && Holds(g.board, Vec(x, y, z), last)
  {
  }

  /** With two steps to go the walk succeeds exactly when cell p and the next cell hold
      the non-empty `last`. */
  lemma WalkTwoSteps(g: Game, p: Vec, d: Vec, last: int)
    requires g.board.WellFormed()
    requires AvoidsEdge(p.x, d.x, 2) && AvoidsEdge(p.y, d.y, 2) && AvoidsEdge(p.z, d.z, 2)
    ensures CheckWinDirection(g, p.x, p.y, p.z, d.x, d.y, d.z, 2, last) <==>
              last != 0 && Holds(g.board, p, last) && Holds(g.board, p.Plus(d), last)
  {
    var n := p.Plus(d);
    assert n.x == p.x + d.x && n.y == p.y + d.y && n.z == p.z + d.z;
    WalkLastStep(g, n.x, n.y, n.z, d.x, d.y, d.z, last);
  }

  /** The full walk reads the start cell and succeeds exactly when the three cells from
      (x, y, z) along the direction hold one and the same piece. */
  lemma WalkThreeSteps(g: Game, x: int, y: int, z: int, dirx: int, diry: int, dirz: int, last: int)
    requires g.board.WellFormed()
    requires AvoidsEdge(x, dirx, 3) && AvoidsEdge(y, diry, 3) && AvoidsEdge(z, dirz, 3)
    ensures CheckWinDirection(g, x, y, z, dirx, diry, dirz, 3, last) <==>
              Monochrome(g.board, Vec(x, y, z), Vec(dirx, diry, dirz))
  {
    if !InGrid(Vec(x, y, z)) || g.board.Cell(x, y, z) == 0 {
      WalkNoStart(g, x, y, z, dirx, diry, dirz, last);
    } else {
      WalkOccupied(g, Vec(x, y, z), Vec(dirx, diry, dirz), last);
    }
  }

  /** From an occupied start cell the walk succeeds exactly when the next two cells hold
      the start cell's piece. */
  lemma WalkOccupied(g: Game, s: Vec, d: Vec, last: int)
    requires g.board.WellFormed()
    requires AvoidsEdge(s.x, d.x, 3) && AvoidsEdge(s.y, d.y, 3) && AvoidsEdge(s.z, d.z, 3)
    requires InGrid(s) && At(g.board, s) != 0
    ensures CheckWinDirection(g, s.x, s.y, s.z, d.x, d.y, d.z, 3, last) <==> Monochrome(g.board, s, d)
  {
    var n := s.Plus(d);
    assert n.x == s.x + d.x && n.y == s.y + d.y && n.z == s.z + d.z;
    WalkFirstStep(g, s.x, s.y, s.z, d.x, d.y, d.z, last);
    WalkTwoSteps(g, n, d, At(g.board, s));
  }

  /** A walk that starts off the board or on an empty cell fails, and there is no line there. */
  lemma WalkNoStart(g: Game, x: int, y: int, z: int, dirx: int, diry: int, dirz: int, last: int)
    requires g.board.WellFormed()
    requires AvoidsEdge(x, dirx, 3) && AvoidsEdge(y, diry, 3) && AvoidsEdge(z, dirz, 3)
    requires !InGrid(Vec(x, y, z)) || g.board.Cell(x, y, z) == 0
    ensures !CheckWinDirection(g, x, y, z, dirx, diry, dirz, 3, last)
    ensures !Monochrome(g.board, Vec(x, y, z), Vec(dirx, diry, dirz))
  {
  }

  /** From an occupied start cell the walk carries that cell's piece on to the next cell. */
  lemma WalkFirstStep(g: Game, x: int, y: int, z: int, dirx: int, diry: int, dirz: int, last: int)
    requires g.board.WellFormed()
    requires AvoidsEdge(x, dirx, 3) && AvoidsEdge(y, diry, 3) && AvoidsEdge(z, dirz, 3)
    requires InGrid(Vec(x, y, z)) && g.board.Cell(x, y, z) != 0
    ensures CheckWinDirection(g, x, y, z, dirx, diry, dirz, 3, last) ==
            CheckWinDirection(g, x + dirx, y + diry, z + dirz, dirx, diry, dirz, 2, g.board.Cell(x, y, z))
  {
  }

  /** The 27 axis lines: the three loops at the head of `is_over`. */
  predicate AxisProbes(g: Game)
    requires g.board.WellFormed()
  {
    (exists y: int, z: int :: 0 <= y < 3 && 0 <= z < 3 && CheckWinDirection(g, 0, y, z, 1, 0, 0, 3, -1)) ||
    (exists x: int, z: int :: 0 <= x < 3 && 0 <= z < 3 && CheckWinDirection(g, x, 0, z, 0, 1, 0, 3, -1)) ||
    (exists x: int, y: int :: 0 <= x < 3 && 0 <= y < 3 && CheckWinDirection(g, x, y, 0, 0, 0, 1, 3, -1))
  }

  /** The face-diagonal loops of `is_over` as written: each "reverse" call starts at the
      far end of the line the call before it walks. */
  predicate FaceProbesAsWritten(g: Game)
    requires g.board.WellFormed()
  {
    (exists x: int :: 0 <= x < 3 && (CheckWinDirection(g, x, 0, 0, 0, 1, 1, 3, -1) ||
                                     CheckWinDirection(g, x, 2, 2, 0, -1, -1, 3, -1))) ||
    (exists y: int :: 0 <= y < 3 && (CheckWinDirection(g, 0, y, 0, 1, 0, 1, 3, -1) ||
                                     CheckWinDirection(g, 2, y, 2, -1, 0, -1, 3, -1))) ||
    (exists z: int :: 0 <= z < 3 && (CheckWinDirection(g, 0, 0, z, 1, 1, 0, 3, -1) ||
                                     CheckWinDirection(g, 2, 2, z, -1, -1, 0, 3, -1)))
  }

  /** The face-diagonal loops with the second call of each turned to the anti-diagonal
      of the same face. */
  predicate FaceProbesAllDiagonals(g: Game)
    requires g.board.WellFormed()
  {
    (exists x: int :: 0 <= x < 3 && (CheckWinDirection(g, x, 0, 0, 0, 1, 1, 3, -1) ||
                                     CheckWinDirection(g, x, 2, 0, 0, -1, 1, 3, -1))) ||
    (exists y: int :: 0 <= y < 3 && (CheckWinDirection(g, 0, y, 0, 1, 0, 1, 3, -1) ||
                                     CheckWinDirection(g, 2, y, 0, -1, 0, 1, 3, -1))) ||
    (exists z: int :: 0 <= z < 3 && (CheckWinDirection(g, 0, 0, z, 1, 1, 0, 3, -1) ||
                                     CheckWinDirection(g, 2, 0, z, -1, 1, 0, 3, -1)))
  }

  /** The four space diagonals, all walked upwards. */
  predicate SpaceProbes(g: Game)
    requires g.board.WellFormed()
  {
    CheckWinDirection(g, 0, 0, 0, 1, 1, 1, 3, -1) ||
    CheckWinDirection(g, 0, 2, 0, 1, -1, 1, 3, -1) ||
    CheckWinDirection(g, 2, 0, 0, -1, 1, 1, 3, -1) ||
    CheckWinDirection(g, 2, 2, 0, -1, -1, 1, 3, -1)
  }

  /** `is_over` as written.  A board without pieces is never over. */
  predicate IsOver(g: Game)
    requires g.board.WellFormed()
    ensures IsOver(g) ==> exists i :: 0 <= i < 27 && g.board.cells[i] != 0
  {
    AxisProbes(g) || FaceProbesAsWritten(g) || SpaceProbes(g)
  }

  /** `is_over` with every face anti-diagonal probed, as the game rules intend.  A board
      without pieces is never over. */
  predicate IsOverAllLines(g: Game)
    requires g.board.WellFormed()
    ensures IsOverAllLines(g) ==> exists i :: 0 <= i < 27 && g.board.cells[i] != 0
  {
    AxisProbes(g) || FaceProbesAllDiagonals(g) || SpaceProbes(g)
  }

  /** Some line of the cube other than a face anti-diagonal is monochrome. */
  ghost predicate CheckedLineWon(b: Board)
    requires b.WellFormed()
  {
    exists s: Vec, d: Vec :: IsLine(s, d) && !IsFaceAntiDiagonal(d) && Monochrome(b, s, d)
  }

  /** Some line of the cube is monochrome: a player has three in a row. */
  ghost predicate SomeLineWon(b: Board)
    requires b.WellFormed()
  {
    exists s: Vec, d: Vec :: IsLine(s, d) && Monochrome(b, s, d)
  }

  /** A line walked backwards is the same line, with the same cells. */
  lemma Reverse(b: Board, s: Vec, d: Vec)
    requires b.WellFormed() && IsLine(s, d)
    ensures IsLine(s.Plus(d).Plus(d), d.Neg())
    ensures Monochrome(b, s, d) <==> Monochrome(b, s.Plus(d).Plus(d), d.Neg())
    ensures IsFaceAntiDiagonal(d) <==> IsFaceAntiDiagonal(d.Neg())
  {
    var e := s.Plus(d).Plus(d);
    assert e.Plus(d.Neg()) == s.Plus(d);
    assert e.Plus(d.Neg()).Plus(d.Neg()) == s;
  }

  /** The directions the probes walk forwards: upwards, or level and towards larger y,
      or along x towards larger x. */
  predicate Forward(d: Vec)
  {
    d.z > 0 || (d.z == 0 && d.y > 0) || (d.z == 0 && d.y == 0 && d.x > 0)
  }

  /** Every line has a forward description. */
  lemma ForwardForm(b: Board, s: Vec, d: Vec) returns (s2: Vec, d2: Vec)
    requires b.WellFormed() && IsLine(s, d)
    ensures IsLine(s2, d2) && Forward(d2)
    ensures Monochrome(b, s, d) <==> Monochrome(b, s2, d2)
    ensures IsFaceAntiDiagonal(d) <==> IsFaceAntiDiagonal(d2)
  {
    if Forward(d) {
      s2, d2 := s, d;
    } else {
      Reverse(b, s, d);
      s2, d2 := s.Plus(d).Plus(d), d.Neg();
    }
  }

  /** Every probe finding a monochrome line found one that is not a face anti-diagonal. */
  lemma ProbesSound(g: Game)
    requires g.board.WellFormed() && IsOver(g)
    ensures CheckedLineWon(g.board)
  {
    if exists y: int, z: int :: 0 <= y < 3 && 0 <= z < 3 && CheckWinDirection(g, 0, y, z, 1, 0, 0, 3, -1) {
      var y: int, z: int :| 0 <= y < 3 && 0 <= z < 3 && CheckWinDirection(g, 0, y, z, 1, 0, 0, 3, -1);
      ProbeWitness(g, Vec(0, y, z), Vec(1, 0, 0));
    } else if exists x: int, z: int :: 0 <= x < 3 && 0 <= z < 3 && CheckWinDirection(g, x, 0, z, 0, 1, 0, 3, -1) {
      var x: int, z: int :| 0 <= x < 3 && 0 <= z < 3 && CheckWinDirection(g, x, 0, z, 0, 1, 0, 3, -1);
      ProbeWitness(g, Vec(x, 0, z), Vec(0, 1, 0));
    } else if exists x: int, y: int :: 0 <= x < 3 && 0 <= y < 3 && CheckWinDirection(g, x, y, 0, 0, 0, 1, 3, -1) {
      var x: int, y: int :| 0 <= x < 3 && 0 <= y < 3 && CheckWinDirection(g, x, y, 0, 0, 0, 1, 3, -1);
      ProbeWitness(g, Vec(x, y, 0), Vec(0, 0, 1));
    } else if FaceProbesAsWritten(g) {
      FaceProbesSound(g);
    } else {
      SpaceProbesSound(g);
    }
  }

  lemma Witness(b: Board, s: Vec, d: Vec)
    requires b.WellFormed() && IsLine(s, d) && !IsFaceAntiDiagonal(d) && Monochrome(b, s, d)
    ensures CheckedLineWon(b)
  {
  }

  /** A full three-step probe along a line answers whether the line is monochrome. */
  lemma ProbeMeaning(g: Game, s: Vec, d: Vec)
    requires g.board.WellFormed() && IsLine(s, d)
    ensures CheckWinDirection(g, s.x, s.y, s.z, d.x, d.y, d.z, 3, -1) <==> Monochrome(g.board, s, d)
  {
    WalkThreeSteps(g, s.x, s.y, s.z, d.x, d.y, d.z, -1);
  }

  /** A successful probe along any line is a win. */
  lemma ProbeLineWitness(g: Game, s: Vec, d: Vec)
    requires g.board.WellFormed() && IsLine(s, d)
    requires CheckWinDirection(g, s.x, s.y, s.z, d.x, d.y, d.z, 3, -1)
    ensures SomeLineWon(g.board)
  {
    ProbeMeaning(g, s, d);
    LineWitness(g.board, s, d);
  }

  /** A successful probe along a line that is not a face anti-diagonal is a checked win. */
  lemma ProbeWitness(g: Game, s: Vec, d: Vec)
    requires g.board.WellFormed() && IsLine(s, d) && !IsFaceAntiDiagonal(d)
    requires CheckWinDirection(g, s.x, s.y, s.z, d.x, d.y, d.z, 3, -1)
    ensures CheckedLineWon(g.board)
  {
    ProbeMeaning(g, s, d);
    Witness(g.board, s, d);
  }

  lemma FaceProbesSound(g: Game)
    requires g.board.WellFormed() && FaceProbesAsWritten(g)
    ensures CheckedLineWon(g.board)
  {
    if exists x: int :: 0 <= x < 3 && (CheckWinDirection(g, x, 0, 0, 0, 1, 1, 3, -1) ||
                                       CheckWinDirection(g, x, 2, 2, 0, -1, -1, 3, -1)) {
      var x: int :| 0 <= x < 3 && (CheckWinDirection(g, x, 0, 0, 0, 1, 1, 3, -1) ||
                                   CheckWinDirection(g, x, 2, 2, 0, -1, -1, 3, -1));
      FaceXSound(g, x);
    } else if exists y: int :: 0 <= y < 3 && (CheckWinDirection(g, 0, y, 0, 1, 0, 1, 3, -1) ||
                                              CheckWinDirection(g, 2, y, 2, -1, 0, -1, 3, -1)) {
      var y: int :| 0 <= y < 3 && (CheckWinDirection(g, 0, y, 0, 1, 0, 1, 3, -1) ||
                                   CheckWinDirection(g, 2, y, 2, -1, 0, -1, 3, -1));
      FaceYSound(g, y);
    } else {
      var z: int :| 0 <= z < 3 && (CheckWinDirection(g, 0, 0, z, 1, 1, 0, 3, -1) ||
                                   CheckWinDirection(g, 2, 2, z, -1, -1, 0, 3, -1));
      FaceZSound(g, z);
    }
  }

  lemma FaceXSound(g: Game, x: int)
    requires g.board.WellFormed() && 0 <= x < 3
    requires CheckWinDirection(g, x, 0, 0, 0, 1, 1, 3, -1) || CheckWinDirection(g, x, 2, 2, 0, -1, -1, 3, -1)
    ensures CheckedLineWon(g.board)
  {
    FacePairSound(g, Vec(x, 0, 0), Vec(0, 1, 1));
  }

  lemma FaceYSound(g: Game, y: int)
    requires g.board.WellFormed() && 0 <= y < 3
    requires CheckWinDirection(g, 0, y, 0, 1, 0, 1, 3, -1) || CheckWinDirection(g, 2, y, 2, -1, 0, -1, 3, -1)
    ensures CheckedLineWon(g.board)
  {
    FacePairSound(g, Vec(0, y, 0), Vec(1, 0, 1));
  }

  lemma FaceZSound(g: Game, z: int)
    requires g.board.WellFormed() && 0 <= z < 3
    requires CheckWinDirection(g, 0, 0, z, 1, 1, 0, 3, -1) || CheckWinDirection(g, 2, 2, z, -1, -1, 0, 3, -1)
    ensures CheckedLineWon(g.board)
  {
    FacePairSound(g, Vec(0, 0, z), Vec(1, 1, 0));
  }

  /** One iteration of a face-diagonal loop as written: a main diagonal probed from either end. */
  lemma FacePairSound(g: Game, s: Vec, d: Vec)
    requires g.board.WellFormed() && IsLine(s, d) && !IsFaceAntiDiagonal(d)
    requires var e := s.Plus(d).Plus(d);
      CheckWinDirection(g, s.x, s.y, s.z, d.x, d.y, d.z, 3, -1) ||
      CheckWinDirection(g, e.x, e.y, e.z, -d.x, -d.y, -d.z, 3, -1)
    ensures CheckedLineWon(g.board)
  {
    ReverseProbe(g, s, d);
    ProbeWitness(g, s, d);
  }

  lemma SpaceProbesSound(g: Game)
    requires g.board.WellFormed() && SpaceProbes(g)
    ensures CheckedLineWon(g.board)
  {
    if CheckWinDirection(g, 0, 0, 0, 1, 1, 1, 3, -1) {
      ProbeWitness(g, Vec(0, 0, 0), Vec(1, 1, 1));
    } else if CheckWinDirection(g, 0, 2, 0, 1, -1, 1, 3, -1) {
      ProbeWitness(g, Vec(0, 2, 0), Vec(1, -1, 1));
    } else if CheckWinDirection(g, 2, 0, 0, -1, 1, 1, 3, -1) {
      ProbeWitness(g, Vec(2, 0, 0), Vec(-1, 1, 1));
    } else {
      ProbeWitness(g, Vec(2, 2, 0), Vec(-1, -1, 1));
    }
  }

  /** A forward line that is not a face anti-diagonal is walked by one of the probes. */
  lemma ProbesComplete(g: Game, s: Vec, d: Vec)
    requires g.board.WellFormed() && IsLine(s, d) && Forward(d) && !IsFaceAntiDiagonal(d)
    requires Monochrome(g.board, s, d)
    ensures IsOver(g) && IsOverAllLines(g)
  {
    ProbeMeaning(g, s, d);
    if (d.x == 0 && d.y == 0) || (d.x == 0 && d.z == 0) || (d.y == 0 && d.z == 0) {
      AxisComplete(g, s, d);
    } else if d.x == 0 || d.y == 0 || d.z == 0 {
      FaceComplete(g, s, d);
    } else {
      SpaceComplete(g, s, d);
    }
  }

  /** A forward line along an axis is walked by one of the three axis loops. */
  lemma AxisComplete(g: Game, s: Vec, d: Vec)
    requires g.board.WellFormed() && IsLine(s, d) && Forward(d)
    requires (d.x == 0 && d.y == 0) || (d.x == 0 && d.z == 0) || (d.y == 0 && d.z == 0)
    requires CheckWinDirection(g, s.x, s.y, s.z, d.x, d.y, d.z, 3, -1)
    ensures AxisProbes(g)
  {
    LineEnds(s.x, d.x);
    LineEnds(s.y, d.y);
    LineEnds(s.z, d.z);
    if d.z != 0 {
      assert d.x == 0 && d.y == 0 && d.z == 1 && s.z == 0;
      assert CheckWinDirection(g, s.x, s.y, 0, 0, 0, 1, 3, -1);
    } else if d.y != 0 {
      assert d.x == 0 && d.y == 1 && s.y == 0;
      assert CheckWinDirection(g, s.x, 0, s.z, 0, 1, 0, 3, -1);
    } else {
      assert d.x == 1 && s.x == 0;
      assert CheckWinDirection(g, 0, s.y, s.z, 1, 0, 0, 3, -1);
    }
  }

  /** A forward main face diagonal is walked by the first call of a face-diagonal loop. */
  lemma FaceComplete(g: Game, s: Vec, d: Vec)
    requires g.board.WellFormed() && IsLine(s, d) && Forward(d) && !IsFaceAntiDiagonal(d)
    requires d.x == 0 || d.y == 0 || d.z == 0
    requires !((d.x == 0 && d.y == 0) || (d.x == 0 && d.z == 0) || (d.y == 0 && d.z == 0))
    requires CheckWinDirection(g, s.x, s.y, s.z, d.x, d.y, d.z, 3, -1)
    ensures FaceProbesAsWritten(g) && FaceProbesAllDiagonals(g)
  {
    LineEnds(s.x, d.x);
    LineEnds(s.y, d.y);
    LineEnds(s.z, d.z);
    if d.x == 0 {
      assert d.y == 1 && d.z == 1 && s.y == 0 && s.z == 0;
      FaceXDetected(g, s.x);
    } else if d.y == 0 {
      assert d.x == 1 && d.z == 1 && s.x == 0 && s.z == 0;
      FaceYDetected(g, s.y);
    } else {
      assert d.x == 1 && d.y == 1 && s.x == 0 && s.y == 0;
      FaceZDetected(g, s.z);
    }
  }

  lemma FaceXDetected(g: Game, x: int)
    requires g.board.WellFormed() && 0 <= x < 3 && CheckWinDirection(g, x, 0, 0, 0, 1, 1, 3, -1)
    ensures FaceProbesAsWritten(g) && FaceProbesAllDiagonals(g)
  {
  }

  lemma FaceYDetected(g: Game, y: int)
    requires g.board.WellFormed() && 0 <= y < 3 && CheckWinDirection(g, 0, y, 0, 1, 0, 1, 3, -1)
    ensures FaceProbesAsWritten(g) && FaceProbesAllDiagonals(g)
  {
  }

  lemma FaceZDetected(g: Game, z: int)
    requires g.board.WellFormed() && 0 <= z < 3 && CheckWinDirection(g, 0, 0, z, 1, 1, 0, 3, -1)
    ensures FaceProbesAsWritten(g) && FaceProbesAllDiagonals(g)
  {
  }

  /** A space diagonal, walked upwards, is one of the four space-diagonal probes. */
  lemma SpaceComplete(g: Game, s: Vec, d: Vec)
    requires g.board.WellFormed() && IsLine(s, d) && Forward(d) && d.x != 0 && d.y != 0 && d.z != 0
    requires CheckWinDirection(g, s.x, s.y, s.z, d.x, d.y, d.z, 3, -1)
    ensures SpaceProbes(g)
  {
    SpaceDiagonalStarts(s, d);
    SpaceCornerDetected(g, s.x, s.y, d.x, d.y);
  }

  /** A space diagonal climbing from floor corner (x, y) is one of the four probes. */
  lemma SpaceCornerDetected(g: Game, x: int, y: int, dirx: int, diry: int)
    requires g.board.WellFormed()
    requires (x == 0 && dirx == 1) || (x == 2 && dirx == -1)
    requires (y == 0 && diry == 1) || (y == 2 && diry == -1)
    requires CheckWinDirection(g, x, y, 0, dirx, diry, 1, 3, -1)
    ensures SpaceProbes(g)
  {
    if dirx == 1 && diry == 1 {
      assert CheckWinDirection(g, 0, 0, 0, 1, 1, 1, 3, -1);
    } else if dirx == 1 {
      assert CheckWinDirection(g, 0, 2, 0, 1, -1, 1, 3, -1);
    } else if diry == 1 {
      assert CheckWinDirection(g, 2, 0, 0, -1, 1, 1, 3, -1);
    } else {
      assert CheckWinDirection(g, 2, 2, 0, -1, -1, 1, 3, -1);
    }
  }

  /** The four space diagonals start on the floor at a corner and climb to the opposite one. */
  lemma SpaceDiagonalStarts(s: Vec, d: Vec)
    requires IsLine(s, d) && Forward(d) && d.x != 0 && d.y != 0 && d.z != 0
    ensures s.z == 0 && d.z == 1
    ensures (s.x == 0 && d.x == 1) || (s.x == 2 && d.x == -1)
    ensures (s.y == 0 && d.y == 1) || (s.y == 2 && d.y == -1)
  {
    LineEnds(s.x, d.x);
    LineEnds(s.y, d.y);
    LineEnds(s.z, d.z);
  }

  /** A coordinate that moves along a line of three cells starts at 0 going up or at 2
      going down. */
  lemma LineEnds(c: int, dc: int)
    requires 0 <= c < 3 && 0 <= c + dc + dc < 3 && -1 <= dc <= 1
    ensures dc == 1 ==> c == 0
    ensures dc == -1 ==> c == 2
  {
  }

  /** `is_over` holds exactly when some line of the cube other than a face anti-diagonal
      holds three equal pieces; how full the board is plays no part. */
  lemma IsOverChecks(g: Game)
    requires g.board.WellFormed()
    ensures IsOver(g) <==> CheckedLineWon(g.board)
  {
    if IsOver(g) {
      ProbesSound(g);
    }
    if CheckedLineWon(g.board) {
      var s: Vec, d: Vec :| IsLine(s, d) && !IsFaceAntiDiagonal(d) && Monochrome(g.board, s, d);
      var s2, d2 := ForwardForm(g.board, s, d);
      ProbesComplete(g, s2, d2);
    }
  }

  /** A column holding three equal pieces ends the game, whatever the rest of the board. */
  lemma ColumnLineDetected(g: Game, x: nat, y: nat)
    requires g.board.WellFormed() && x < 3 && y < 3 && g.board.Cell(x, y, 0) != 0
    requires g.board.Cell(x, y, 1) == g.board.Cell(x, y, 0) && g.board.Cell(x, y, 2) == g.board.Cell(x, y, 0)
    ensures IsOver(g) && IsOverAllLines(g)
  {
    assert CheckWinDirection(g, x, y, 0, 0, 0, 1, 3, -1);
  }

  /** The probes at src/main.rs:172, :180 and :188 answer exactly what the probes just
      before them answer: each walks the same three cells backwards. */
  lemma ReversedProbesRepeat(g: Game, i: int)
    requires g.board.WellFormed() && 0 <= i < 3
    ensures CheckWinDirection(g, i, 2, 2, 0, -1, -1, 3, -1) == CheckWinDirection(g, i, 0, 0, 0, 1, 1, 3, -1)
    ensures CheckWinDirection(g, 2, i, 2, -1, 0, -1, 3, -1) == CheckWinDirection(g, 0, i, 0, 1, 0, 1, 3, -1)
    ensures CheckWinDirection(g, 2, 2, i, -1, -1, 0, 3, -1) == CheckWinDirection(g, 0, 0, i, 1, 1, 0, 3, -1)
  {
    ReverseProbe(g, Vec(i, 0, 0), Vec(0, 1, 1));
    ReverseProbe(g, Vec(0, i, 0), Vec(1, 0, 1));
    ReverseProbe(g, Vec(0, 0, i), Vec(1, 1, 0));
  }

  /** Walking a line from its far end answers what walking it from its start answers. */
  lemma ReverseProbe(g: Game, s: Vec, d: Vec)
    requires g.board.WellFormed() && IsLine(s, d)
    ensures var e := s.Plus(d).Plus(d);
      CheckWinDirection(g, e.x, e.y, e.z, -d.x, -d.y, -d.z, 3, -1) == CheckWinDirection(g, s.x, s.y, s.z, d.x, d.y, d.z, 3, -1)
  {
    var e, n := s.Plus(d).Plus(d), d.Neg();
    assert n.x == -d.x && n.y == -d.y && n.z == -d.z;
    Reverse(g.board, s, d);
    ProbeMeaning(g, s, d);
    ProbeMeaning(g, e, n);
  }

  lemma AllProbesSound(g: Game)
    requires g.board.WellFormed() && IsOverAllLines(g)
    ensures SomeLineWon(g.board)
  {
    if IsOver(g) {
      ProbesSound(g);
    } else if FaceProbesAllDiagonals(g) {
      if exists x: int :: 0 <= x < 3 && CheckWinDirection(g, x, 2, 0, 0, -1, 1, 3, -1) {
        var x: int :| 0 <= x < 3 && CheckWinDirection(g, x, 2, 0, 0, -1, 1, 3, -1);
        ProbeLineWitness(g, Vec(x, 2, 0), Vec(0, -1, 1));
      } else if exists y: int :: 0 <= y < 3 && CheckWinDirection(g, 2, y, 0, -1, 0, 1, 3, -1) {
        var y: int :| 0 <= y < 3 && CheckWinDirection(g, 2, y, 0, -1, 0, 1, 3, -1);
        ProbeLineWitness(g, Vec(2, y, 0), Vec(-1, 0, 1));
      } else if exists z: int :: 0 <= z < 3 && CheckWinDirection(g, 2, 0, z, -1, 1, 0, 3, -1) {
        var z: int :| 0 <= z < 3 && CheckWinDirection(g, 2, 0, z, -1, 1, 0, 3, -1);
        ProbeLineWitness(g, Vec(2, 0, z), Vec(-1, 1, 0));
      }
    }
  }

  lemma AllProbesComplete(g: Game, s: Vec, d: Vec)
    requires g.board.WellFormed() && IsLine(s, d) && Forward(d) && Monochrome(g.board, s, d)
    ensures IsOverAllLines(g)
  {
    if !IsFaceAntiDiagonal(d) {
      ProbesComplete(g, s, d);
    } else {
      AntiDiagonalComplete(g, s, d);
    }
  }

  /** A forward face anti-diagonal is walked by one of the added probes. */
  lemma AntiDiagonalComplete(g: Game, s: Vec, d: Vec)
    requires g.board.WellFormed() && IsLine(s, d) && Forward(d) && IsFaceAntiDiagonal(d)
    requires Monochrome(g.board, s, d)
    ensures FaceProbesAllDiagonals(g)
  {
    ProbeMeaning(g, s, d);
    LineEnds(s.x, d.x);
    LineEnds(s.y, d.y);
    LineEnds(s.z, d.z);
    if d.x == 0 {
      assert d.y == -1 && d.z == 1 && s.y == 2 && s.z == 0;
      assert CheckWinDirection(g, s.x, 2, 0, 0, -1, 1, 3, -1);
    } else if d.y == 0 {
      assert d.x == -1 && d.z == 1 && s.x == 2 && s.z == 0;
      assert CheckWinDirection(g, 2, s.y, 0, -1, 0, 1, 3, -1);
    } else {
      assert d.x == -1 && d.y == 1 && s.x == 2 && s.y == 0;
      assert CheckWinDirection(g, 2, 0, s.z, -1, 1, 0, 3, -1);
    }
  }

  /** With the anti-diagonal probes, the test holds exactly when some line of the cube
      holds three equal pieces. */
  lemma IsOverAllLinesChecks(g: Game)
    requires g.board.WellFormed()
    ensures IsOverAllLines(g) <==> SomeLineWon(g.board)
  {
    if IsOverAllLines(g) {
      AllProbesSound(g);
    }
    if SomeLineWon(g.board) {
      var s: Vec, d: Vec :| IsLine(s, d) && Monochrome(g.board, s, d);
      var s2, d2 := ForwardForm(g.board, s, d);
      AllProbesComplete(g, s2, d2);
    }
  }

  /** Player 1 on the anti-diagonal (2, 0, 0), (1, 1, 0), (0, 2, 0) of the floor, player 2 on
      (0, 0, 0) and (2, 2, 0): a position reached by five moves, the last of which wins. */
  function AntiDiagonalBoard(): (b: Board)
    ensures b.WellFormed()
  {
    Board(seq(27, i => if i == 2 || i == 4 || i == 6 then 1 else if i == 0 || i == 8 then 2 else 0))
  }

  /** On that board player 1 has three in a row, yet `is_over` as written reports the game
      as still running; the corrected test reports it over. */
  lemma AntiDiagonalMissed()
    ensures CellsInRange(AntiDiagonalBoard()) && Gravity(AntiDiagonalBoard())
    ensures Monochrome(AntiDiagonalBoard(), Vec(2, 0, 0), Vec(-1, 1, 0))
    ensures !IsOver(Game(AntiDiagonalBoard(), 2))
    ensures IsOverAllLines(Game(AntiDiagonalBoard(), 2))
  {
    var g := Game(AntiDiagonalBoard(), 2);
    AntiDiagonalBoardPlayable();
    NoCheckedLine();
    IsOverChecks(g);
    AntiDiagonalWon();
    IsOverAllLinesChecks(g);
  }

  lemma AntiDiagonalBoardPlayable()
    ensures CellsInRange(AntiDiagonalBoard()) && Gravity(AntiDiagonalBoard())
  {
  }

  lemma AntiDiagonalWon()
    ensures IsLine(Vec(2, 0, 0), Vec(-1, 1, 0))
    ensures Monochrome(AntiDiagonalBoard(), Vec(2, 0, 0), Vec(-1, 1, 0))
    ensures SomeLineWon(AntiDiagonalBoard())
  {
    AntiDiagonalLine();
    LineWitness(AntiDiagonalBoard(), Vec(2, 0, 0), Vec(-1, 1, 0));
  }

  // Kept apart from AntiDiagonalWon only to keep the solver within its budget:
  // the concrete board is evaluated here, away from the existential in SomeLineWon.
  lemma AntiDiagonalLine()
    ensures IsLine(Vec(2, 0, 0), Vec(-1, 1, 0))
    ensures Monochrome(AntiDiagonalBoard(), Vec(2, 0, 0), Vec(-1, 1, 0))
  {
  }

  lemma LineWitness(b: Board, s: Vec, d: Vec)
    requires b.WellFormed() && IsLine(s, d) && Monochrome(b, s, d)
    ensures SomeLineWon(b)
  {
  }

  lemma NoCheckedLine()
    ensures !CheckedLineWon(AntiDiagonalBoard())
  {
    forall s: Vec, d: Vec | IsLine(s, d) && Monochrome(AntiDiagonalBoard(), s, d)
      ensures IsFaceAntiDiagonal(d)
    {
      OnlyAntiDiagonal(s, d);
    }
  }

  lemma OnlyAntiDiagonal(s: Vec, d: Vec)
    requires IsLine(s, d) && Monochrome(AntiDiagonalBoard(), s, d)
    ensures IsFaceAntiDiagonal(d)
  {
    var b := AntiDiagonalBoard();
    assert At(b, s) == 1;
    assert s.z == 0 && d.z == 0;
  }
}
