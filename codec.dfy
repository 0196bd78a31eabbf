/** The state codec: a board as a base-3 number, cell (x, y, z) weighted by
    3^(x + 3y + 9z), and the digit extraction that is meant to undo it. */
module Codec {
  import opened Grid

  function Pow3(n: nat): (p: nat)
    ensures p >= 1
  {
    if n == 0 then 1 else 3 * Pow3(n - 1)
  }

  /** The number whose base-3 digits, least significant first, are `digits`. */
  function Value(digits: seq<int>): int
  {
    if digits == [] then 0 else digits[0] + 3 * Value(digits[1..])
  }

  /** The sum of digit i times 3^i, summed from the last digit down. */
  function PositionalSum(digits: seq<int>): int
  {
    if digits == [] then 0
    else PositionalSum(digits[..|digits| - 1]) + digits[|digits| - 1] * Pow3(|digits| - 1)
  }

  /** The state number of a board (the player to move takes no part in it). */
  function Encode(b: Board): int
  {
    Value(b.cells)
  }

  predicate Digits3(s: seq<int>)
  {
    forall i :: 0 <= i < |s| ==> 0 <= s[i] <= 2
  }

  /** Appending a most significant digit adds it times the next power of three. */
  lemma {:induction false} ValueAppend(s: seq<int>, d: int)
    ensures Value(s + [d]) == Value(s) + d * Pow3(|s|)
  {
    if s == [] {
      assert [d][1..] == [];
    } else {
      assert (s + [d])[1..] == s[1..] + [d];
      ValueAppend(s[1..], d);
      assert 3 * (d * Pow3(|s| - 1)) == d * Pow3(|s|);
    }
  }

  /** The Horner evaluation is the positional sum: digit i weighs 3^i. */
  lemma {:induction false} ValueIsPositionalSum(s: seq<int>)
    ensures Value(s) == PositionalSum(s)
  {
    if s != [] {
      var init := s[..|s| - 1];
      ValueIsPositionalSum(init);
      assert s == init + [s[|s| - 1]];
      ValueAppend(init, s[|s| - 1]);
    }
  }

  /** Overwriting digit i changes the value by the difference times 3^i. */
  lemma {:induction false} ValueUpdate(s: seq<int>, i: nat, v: int)
    requires i < |s|
    ensures Value(s[i := v]) == Value(s) + (v - s[i]) * Pow3(i)
  {
    if i == 0 {
      assert s[i := v][1..] == s[1..];
    } else {
      assert s[i := v][1..] == s[1..][i - 1 := v];
      ValueUpdate(s[1..], i - 1, v);
      assert 3 * ((v - s[i]) * Pow3(i - 1)) == (v - s[i]) * Pow3(i);
    }
  }

  /** Digits in {0, 1, 2} give a value in [0, 3^n). */
  lemma {:induction false} ValueRange(s: seq<int>)
    requires Digits3(s)
    ensures 0 <= Value(s) < Pow3(|s|)
  {
    if s != [] {
      ValueRange(s[1..]);
    }
  }

  /** The state number of a board with cells in {0, 1, 2} lies in [0, 3^27), which is
      below 2^63 and so fits the source's `i64`. */
  lemma EncodeRange(b: Board)
    requires b.WellFormed() && CellsInRange(b)
    ensures 0 <= Encode(b) < Pow3(27)
    ensures Pow3(27) == 7625597484987 < 0x8000_0000_0000_0000
  {
    ValueRange(b.cells);
    Pow3Of27();
  }

  lemma Pow3Of27()
    ensures Pow3(27) == 7625597484987
  {
    assert Pow3(9) == 19683;
    assert Pow3(18) == 387420489 by {
      assert Pow3(12) == 531441;
    }
    assert Pow3(21) == 10460353203;
    assert Pow3(24) == 282429536481;
  }

  /** Dropping `player` on the empty cell (x, y, z) raises the state number by
      exactly player * 3^(x + 3y + 9z). */
  lemma EncodePlace(b: Board, x: nat, y: nat, z: nat, player: int)
    requires b.WellFormed() && x < 3 && y < 3 && z < 3 && b.Cell(x, y, z) == 0
    ensures Encode(Board(b.cells[Idx(x, y, z) := player])) == Encode(b) + player * Pow3(x + 3 * y + 9 * z)
  {
    FillEmptyDigit(b.cells, Idx(x, y, z), x + 3 * y + 9 * z, player);
  }

  /** Filling the empty digit i = e with v adds v * 3^e.  The exponent is a parameter of
      its own, equal to the index, so that `EncodePlace` can hand over `Idx(x, y, z)` and
      `x + 3y + 9z` as two terms: with one term the solver unfolds the index inside the
      power arithmetic and runs out of its budget. */
  lemma FillEmptyDigit(s: seq<int>, i: nat, e: nat, v: int)
    requires i < |s| && i == e && s[i] == 0
    ensures Value(s[i := v]) == Value(s) + v * Pow3(e)
  {
    ValueUpdate(s, i, v);
  }

  /** The empty board has state number 0, and a board with cells in {0, 1, 2} and at
      least one piece has a positive one. */
  lemma EncodeZeroExactlyEmpty(b: Board)
    requires b.WellFormed() && CellsInRange(b)
    ensures Encode(b) == 0 <==> b == EmptyBoard()
  {
    ValueZeroIff(b.cells);
    if forall i :: 0 <= i < 27 ==> b.cells[i] == 0 {
      assert b.cells == EmptyBoard().cells;
    } else {
      var i :| 0 <= i < 27 && b.cells[i] != 0;
      assert b.cells[i] != EmptyBoard().cells[i];
    }
  }

  /** Digits in {0, 1, 2} have value 0 exactly when they are all 0. */
  lemma {:induction false} ValueZeroIff(s: seq<int>)
    requires Digits3(s)
    ensures Value(s) == 0 <==> forall i :: 0 <= i < |s| ==> s[i] == 0
  {
    if s != [] {
      ValueZeroIff(s[1..]);
      ValueRange(s[1..]);
      if Value(s) == 0 {
        assert s[0] == 0 && Value(s[1..]) == 0;
        forall i | 0 <= i < |s|
          ensures s[i] == 0
        {
          if i > 0 {
            assert s[i] == s[1..][i - 1];
          }
        }
      }
      if forall i :: 0 <= i < |s| ==> s[i] == 0 {
        ValueAllZero(s);
      }
    }
  }

  lemma {:induction false} ValueAllZero(s: seq<int>)
    requires forall i :: 0 <= i < |s| ==> s[i] == 0
    ensures Value(s) == 0
  {
    if s != [] {
      ValueAllZero(s[1..]);
    }
  }

  /** `board_to_number`: sums cell times 3^(x + 3y + 9z) over the source's nested loops. */
  method BoardToNumber(g: Game) returns (output: int)
    requires g.board.WellFormed()
    ensures output == Encode(g.board)
  {
    var cells := g.board.cells;
    output := 0;
    ghost var part: seq<int> := seq(27, _ => 0);
    ValueAllZero(part);
    for x := 0 to 3
      invariant VisitedPrefix(part, cells, x, 0, 0, 0)
      invariant output == Value(part)
    {
      for y := 0 to 3
        invariant VisitedPrefix(part, cells, x, y, 0, 0)
        invariant output == Value(part)
      {
        for z := 0 to 3
          invariant VisitedPrefix(part, cells, x, y, z, 0)
          invariant output == Value(part)
        {
          var i := Idx(x, y, z);
          ValueUpdate(part, i, cells[i]);
          VisitNext(part, cells, x, y, z, 0);
          part := part[i := cells[i]];
          output := output + cells[i] * Pow3(x + 3 * y + 9 * z);
        }
      }
    }
    VisitedAll(part, cells, 0);
  }

  /** Rust's `%` on `i64`: the remainder takes the sign of the dividend. */
  function RemT(a: int, m: int): int
    requires m > 0
  {
    if a >= 0 then a % m else -((-a) % m)
  }

  /** Rust's `/` on `i64`: the quotient is rounded toward zero. */
  function DivT(a: int, m: int): int
    requires m > 0
  {
    if a >= 0 then a / m else -((-a) / m)
  }

  /** The digit `_number_to_board` writes at each step, then the number it continues with. */
  lemma TruncatedStep(num: int)
    requires num >= 0
    ensures RemT(num, 3) == num % 3 && 0 <= RemT(num, 3) <= 2
    ensures Next(num) == num / 3
  {
  }

  /** A negative state number yields a negative cell: nothing rejects it. */
  lemma NegativeNumberGivesNegativeCell(num: int)
    requires num < 0 && num % 3 != 0
    ensures Digits(num, 27)[0] < 0
  {
    DigitsHead(num, 27);
    NegativeRemainder(num);
  }

  /** A negative number not divisible by 3 has a negative truncated remainder. */
  lemma NegativeRemainder(num: int)
    requires num < 0 && num % 3 != 0
    ensures RemT(num, 3) < 0
  {
    var r := num % 3;
    assert -num == 3 * (-(num / 3) - 1) + (3 - r);
    assert (-num) % 3 == 3 - r;
  }

  /** The first cell written is the first truncated remainder. */
  lemma DigitsHead(num: int, k: nat)
    requires k >= 1
    ensures Digits(num, k)[0] == RemT(num, 3)
  {
  }

  /** The k cells the decoding loop writes, one per step, with the source's
      truncating arithmetic (`cell = num % 3; num -= num % 3; num /= 3`). */
  function Digits(num: int, k: nat): (d: seq<int>)
    ensures |d| == k
    decreases k
  {
    if k == 0 then [] else [RemT(num, 3)] + Digits(Next(num), k - 1)
  }

  /** What the decoding loop continues with after writing one digit. */
  function Next(n: int): int
  {
    DivT(n - RemT(n, 3), 3)
  }

  /** The number the decoding loop holds after `p` steps. */
  function Shift(num: int, p: nat): int
    decreases p
  {
    if p == 0 then num else Shift(Next(num), p - 1)
  }

  lemma {:induction false} ShiftStep(num: int, p: nat)
    ensures Shift(num, p + 1) == Next(Shift(num, p))
    decreases p
  {
    if p > 0 {
      ShiftStep(Next(num), p - 1);
    }
  }

  /** The first p + 1 digits are the first p followed by the digit of step p. */
  lemma {:induction false} DigitsSnoc(num: int, p: nat)
    ensures Digits(num, p + 1) == Digits(num, p) + [RemT(Shift(num, p), 3)]
    decreases p
  {
    if p > 0 {
      DigitsSnoc(Next(num), p - 1);
    }
  }

  /** Decoding the value of digits in {0, 1, 2} gives those digits back. */
  lemma {:induction false} DigitsOfValue(s: seq<int>)
    requires Digits3(s)
    ensures Digits(Value(s), |s|) == s
  {
    if s != [] {
      ValueRange(s[1..]);
      var v := Value(s);
      assert v == s[0] + 3 * Value(s[1..]);
      TruncatedStep(v);
      assert v % 3 == s[0] && v / 3 == Value(s[1..]);
      DigitsOfValue(s[1..]);
    }
  }

  /** Every number in [0, 3^k) is the value of its k decoded digits, all in {0, 1, 2}. */
  lemma {:induction false} ValueOfDigits(num: int, k: nat)
    requires 0 <= num < Pow3(k)
    ensures Digits3(Digits(num, k)) && Value(Digits(num, k)) == num
  {
    if k > 0 {
      TruncatedStep(num);
      ValueOfDigits(num / 3, k - 1);
      assert Digits(num, k)[1..] == Digits(num / 3, k - 1);
    }
  }

  /** What a decoder yields: a game, or the position of the index that would panic. */
  datatype DecodeOutcome = Decoded(game: Game) | IndexOutOfBounds(power: nat, index: int)

  /** The first of three array indices that is out of range for a length-3 dimension. */
  function FirstBadIndex(a: int, b: int, c: int): int
  {
    if !(0 <= a < 3) then a else if !(0 <= b < 3) then b else c
  }

  /** `_number_to_board` as written: cell `[power % 3][power / 3][power / 9]` gets the next
      digit.  The middle index reaches 3 at power 9, so every call stops there with an
      out-of-bounds index, whatever the number. */
  method NumberToBoardAsWritten(num: int) returns (r: DecodeOutcome)
    ensures r == IndexOutOfBounds(9, 3)
  {
    var data: seq<int> := EmptyBoard().cells;
    var n := num;
    var power: nat := 0;
    var panic: Option<(nat, int)> := None;
    while power < 27 && panic.None?
      invariant |data| == 27
      invariant power <= 9
      invariant panic.Some? ==> power == 9 && panic.value == (9, 3)
      decreases 27 - power, if panic.None? then 1 else 0
    {
      var a, b, c := power % 3, power / 3, power / 9;
      if 0 <= a < 3 && 0 <= b < 3 && 0 <= c < 3 {
        data := data[Idx(a, b, c) := RemT(n, 3)];
        n := n - RemT(n, 3);
        n := DivT(n, 3);
        power := power + 1;
      } else {
        panic := Some((power, FirstBadIndex(a, b, c)));
      }
    }
    r := if panic.Some? then IndexOutOfBounds(panic.value.0, panic.value.1)
         else Decoded(Game(Board(data), 1));
  }

  /** `_number_to_board` with the middle index taken mod 3: cell (power % 3, (power / 3) % 3,
      power / 9), which is flat position `power`, gets base-3 digit `power` of the number.
      The player is always 1. */
  method NumberToBoard(num: int) returns (g: Game)
    ensures g.board.WellFormed()
    ensures g.board.cells == Digits(num, 27) && g.player == 1
  {
    var data: seq<int> := EmptyBoard().cells;
    var n := num;
    for power := 0 to 27
      invariant |data| == 27
      invariant n == Shift(num, power)
      invariant data[..power] == Digits(num, power)
    {
      data, n := DecodeDigit(num, power, data, n);
    }
    assert data == data[..27];
    g := Game(Board(data), 1);
  }

  /** One pass of the corrected decoding loop: digit `power` goes to cell
      (power % 3, (power / 3) % 3, power / 9), which is flat position `power`; then
      `num -= num % 3; num /= 3`. */
  method DecodeDigit(num: int, power: nat, data: seq<int>, n: int) returns (written: seq<int>, rest: int)
    requires power < 27 && |data| == 27
    requires n == Shift(num, power) && data[..power] == Digits(num, power)
    ensures |written| == 27 && written[..power + 1] == Digits(num, power + 1)
    ensures rest == Shift(num, power + 1)
  {
    Coords(power);
    DigitsSnoc(num, power);
    ShiftStep(num, power);
    SetNextDigit(data, power, RemT(n, 3));
    var i: nat := Idx(power % 3, (power / 3) % 3, power / 9);
    written := data[i := RemT(n, 3)];
    rest := n - RemT(n, 3);
    rest := DivT(rest, 3);
  }

  /** Writing position p after a prefix of length p extends the prefix by that digit. */
  lemma SetNextDigit(data: seq<int>, p: nat, v: int)
    requires p < |data|
    ensures data[p := v][..p + 1] == data[..p] + [v]
  {
    assert forall k :: 0 <= k < p ==> data[p := v][k] == data[k];
  }

  /** Decoding the state number of a board with cells in {0, 1, 2} gives back that board. */
  lemma DecodeEncode(b: Board)
    requires b.WellFormed() && CellsInRange(b)
    ensures Board(Digits(Encode(b), 27)) == b
  {
    DigitsOfValue(b.cells);
  }

  /** Encoding the decoded board of any number in [0, 3^27) gives back that number. */
  lemma EncodeDecode(num: int)
    requires 0 <= num < Pow3(27)
    ensures CellsInRange(Board(Digits(num, 27)))
    ensures Encode(Board(Digits(num, 27))) == num
  {
    ValueOfDigits(num, 27);
  }

  /** Two boards with cells in {0, 1, 2} have the same state number only if they are equal. */
  lemma EncodeInjective(b1: Board, b2: Board)
    requires b1.WellFormed() && CellsInRange(b1) && b2.WellFormed() && CellsInRange(b2)
    requires Encode(b1) == Encode(b2)
    ensures b1 == b2
  {
    DecodeEncode(b1);
    DecodeEncode(b2);
  }
}
