/** The Lights Out puzzle as values: a board is a sequence of rows of
    booleans (`true` = lit). This module gives the value-level meaning of
    the three engine operations of `Board` (generation, the plus-shaped
    toggle, the win test) and the laws they obey; the class in module
    LightsOut is proved against these definitions. */
module Grids {

  /** Row-major board value; `g[r][c]` is the cell in row `r`, column `c`. */
  type Grid = seq<seq<bool>>

  /** A cell position; row and column may lie outside the board. */
  datatype Coordinate = Coordinate(row: int, col: int)

  /** `g` has exactly `nRows` rows of exactly `nCols` cells each. */
  predicate Shaped<T>(g: seq<seq<T>>, nRows: nat, nCols: nat) {
    |g| == nRows && forall r :: 0 <= r < |g| ==> |g[r]| == nCols
  }

  /** `row` names an existing row of a board with `nRows` rows. */
  predicate ValidRow(nRows: nat, row: int) {
    row >= 0 && row < nRows
  }

  /** `col` names an existing column of a board with `nCols` columns. */
  predicate ValidCol(nCols: nat, col: int) {
    col >= 0 && col < nCols
  }

  /** Two coordinates name the same cell exactly when both components agree. */
  function MatchCoordinates(first: Coordinate, second: Coordinate): (m: bool)
    ensures m <==> first == second
  {
    first.row == second.row && first.col == second.col
  }

  function Abs(x: int): (a: nat) {
    if x < 0 then -x else x
  }

  /** Reference definition of the plus shape: `q` is `at` itself or one of its
      four orthogonal neighbours (Manhattan distance at most one). */
  predicate Near(at: Coordinate, q: Coordinate) {
    Abs(at.row - q.row) + Abs(at.col - q.col) <= 1
  }

  /** The five candidates a toggle at `at` visits, in the order it visits
      them: the cell itself, above, below, left, right. */
  function Plus(at: Coordinate): (p: seq<Coordinate>)
    ensures |p| == 5 && p[0] == at
    ensures forall i, j :: 0 <= i < j < |p| ==> p[i] != p[j]
    ensures forall q :: q in p <==> Near(at, q)
  {
    [ at,
      Coordinate(at.row - 1, at.col),
      Coordinate(at.row + 1, at.col),
      Coordinate(at.row, at.col - 1),
      Coordinate(at.row, at.col + 1) ]
  }

  /** Inverts the cell at `at` when it lies on the board; a position off
      the board is skipped without error and without a write. */
  function Flip(g: Grid, nRows: nat, nCols: nat, at: Coordinate): (h: Grid)
    requires Shaped(g, nRows, nCols)
    ensures Shaped(h, nRows, nCols)
    ensures !(ValidRow(nRows, at.row) && ValidCol(nCols, at.col)) ==> h == g
    ensures forall r, c :: 0 <= r < nRows && 0 <= c < nCols ==>
      h[r][c] == (if r == at.row && c == at.col then !g[r][c] else g[r][c])
  {
    if ValidRow(nRows, at.row) && ValidCol(nCols, at.col) then
      g[at.row := g[at.row][at.col := !g[at.row][at.col]]]
    else
      g
  }

  /** The move at `at`: flip the five candidates of `Plus(at)` one after
      the other. The result inverts exactly the on-board cells near `at`
      and keeps every other cell and the board's dimensions. */
  function Toggle(g: Grid, nRows: nat, nCols: nat, at: Coordinate): (h: Grid)
    requires Shaped(g, nRows, nCols)
    ensures Shaped(h, nRows, nCols)
    ensures forall r, c :: 0 <= r < nRows && 0 <= c < nCols ==>
      h[r][c] == (if Near(at, Coordinate(r, c)) then !g[r][c] else g[r][c])
  {
    var p := Plus(at);
    var current := Flip(g, nRows, nCols, p[0]);
    var above := Flip(current, nRows, nCols, p[1]);
    var below := Flip(above, nRows, nCols, p[2]);
    var left := Flip(below, nRows, nCols, p[3]);
    Flip(left, nRows, nCols, p[4])
  }

  /** The win test: every cell of every row is off. */
  predicate AllOff(g: Grid) {
    forall r :: 0 <= r < |g| ==> forall c :: 0 <= c < |g[r]| ==> !g[r][c]
  }

  /** Reference count of lit cells in one row. */
  function RowLit(row: seq<bool>): (n: nat) {
    if row == [] then 0 else (if row[0] then 1 else 0) + RowLit(row[1..])
  }

  /** Reference count of lit cells on a board. */
  function LitCount(g: Grid): (n: nat) {
    if g == [] then 0 else RowLit(g[0]) + LitCount(g[1..])
  }

  /** Every draw is a value a uniform source in [0, 1) can produce. */
  predicate DrawsInUnit(draws: seq<seq<real>>) {
    forall r, c :: 0 <= r < |draws| && 0 <= c < |draws[r]| ==> 0.0 <= draws[r][c] < 1.0
  }

  /** The board built from one draw per cell: a cell starts lit exactly when
      its draw is strictly below `chance`. */
  function Generate(draws: seq<seq<real>>, chance: real): (g: Grid)
    ensures |g| == |draws|
    ensures forall r :: 0 <= r < |g| ==> |g[r]| == |draws[r]|
    ensures forall r, c :: 0 <= r < |g| && 0 <= c < |g[r]| ==>
      (g[r][c] <==> draws[r][c] < chance)
  {
    seq(|draws|, r requires 0 <= r < |draws| =>
      seq(|draws[r]|, c requires 0 <= c < |draws[r]| => draws[r][c] < chance))
  }

  // ---------------------------------------------------------------------
  // Laws

  /** Two boards of the same shape that agree on every cell are equal. */
  lemma SameCells(a: Grid, b: Grid, nRows: nat, nCols: nat)
    requires Shaped(a, nRows, nCols) && Shaped(b, nRows, nCols)
    requires forall r, c :: 0 <= r < nRows && 0 <= c < nCols ==> a[r][c] == b[r][c]
    ensures a == b
  {
    forall r | 0 <= r < nRows
      ensures a[r] == b[r]
    {
      assert |a[r]| == |b[r]| == nCols;
    }
  }

  /** Generation keeps the requested dimensions. */
  lemma GenerateShape(draws: seq<seq<real>>, chance: real, nRows: nat, nCols: nat)
    requires Shaped(draws, nRows, nCols)
    ensures Shaped(Generate(draws, chance), nRows, nCols)
  {
  }

  /** With a chance of zero (or less) no cell starts lit. */
  lemma NoChanceAllOff(draws: seq<seq<real>>, chance: real)
    requires DrawsInUnit(draws) && chance <= 0.0
    ensures AllOff(Generate(draws, chance))
  {
  }

  /** With a chance of one (or more) every cell starts lit. */
  lemma FullChanceAllLit(draws: seq<seq<real>>, chance: real)
    requires DrawsInUnit(draws) && chance >= 1.0
    ensures forall r, c :: 0 <= r < |draws| && 0 <= c < |draws[r]| ==>
      Generate(draws, chance)[r][c]
  {
  }

  /** Flipping the same position twice restores the board. */
  lemma {:induction false} FlipTwice(g: Grid, nRows: nat, nCols: nat, at: Coordinate)
    requires Shaped(g, nRows, nCols)
    ensures Flip(Flip(g, nRows, nCols, at), nRows, nCols, at) == g
  {
    var h := Flip(Flip(g, nRows, nCols, at), nRows, nCols, at);
    SameCells(h, g, nRows, nCols);
  }

  /** Toggling the same coordinate twice restores the board. */
  lemma {:induction false} ToggleTwice(g: Grid, nRows: nat, nCols: nat, at: Coordinate)
    requires Shaped(g, nRows, nCols)
    ensures Toggle(Toggle(g, nRows, nCols, at), nRows, nCols, at) == g
  {
    var h := Toggle(Toggle(g, nRows, nCols, at), nRows, nCols, at);
    SameCells(h, g, nRows, nCols);
  }

  /** Toggles at different coordinates commute, so a set of moves can be
      played in any order. */
  lemma {:induction false} ToggleCommutes(g: Grid, nRows: nat, nCols: nat, a: Coordinate, b: Coordinate)
    requires Shaped(g, nRows, nCols)
    ensures Toggle(Toggle(g, nRows, nCols, a), nRows, nCols, b)
         == Toggle(Toggle(g, nRows, nCols, b), nRows, nCols, a)
  {
    var ga, gb := Toggle(g, nRows, nCols, a), Toggle(g, nRows, nCols, b);
    var ab, ba := Toggle(ga, nRows, nCols, b), Toggle(gb, nRows, nCols, a);
    forall r, c | 0 <= r < nRows && 0 <= c < nCols
      ensures ab[r][c] == ba[r][c]
    {
      var q := Coordinate(r, c);
      assert ab[r][c] == (if Near(b, q) then !ga[r][c] else ga[r][c]);
      assert ba[r][c] == (if Near(a, q) then !gb[r][c] else gb[r][c]);
    }
    SameCells(ab, ba, nRows, nCols);
  }

  /** A row has no lit cell exactly when its lit count is zero. */
  lemma {:induction false} RowDarkIffNoneLit(row: seq<bool>)
    ensures (forall c :: 0 <= c < |row| ==> !row[c]) <==> RowLit(row) == 0
  {
    if row != [] {
      RowDarkIffNoneLit(row[1..]);
      assert forall c :: 1 <= c < |row| ==> row[c] == row[1..][c - 1];
    }
  }

  /** The win test agrees with counting: a board is won exactly when no
      cell is lit. */
  lemma {:induction false} WonIffNoneLit(g: Grid)
    ensures AllOff(g) <==> LitCount(g) == 0
  {
    if g != [] {
      RowDarkIffNoneLit(g[0]);
      WonIffNoneLit(g[1..]);
      assert forall r :: 1 <= r < |g| ==> g[r] == g[1..][r - 1];
    }
  }
}
