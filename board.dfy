/** The `Board` component's puzzle state: the props it is configured with,
    the board it flips in place and the `hasWon` flag it derives after each
    move. The random source is injected as one draw per cell. */
module LightsOut {
  import opened Grids

  /** The board value held by an array. */
  ghost function Snapshot(a: array2<bool>): (g: Grid)
    reads a
    ensures Shaped(g, a.Length0, a.Length1)
    ensures forall r, c :: 0 <= r < a.Length0 && 0 <= c < a.Length1 ==> g[r][c] == a[r, c]
  {
    seq(a.Length0, r requires 0 <= r < a.Length0 reads a =>
      seq(a.Length1, c requires 0 <= c < a.Length1 reads a => a[r, c]))
  }

  class Board {
    const nRows: nat
    const nCols: nat
    const chanceLightStartsOn: real

    var board: array2<bool>
    var hasWon: bool

    /** The board always has the dimensions the props ask for. */
    ghost predicate Valid()
      reads this
    {
      board.Length0 == nRows && board.Length1 == nCols
    }

    /** Starts a game on the board generated from `draws`; the game is
        never reported as won at the start, whatever the board holds. */
    constructor (nRows: nat, nCols: nat, chanceLightStartsOn: real, draws: seq<seq<real>>)
      requires Shaped(draws, nRows, nCols)
      ensures this.nRows == nRows && this.nCols == nCols
      ensures this.chanceLightStartsOn == chanceLightStartsOn
      ensures Valid() && fresh(board)
      ensures Snapshot(board) == Generate(draws, chanceLightStartsOn)
      ensures !hasWon
    {
      this.nRows := nRows;
      this.nCols := nCols;
      this.chanceLightStartsOn := chanceLightStartsOn;
      board := new bool[0, 0];
      hasWon := false;
      new;
      board := CreateBoard(draws);
    }

    /** Builds a fresh `nRows` by `nCols` board, row by row; the cell at
        (r, c) is lit exactly when `draws[r][c] < chanceLightStartsOn`. */
    method CreateBoard(draws: seq<seq<real>>) returns (b: array2<bool>)
      requires Shaped(draws, nRows, nCols)
      ensures fresh(b)
      ensures b.Length0 == nRows && b.Length1 == nCols
      ensures forall r, c :: 0 <= r < nRows && 0 <= c < nCols ==>
        (b[r, c] <==> draws[r][c] < chanceLightStartsOn)
      ensures Snapshot(b) == Generate(draws, chanceLightStartsOn)
    {
      b := new bool[nRows, nCols];
      for row := 0 to nRows
        invariant forall r, c :: 0 <= r < row && 0 <= c < nCols ==>
          (b[r, c] <==> draws[r][c] < chanceLightStartsOn)
      {
        for col := 0 to nCols
          invariant forall r, c :: 0 <= r < row && 0 <= c < nCols ==>
            (b[r, c] <==> draws[r][c] < chanceLightStartsOn)
          invariant forall c :: 0 <= c < col ==>
            (b[row, c] <==> draws[row][c] < chanceLightStartsOn)
        {
          b[row, col] := draws[row][col] < chanceLightStartsOn;
        }
      }
      SameCells(Snapshot(b), Generate(draws, chanceLightStartsOn), nRows, nCols);
    }

    /** A new game on the same props: a freshly generated board and the
        win flag cleared unconditionally. */
    method HandleRestart(draws: seq<seq<real>>)
      requires Valid() && Shaped(draws, nRows, nCols)
      modifies this
      ensures Valid() && fresh(board)
      ensures Snapshot(board) == Generate(draws, chanceLightStartsOn)
      ensures !hasWon
    {
      var b := CreateBoard(draws);
      board := b;
      hasWon := false;
    }

    /** Inverts the cell at `at` in place when it is on the board; a
        position off the board is skipped. */
    method FlipCell(at: Coordinate)
      requires Valid()
      modifies board
      ensures Snapshot(board) == Flip(old(Snapshot(board)), nRows, nCols, at)
    {
      ghost var before := Snapshot(board);
      if ValidRow(nRows, at.row) && ValidCol(nCols, at.col) {
        board[at.row, at.col] := !board[at.row, at.col];
      }
      SameCells(Snapshot(board), Flip(before, nRows, nCols, at), nRows, nCols);
    }

    /** The win test over the stored board: every cell of every row is off. */
    function IsWon(): (w: bool)
      reads this, board
      ensures w <==> AllOff(Snapshot(board))
    {
      forall r, c | 0 <= r < board.Length0 && 0 <= c < board.Length1 :: !board[r, c]
    }

    /** The move at (row, col): flips the cell and its four orthogonal
        neighbours that are on the board, then records whether every cell
        is now off. The array itself and its dimensions stay the same. */
    method FlipCellsAroundMe(row: int, col: int)
      requires Valid()
      modifies this, board
      ensures Valid() && board == old(board)
      ensures Snapshot(board) == Toggle(old(Snapshot(board)), nRows, nCols, Coordinate(row, col))
      ensures hasWon <==> AllOff(Snapshot(board))
    {
      FlipCell(Coordinate(row, col));
      FlipCell(Coordinate(row - 1, col));
      FlipCell(Coordinate(row + 1, col));
      FlipCell(Coordinate(row, col - 1));
      FlipCell(Coordinate(row, col + 1));
      hasWon := IsWon();
    }
  }

  /** Playing the same move twice on a board puts every cell back, and the
      win flag then describes the original board. */
  method RepeatMove(b: Board, row: int, col: int)
    requires b.Valid()
    modifies b, b.board
    ensures b.Valid() && b.board == old(b.board)
    ensures Snapshot(b.board) == old(Snapshot(b.board))
    ensures b.hasWon <==> AllOff(old(Snapshot(b.board)))
  {
    b.FlipCellsAroundMe(row, col);
    b.FlipCellsAroundMe(row, col);
    ToggleTwice(old(Snapshot(b.board)), b.nRows, b.nCols, Coordinate(row, col));
  }

  /** A game as the page plays it: a new board, a move, a restart and a
      move on the restarted board. Each board is a new array, so a move on
      it touches nothing the caller held before. */
  method PlayAfterRestart(nRows: nat, nCols: nat, chance: real,
                          first: seq<seq<real>>, second: seq<seq<real>>,
                          row: int, col: int) returns (b: Board)
    requires Shaped(first, nRows, nCols) && Shaped(second, nRows, nCols)
    ensures fresh(b) && fresh(b.board) && b.Valid()
    ensures Snapshot(b.board) == Toggle(Generate(second, chance), nRows, nCols, Coordinate(row, col))
    ensures b.hasWon <==> AllOff(Snapshot(b.board))
  {
    b := new Board(nRows, nCols, chance, first);
    b.FlipCellsAroundMe(row, col);
    b.HandleRestart(second);
    b.FlipCellsAroundMe(row, col);
  }
}
