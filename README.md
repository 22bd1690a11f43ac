# Lights Out puzzle engine

A Dafny model of the puzzle engine inside the `Board` component of a
React Lights Out game. The board is a grid of cells that are lit (`true`)
or off (`false`). A move at a cell inverts that cell and its four
orthogonal neighbours. Neighbours that fall off the board are skipped. The
game is won when every cell is off.

The model has three modules:

- `Grids` (grid.dfy) is the value-level meaning of the engine. A board is
  a `seq<seq<bool>>`. It defines the on-board tests `ValidRow`/`ValidCol`,
  the single-cell flip `Flip`, the five-candidate move `Toggle`, the win
  test `AllOff` (every cell of every row is off) and generation from one
  draw per cell (`Generate`). It also gives two independent reference
  definitions: `Near` (Manhattan distance at most one) for the plus shape,
  and `LitCount` for the win test. The laws relating them are proved here.
- `LightsOut` (board.dfy) is the `Board` class itself. The props
  `nRows`, `nCols` and `chanceLightStartsOn` are constants. The board is an
  `array2<bool>` that a move flips in place, one cell at a time. `hasWon`
  is a field. `Snapshot` reads the array as a board value, so every method
  is proved against the functions of `Grids`.
- `Scenarios` (scenarios.dfy) holds worked examples on small boards.

The random source is a parameter. Each call that builds a board receives
`draws: seq<seq<real>>` with one draw per cell, where `draws[r][c]` is the
draw made for row `r`, column `c`. Row by row, column by column, is the
order in which `Math.random()` is called.

Two behaviours of the source are worth stating plainly, because the
model keeps them:

- `createBoard` raises no error. With zero rows it returns an empty
  board, and it compares `chanceLightStartsOn` as given, without clamping
  (src/Board.js:55-71).
- `hasWon` is not always current. It is set to `false` at construction
  and at restart, whatever the board holds, and it is recomputed only
  after a move (src/Board.js:44-47, 118-122, 163-172). So a board
  generated with a chance of zero (see `NoChanceAllOff`) starts dark but
  not won. The model proves `hasWon <==> AllOff(...)` after each move, and
  `!hasWon` after construction and restart.

`Coordinate(row, col)` stands for two shapes of the source. The move
builds `{row, col}` objects (src/Board.js:146-158), and `matchCoordinates`
reads `{rowIndex, colIndex}` objects (src/Board.js:175-177). Here
`MatchCoordinates` models the latter on its intended shape. Nothing in
the source calls `matchCoordinates`. Applied to the move's `{row, col}`
objects it would compare `undefined` with `undefined` and match every
pair; the model does not represent that.

## Model

| member | source | states |
|---|---|---|
| `Grids.MatchCoordinates` | src/Board.js:175-177 | two coordinates match exactly when they name the same cell |
| `Grids.Plus` | src/Board.js:146-159 | the five visited candidates (current, above, below, left, right) are pairwise distinct and are exactly the positions at Manhattan distance at most one from the target |
| `Grids.Flip` | src/Board.js:130-144 | an on-board position has its cell inverted and nothing else changes; an off-board position leaves the board equal to the input; dimensions are kept |
| `Grids.Toggle` | src/Board.js:126-159 | for any target, on-board or not, each on-board cell near the target is inverted exactly once, every other cell keeps its value, and the dimensions are unchanged |
| `Grids.Generate` | src/Board.js:55-71 | one row per row of draws, one cell per draw, and a cell is lit iff its draw is strictly below the chance |
| `Grids.GenerateShape` | src/Board.js:59-68 | with `nRows` rows of `nCols` draws the board has exactly `nRows` rows of exactly `nCols` cells |
| `Grids.NoChanceAllOff` | src/Board.js:60-65 | with draws in [0, 1) and a chance of at most 0, every generated cell is off |
| `Grids.FullChanceAllLit` | src/Board.js:60-65 | with draws in [0, 1) and a chance of at least 1, every generated cell is lit |
| `Grids.FlipTwice` | src/Board.js:140-144 | flipping the same position twice restores the board |
| `Grids.ToggleTwice` | src/Board.js:146-159 | playing the same move twice restores the board |
| `Grids.ToggleCommutes` | src/Board.js:146-159 | moves at any two coordinates commute |
| `Grids.RowDarkIffNoneLit` | src/Board.js:164-166 | a row has no lit cell iff its lit count is zero |
| `Grids.WonIffNoneLit` | src/Board.js:163-167 | the every/every win test holds iff the board's lit count is zero |
| `LightsOut.Board.constructor` | src/Board.js:40-47 | the board is a newly allocated array with the props' dimensions, generated from the draws; `hasWon` is false regardless of contents |
| `LightsOut.Board.CreateBoard` | src/Board.js:55-71 | returns a newly allocated `nRows` by `nCols` board whose cell (r, c) is lit iff `draws[r][c] < chanceLightStartsOn`, equal to `Generate` |
| `LightsOut.Board.HandleRestart` | src/Board.js:118-123 | the board is replaced by a newly allocated and generated one of the same dimensions and `hasWon` is false unconditionally |
| `LightsOut.Board.FlipCell` | src/Board.js:140-144 | the stored board changes in place exactly as `Flip` says: one cell inverted when on the board, none otherwise |
| `LightsOut.Board.IsWon` | src/Board.js:163-167 | true iff every cell of the stored board is off |
| `LightsOut.Board.FlipCellsAroundMe` | src/Board.js:126-173 | same array and dimensions afterwards; the new contents are `Toggle` of the old; `hasWon` holds iff every cell is now off |
| `LightsOut.RepeatMove` | src/Board.js:126-159 | two identical moves on a board leave its contents as they were, and `hasWon` then says whether the original board was dark |
| `LightsOut.PlayAfterRestart` | src/Board.js:40-173 | a new board, a move, a restart and a move leave a new board whose contents are the move applied to the board generated at restart, with `hasWon` current |
| `Scenarios.CentreToggleLightsPlus` | src/Board.js:146-159 | a move at (1,1) on a dark 3x3 board lights the centre and the four edge midpoints (5 cells), no corner |
| `Scenarios.CornerToggleClips` | src/Board.js:130-159 | a move at (0,0) on a dark 3x3 board lights exactly (0,0), (0,1), (1,0); the off-board neighbours are skipped |
| `Scenarios.WinTestExamples` | src/Board.js:163-167 | a dark 2x2 board is won; one with a lit cell is not |
| `Scenarios.OneByTwoGame` | src/Board.js:126-167 | on `[[true, false]]` a move at (0,0) gives `[[false, true]]`, which is not won, and a move at (0,1) then gives `[[true, false]]` back |

`ValidRow`, `ValidCol` (src/Board.js:130-136) and `AllOff`
(src/Board.js:163-167) are predicates without contracts of their own. The
members above state what they mean.

## Left out

- Rendering (`renderBoard`, `renderRestartButton`, `render`, the `Cell`
  component, the stylesheet). It is presentation only.
- React's `setState`, `bind` and the component lifecycle. State is held
  in the fields of the class instead. In the source a move mutates the
  board array and then hands that same array to `setState`; the model
  mutates the array field in place and assigns `hasWon`.
- `Math.random()`. The draws are an explicit parameter, one per cell.
- Floating point. `chanceLightStartsOn` and the draws are `real` values
  compared exactly.
- `defaultProps` (5 by 5, chance 0.25). These are configuration values
  only.
- Negative or fractional `nRows`/`nCols`. The props are naturals here. In
  the source a negative `nRows` gives an empty board, and a negative or
  fractional `nCols` makes `Array(nCols)` throw when there is at least one
  row.
- Ragged boards. The source's array of row arrays could in principle hold
  rows of different lengths. Every board it builds is rectangular, and the
  model stores an `array2`, which cannot be ragged.
