/** Worked examples of the engine on small boards: the plus shape on a
    dark 3 by 3 board, clipping at a corner, the win test, and a short game
    on a 1 by 2 board. */
module Scenarios {
  import opened Grids

  const Dark3: Grid := [[false, false, false], [false, false, false], [false, false, false]]

  /** A toggle in the middle of a dark 3 by 3 board lights the centre and
      the four edge midpoints, and no corner. */
  lemma CentreToggleLightsPlus()
    ensures Toggle(Dark3, 3, 3, Coordinate(1, 1))
         == [[false, true, false], [true, true, true], [false, true, false]]
    ensures LitCount(Toggle(Dark3, 3, 3, Coordinate(1, 1))) == 5
  {
    var h := Toggle(Dark3, 3, 3, Coordinate(1, 1));
    SameCells(h, [[false, true, false], [true, true, true], [false, true, false]], 3, 3);
  }

  /** A toggle in a corner of a dark 3 by 3 board lights only the corner and
      its two on-board neighbours; the off-board neighbours are skipped. */
  lemma CornerToggleClips()
    ensures Toggle(Dark3, 3, 3, Coordinate(0, 0))
         == [[true, true, false], [true, false, false], [false, false, false]]
    ensures LitCount(Toggle(Dark3, 3, 3, Coordinate(0, 0))) == 3
  {
    var h := Toggle(Dark3, 3, 3, Coordinate(0, 0));
    SameCells(h, [[true, true, false], [true, false, false], [false, false, false]], 3, 3);
  }

  /** The win test on two 2 by 2 boards. */
  lemma WinTestExamples()
    ensures AllOff([[false, false], [false, false]])
    ensures !AllOff([[false, true], [false, false]])
  {
    assert [[false, true], [false, false]][0][1];
  }

  /** A short game on a 1 by 2 board: the first move flips both cells and
      does not win; a move on the other cell flips both back. */
  lemma OneByTwoGame()
    ensures Toggle([[true, false]], 1, 2, Coordinate(0, 0)) == [[false, true]]
    ensures !AllOff([[false, true]])
    ensures Toggle([[false, true]], 1, 2, Coordinate(0, 1)) == [[true, false]]
  {
    SameCells(Toggle([[true, false]], 1, 2, Coordinate(0, 0)), [[false, true]], 1, 2);
    SameCells(Toggle([[false, true]], 1, 2, Coordinate(0, 1)), [[true, false]], 1, 2);
    assert [[false, true]][0][1];
  }
}
