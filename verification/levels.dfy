/**
 * Level patterns and progression. A pattern is a grid of brick types,
 * -1 for an empty cell.
 */
module Levels {
  import opened Wrappers
  import opened Config
  import opened Geometry
  import opened Entities

  /** The five shipped levels: rows, checkerboard, diamond, fortress, final challenge. */
  const LevelPatterns: seq<seq<seq<int>>> := [
    [
      [0, 0, 0, 0, 0, 0, 0, 0, 0],
      [1, 1, 1, 1, 1, 1, 1, 1, 1],
      [2, 2, 2, 2, 2, 2, 2, 2, 2],
      [3, 3, 3, 3, 3, 3, 3, 3, 3],
      [4, 4, 4, 4, 4, 4, 4, 4, 4]
    ],
    [
      [0, -1, 1, -1, 2, -1, 1, -1, 0],
      [-1, 3, -1, 4, -1, 4, -1, 3, -1],
      [2, -1, 5, -1, 6, -1, 5, -1, 2],
      [-1, 3, -1, 4, -1, 4, -1, 3, -1],
      [0, -1, 1, -1, 2, -1, 1, -1, 0]
    ],
    [
      [-1, -1, -1, -1, 7, -1, -1, -1, -1],
      [-1, -1, -1, 5, 6, 5, -1, -1, -1],
      [-1, -1, 3, 4, 5, 4, 3, -1, -1],
      [-1, 1, 2, 3, 4, 3, 2, 1, -1],
      [0, 1, 2, 3, 4, 3, 2, 1, 0],
      [-1, 1, 2, 3, 4, 3, 2, 1, -1],
      [-1, -1, 3, 4, 5, 4, 3, -1, -1]
    ],
    [
      [8, 8, 8, -1, 9, -1, 8, 8, 8],
      [7, -1, 7, -1, 9, -1, 7, -1, 7],
      [6, -1, 6, 6, 6, 6, 6, -1, 6],
      [5, -1, -1, -1, -1, -1, -1, -1, 5],
      [4, 4, 4, 4, 4, 4, 4, 4, 4],
      [3, 3, 3, 3, 3, 3, 3, 3, 3]
    ],
    [
      [9, 9, 9, 9, 9, 9, 9, 9, 9],
      [8, 8, 8, 8, 8, 8, 8, 8, 8],
      [7, 7, -1, 7, 7, 7, -1, 7, 7],
      [6, 6, -1, 6, 6, 6, -1, 6, 6],
      [5, 5, 5, 5, 5, 5, 5, 5, 5],
      [4, -1, 4, -1, 4, -1, 4, -1, 4],
      [3, 3, 3, 3, 3, 3, 3, 3, 3],
      [2, 2, 2, 2, 2, 2, 2, 2, 2]
    ]
  ]

  /** A brick to place: its top-left corner and its type. */
  datatype Cell = Cell(x: int, y: int, brickType: int)

  /** The left edge of grid column `col`. */
  function CellX(col: int): int
  {
    BrickLeftOffset + col * (BrickWidth + BrickPadding)
  }

  /** The top edge of grid row `row`. */
  function CellY(row: int): int
  {
    BrickTopOffset + row * (BrickHeight + BrickPadding)
  }

  /** The brick the cell at (row, col) of type `t` becomes. */
  function CellAt(row: int, col: int, t: int): Cell
  {
    Cell(CellX(col), CellY(row), t)
  }

  /** The bricks of one pattern row, left to right, skipping -1 cells. */
  function RowLayout(row: seq<int>, r: int): seq<Cell>
  {
    if |row| == 0 then []
    else
      var c := |row| - 1;
      RowLayout(row[..c], r) + (if row[c] >= 0 then [CellAt(r, c, row[c])] else [])
  }

  /** The bricks of a pattern in row-major order. */
  function Layout(p: seq<seq<int>>): seq<Cell>
  {
    if |p| == 0 then []
    else
      var r := |p| - 1;
      Layout(p[..r]) + RowLayout(p[r], r)
  }

  /** Row-major order of brick positions: higher rows first, then left to right. */
  predicate Before(a: Cell, b: Cell)
  {
    a.y < b.y || (a.y == b.y && a.x < b.x)
  }

  predicate RowMajor(cs: seq<Cell>)
  {
    forall i, j :: 0 <= i < j < |cs| ==> Before(cs[i], cs[j])
  }

  /** A cell of a row yields a brick iff it is not -1; they come out left to right. */
  lemma {:induction false} RowLayoutSpec(row: seq<int>, r: int)
    ensures forall x :: x in RowLayout(row, r) <==>
      exists c :: 0 <= c < |row| && row[c] >= 0 && x == CellAt(r, c, row[c])
    ensures forall k :: 0 <= k < |RowLayout(row, r)| ==>
      RowLayout(row, r)[k].y == CellY(r) && RowLayout(row, r)[k].x < CellX(|row|)
    ensures RowMajor(RowLayout(row, r))
  {
    if |row| > 0 {
      var c := |row| - 1;
      var prefix := row[..c];
      RowLayoutSpec(prefix, r);
      var last := if row[c] >= 0 then [CellAt(r, c, row[c])] else [];
      assert RowLayout(row, r) == RowLayout(prefix, r) + last;
      forall x
        ensures x in RowLayout(row, r) <==>
          exists c' :: 0 <= c' < |row| && row[c'] >= 0 && x == CellAt(r, c', row[c'])
      {
        if x in RowLayout(prefix, r) {
          var c' :| 0 <= c' < |prefix| && prefix[c'] >= 0 && x == CellAt(r, c', prefix[c']);
          assert row[c'] == prefix[c'];
        }
        if exists c' :: 0 <= c' < |row| && row[c'] >= 0 && x == CellAt(r, c', row[c']) {
          var c' :| 0 <= c' < |row| && row[c'] >= 0 && x == CellAt(r, c', row[c']);
          if c' < c {
            assert prefix[c'] == row[c'];
          }
        }
      }
    }
  }

  /** Every cell with a type yields a brick at its grid position, and nothing else does. */
  lemma {:induction false} LayoutSpec(p: seq<seq<int>>)
    ensures forall x :: x in Layout(p) <==>
      exists r, c :: 0 <= r < |p| && 0 <= c < |p[r]| && p[r][c] >= 0 && x == CellAt(r, c, p[r][c])
  {
    if |p| > 0 {
      var r := |p| - 1;
      var prefix := p[..r];
      LayoutSpec(prefix);
      RowLayoutSpec(p[r], r);
      assert Layout(p) == Layout(prefix) + RowLayout(p[r], r);
      forall x
        ensures x in Layout(p) <==>
          exists r', c :: 0 <= r' < |p| && 0 <= c < |p[r']| && p[r'][c] >= 0 && x == CellAt(r', c, p[r'][c])
      {
        if x in Layout(prefix) {
          var r', c :| 0 <= r' < |prefix| && 0 <= c < |prefix[r']| && prefix[r'][c] >= 0 &&
            x == CellAt(r', c, prefix[r'][c]);
          assert p[r'] == prefix[r'];
        }
        if x in RowLayout(p[r], r) {
          var c :| 0 <= c < |p[r]| && p[r][c] >= 0 && x == CellAt(r, c, p[r][c]);
        }
        if exists r', c :: 0 <= r' < |p| && 0 <= c < |p[r']| && p[r'][c] >= 0 && x == CellAt(r', c, p[r'][c]) {
          var r', c :| 0 <= r' < |p| && 0 <= c < |p[r']| && p[r'][c] >= 0 && x == CellAt(r', c, p[r'][c]);
          if r' < r {
            assert prefix[r'] == p[r'];
            assert x in Layout(prefix);
          } else {
            assert x in RowLayout(p[r], r);
          }
        }
      }
    }
  }

  /** The bricks come out in row-major order, all above the row after the last. */
  lemma {:induction false} LayoutRowMajor(p: seq<seq<int>>)
    ensures forall k :: 0 <= k < |Layout(p)| ==> Layout(p)[k].y < CellY(|p|)
    ensures RowMajor(Layout(p))
  {
    if |p| > 0 {
      var r := |p| - 1;
      var prefix := p[..r];
      LayoutRowMajor(prefix);
      RowLayoutSpec(p[r], r);
      var all := Layout(p);
      var n := |Layout(prefix)|;
      assert all == Layout(prefix) + RowLayout(p[r], r);
      forall i, j | 0 <= i < j < |all| ensures Before(all[i], all[j]) {
        if j < n {
          assert all[i] == Layout(prefix)[i] && all[j] == Layout(prefix)[j];
        } else if i < n {
          assert all[i] == Layout(prefix)[i];
          assert all[j] == RowLayout(p[r], r)[j - n];
        } else {
          assert all[i] == RowLayout(p[r], r)[i - n] && all[j] == RowLayout(p[r], r)[j - n];
        }
      }
    }
  }

  /** A row of BrickCols cells, each -1 or a brick type 0-9. */
  predicate RowOK(row: seq<int>)
  {
    |row| == BrickCols && forall c :: 0 <= c < |row| ==> -1 <= row[c] < BrickTypes
  }

  /** Every row of the pattern is a proper row. */
  predicate WellFormed(p: seq<seq<int>>)
  {
    forall r :: 0 <= r < |p| ==> RowOK(p[r])
  }

  lemma ShippedPatternsWellFormed()
    ensures |LevelPatterns| == 5
    ensures forall l :: 0 <= l < |LevelPatterns| ==> |LevelPatterns[l]| <= 8 && WellFormed(LevelPatterns[l])
  {
    forall l | 0 <= l < |LevelPatterns|
      ensures |LevelPatterns[l]| <= 8 && WellFormed(LevelPatterns[l])
    {
      var p := LevelPatterns[l];
      forall r | 0 <= r < |p| ensures RowOK(p[r]) {
        var row := p[r];
        assert |row| == BrickCols;
        forall c | 0 <= c < |row| ensures -1 <= row[c] < BrickTypes {
        }
      }
    }
  }

  lemma CellOnScreen(r: int, c: int, t: int)
    requires 0 <= r < 8 && 0 <= c < BrickCols && 0 <= t < BrickTypes
    ensures var x := CellAt(r, c, t);
      0 <= x.x && x.x + BrickWidth <= ScreenWidth && 0 <= x.y && x.y + BrickHeight <= ScreenHeight
  {
  }

  /** In a well-formed pattern every brick has a known type and lies inside the screen. */
  lemma LayoutOnScreen(p: seq<seq<int>>)
    requires WellFormed(p) && |p| <= 8
    ensures forall x :: x in Layout(p) ==>
      0 <= x.brickType < BrickTypes &&
      0 <= x.x && x.x + BrickWidth <= ScreenWidth &&
      0 <= x.y && x.y + BrickHeight <= ScreenHeight
  {
    LayoutSpec(p);
    forall x | x in Layout(p)
      ensures 0 <= x.brickType < BrickTypes
      ensures 0 <= x.x && x.x + BrickWidth <= ScreenWidth
      ensures 0 <= x.y && x.y + BrickHeight <= ScreenHeight
    {
      var r, c :| 0 <= r < |p| && 0 <= c < |p[r]| && p[r][c] >= 0 && x == CellAt(r, c, p[r][c]);
      assert RowOK(p[r]);
      CellOnScreen(r, c, p[r][c]);
    }
  }

  /** The bricks of shipped level `level` (0-based). */
  function LevelLayout(level: nat): seq<Cell>
    requires level < |LevelPatterns|
  {
    Layout(LevelPatterns[level])
  }

  /** The layout of placed bricks, read off their (constant) position and type. */
  function Cells(bricks: seq<Brick>): (cs: seq<Cell>)
    ensures |cs| == |bricks|
    ensures forall i :: 0 <= i < |bricks| ==>
      cs[i] == Cell(bricks[i].rect.left, bricks[i].rect.top, bricks[i].brickType)
  {
    seq(|bricks|, i requires 0 <= i < |bricks| => Cell(bricks[i].rect.left, bricks[i].rect.top, bricks[i].brickType))
  }

  lemma CellsAppend(a: seq<Brick>, b: seq<Brick>)
    ensures Cells(a + b) == Cells(a) + Cells(b)
  {
  }

  /** Build the bricks of one pattern row, left to right, skipping empty cells. */
  method PlaceRow(row: seq<int>, r: int) returns (bricks: seq<Brick>)
    requires forall c :: 0 <= c < |row| ==> -1 <= row[c] < BrickTypes
    ensures Cells(bricks) == RowLayout(row, r)
    ensures forall i :: 0 <= i < |bricks| ==>
      fresh(bricks[i]) && bricks[i].Valid() && bricks[i].health == BrickHealthNormal
    ensures forall i, j :: 0 <= i < j < |bricks| ==> bricks[i] != bricks[j]
  {
    bricks := [];
    var c := 0;
    while c < |row|
      invariant 0 <= c <= |row|
      invariant Cells(bricks) == RowLayout(row[..c], r)
      invariant forall i :: 0 <= i < |bricks| ==>
        fresh(bricks[i]) && bricks[i].Valid() && bricks[i].health == BrickHealthNormal
      invariant forall i, j :: 0 <= i < j < |bricks| ==> bricks[i] != bricks[j]
    {
      var brickType := row[c];
      if brickType >= 0 {
        var brick := new Brick(CellX(c), CellY(r), brickType);
        bricks := bricks + [brick];
      }
      assert row[..c + 1][..c] == row[..c];
      c := c + 1;
    }
    assert row[..c] == row;
  }

  /** Build one brick per non-empty cell, row by row and left to right. */
  method PlaceBricks(pattern: seq<seq<int>>) returns (bricks: seq<Brick>)
    requires WellFormed(pattern)
    ensures Cells(bricks) == Layout(pattern)
    ensures forall i :: 0 <= i < |bricks| ==>
      fresh(bricks[i]) && bricks[i].Valid() && bricks[i].health == BrickHealthNormal
    ensures forall i, j :: 0 <= i < j < |bricks| ==> bricks[i] != bricks[j]
  {
    bricks := [];
    var r := 0;
    while r < |pattern|
      invariant 0 <= r <= |pattern|
      invariant Cells(bricks) == Layout(pattern[..r])
      invariant forall i :: 0 <= i < |bricks| ==>
        fresh(bricks[i]) && bricks[i].Valid() && bricks[i].health == BrickHealthNormal
      invariant forall i, j :: 0 <= i < j < |bricks| ==> bricks[i] != bricks[j]
    {
      assert RowOK(pattern[r]);
      var rowBricks := PlaceRow(pattern[r], r);
      CellsAppend(bricks, rowBricks);
      assert pattern[..r + 1][..r] == pattern[..r];
      bricks := bricks + rowBricks;
      r := r + 1;
    }
    assert pattern[..r] == pattern;
  }

  class LevelManager {
    var currentLevel: nat
    const totalLevels: nat

    constructor ()
      ensures currentLevel == 0 && totalLevels == |LevelPatterns|
    {
      currentLevel := 0;
      totalLevels := |LevelPatterns|;
    }

    /**
     * The bricks of the current level (after switching to `levelNum` when one
     * is given), fresh and at full health; none once past the last level.
     */
    method GetLevelBricks(levelNum: Option<nat>) returns (bricks: seq<Brick>)
      requires totalLevels == |LevelPatterns|
      modifies this
      ensures currentLevel == if levelNum.Some? then levelNum.value else old(currentLevel)
      ensures currentLevel >= totalLevels ==> bricks == []
      ensures currentLevel < totalLevels ==> Cells(bricks) == LevelLayout(currentLevel)
      ensures forall i :: 0 <= i < |bricks| ==>
        fresh(bricks[i]) && bricks[i].Valid() && bricks[i].health == BrickHealthNormal
      ensures forall i, j :: 0 <= i < j < |bricks| ==> bricks[i] != bricks[j]
    {
      if levelNum.Some? {
        currentLevel := levelNum.value;
      }
      if currentLevel >= totalLevels {
        return [];
      }
      ShippedPatternsWellFormed();
      bricks := PlaceBricks(LevelPatterns[currentLevel]);
    }

    method NextLevel() returns (ok: bool)
      modifies this
      ensures currentLevel == old(currentLevel) + 1
      ensures ok <==> currentLevel < totalLevels
    {
      currentLevel := currentLevel + 1;
      return currentLevel < totalLevels;
    }

    method Reset()
      modifies this
      ensures currentLevel == 0
    {
      currentLevel := 0;
    }

    /** The 1-based level number shown to the player. */
    function GetCurrentLevelNum(): (n: int)
      reads this
      ensures n >= 1 && n - 1 == currentLevel
    {
      currentLevel + 1
    }

    /** The final level is being played exactly when the shown number reaches the level count. */
    predicate IsFinalLevel()
      reads this
      ensures IsFinalLevel() <==> GetCurrentLevelNum() >= totalLevels
    {
      currentLevel >= totalLevels - 1
    }
  }
}
