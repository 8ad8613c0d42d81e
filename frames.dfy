/**
 * The frame grid: every shape is pre-rendered from `rows` camera elevations
 * evenly spread from looking up from below (-90 degrees) to looking down from
 * above (+90 degrees), and `cols` azimuths evenly spread around one turn,
 * turning the negative way so that a drag to the right turns the shape along.
 */
module Frames {
  import opened Primitives

  const DefaultCols := 72
  const DefaultRows := 13

  const MinElevation := -90.0
  const MaxElevation := 90.0

  function Max0(n: int): nat {
    if n < 0 then 0 else n
  }

  /** The elevation of row `row` of `rows`. */
  function ElevationOf(row: int, rows: int): real
    requires rows != 1
  {
    MinElevation + (row as real / (rows - 1) as real) * (MaxElevation - MinElevation)
  }

  /** The azimuth of column `col` of `cols`. */
  function AzimuthOf(col: int, cols: int): real
    requires cols != 0
  {
    -(col as real / cols as real) * 360.0
  }

  /**
   * `generateShapeFrames(generator, cols, rows)`: `rows` rows of `cols`
   * frames each, the frame in row `r` and column `c` drawn at the azimuth of
   * `c` and the elevation of `r`.
   */
  method GenerateShapeFrames(generator: (real, real) -> Frame, cols: int, rows: int)
    returns (frames: seq<seq<Frame>>)
    requires rows != 1
    ensures |frames| == Max0(rows)
    ensures forall r :: 0 <= r < |frames| ==> |frames[r]| == Max0(cols)
    ensures forall r, c :: 0 <= r < |frames| && 0 <= c < Max0(cols) ==>
              frames[r][c] == generator(AzimuthOf(c, cols), ElevationOf(r, rows))
  {
    frames := [];
    var row := 0;
    while row < rows
      invariant 0 <= row == |frames| <= Max0(rows)
      invariant forall r :: 0 <= r < row ==> |frames[r]| == Max0(cols)
      invariant forall r, c :: 0 <= r < row && 0 <= c < Max0(cols) ==>
                  frames[r][c] == generator(AzimuthOf(c, cols), ElevationOf(r, rows))
    {
      var rowFrames: seq<Frame> := [];
      var elevation := MinElevation + (row as real / (rows - 1) as real) * (MaxElevation - MinElevation);
      var col := 0;
      while col < cols
        invariant 0 <= col == |rowFrames| <= Max0(cols)
        invariant forall c :: 0 <= c < col ==> rowFrames[c] == generator(AzimuthOf(c, cols), ElevationOf(row, rows))
      {
        var azimuth := -(col as real / cols as real) * 360.0;
        rowFrames := rowFrames + [generator(azimuth, elevation)];
        col := col + 1;
      }
      frames := frames + [rowFrames];
      row := row + 1;
    }
  }

  /** The first row looks straight up from below, the last straight down from above. */
  lemma ElevationEnds(rows: int)
    requires rows >= 2
    ensures ElevationOf(0, rows) == MinElevation
    ensures ElevationOf(rows - 1, rows) == MaxElevation
  {
  }

  /** With an odd number of rows the middle row is on the horizon. */
  lemma ElevationMiddle(rows: int)
    requires rows >= 3 && rows % 2 == 1
    ensures ElevationOf(rows / 2, rows) == 0.0
  {
    var n := (rows - 1) as real;
    assert (rows / 2) as real == n / 2.0;
  }

  /** Elevations grow strictly from row to row. */
  lemma ElevationIncreasing(r1: int, r2: int, rows: int)
    requires rows >= 2 && r1 < r2
    ensures ElevationOf(r1, rows) < ElevationOf(r2, rows)
  {
    var n := (rows - 1) as real;
    assert r1 as real / n < r2 as real / n by {
      assert r2 as real / n - r1 as real / n == (r2 - r1) as real / n;
    }
  }

  /** Every row of the grid looks from between the two poles. */
  lemma ElevationInRange(row: int, rows: int)
    requires 0 <= row < rows
    requires rows >= 2
    ensures MinElevation <= ElevationOf(row, rows) <= MaxElevation
  {
    if row > 0 {
      ElevationIncreasing(0, row, rows);
    }
    if row < rows - 1 {
      ElevationIncreasing(row, rows - 1, rows);
    }
  }

  /** Column 0 is the unturned view. */
  lemma AzimuthStart(cols: int)
    requires cols != 0
    ensures AzimuthOf(0, cols) == 0.0
  {
  }

  /** Azimuths fall strictly from column to column. */
  lemma AzimuthDecreasing(c1: int, c2: int, cols: int)
    requires cols > 0 && c1 < c2
    ensures AzimuthOf(c2, cols) < AzimuthOf(c1, cols)
  {
    var n := cols as real;
    assert c1 as real / n < c2 as real / n by {
      assert c2 as real / n - c1 as real / n == (c2 - c1) as real / n;
    }
  }

  /** The columns stay within one turn, so no two views of a row coincide. */
  lemma AzimuthInRange(col: int, cols: int)
    requires 0 <= col < cols
    ensures -360.0 < AzimuthOf(col, cols) <= 0.0
  {
    if col > 0 {
      AzimuthDecreasing(0, col, cols);
    }
    AzimuthDecreasing(col, cols, cols);
  }

  /** One more set of `cols` columns is one more full turn. */
  lemma AzimuthPeriodic(col: int, cols: int)
    requires cols > 0
    ensures AzimuthOf(col + cols, cols) == AzimuthOf(col, cols) - 360.0
  {
    var n := cols as real;
    assert (col + cols) as real == col as real + n;
    assert (col as real + n) / n == col as real / n + n / n;
  }

  /** The default grid: rows 15 degrees apart with row 6 on the horizon, columns 5 degrees apart. */
  lemma DefaultGrid(row: int, col: int)
    ensures ElevationOf(row, DefaultRows) == -90.0 + 15.0 * row as real
    ensures AzimuthOf(col, DefaultCols) == -5.0 * col as real
    ensures ElevationOf(DefaultRows / 2, DefaultRows) == 0.0
  {
  }
}
