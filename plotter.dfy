/**
 * The ASCII graphing engine: affine maps between the visible coordinate
 * window and the character grid, and the construction of the canvas for one
 * plot (axes first, then one curve sample per column).
 *
 * Arithmetic is over `real`; the conversions to a grid index truncate toward
 * zero, as a C++ `(int)` cast of a double does.
 */
module Plotter {
  import opened Functions

  /** A value converted to an integer by dropping its fractional part (toward zero). */
  function Trunc(r: real): (t: int)
    ensures r >= 0.0 ==> 0 <= t && t as real <= r < t as real + 1.0
    ensures r < 0.0 ==> t <= 0 && t as real - 1.0 < r <= t as real
  {
    if r >= 0.0 then r.Floor else -((-r).Floor)
  }

  lemma TruncMonotone(r1: real, r2: real)
    requires r1 <= r2
    ensures Trunc(r1) <= Trunc(r2)
  {
  }

  /**
   * Truncation and flooring differ on negative non-integers: a value just
   * below zero truncates to 0, not to -1.
   */
  lemma TruncIsNotFloor()
    ensures Trunc(-0.5) == 0 && (-0.5).Floor == -1
  {
  }

  /**
   * Where `num` falls within a span of length `den`, measured in `n` cells:
   * `num / den * n`. The maps from world to grid coordinates are this
   * quantity, truncated.
   */
  function Scale(num: real, den: real, n: real): (q: real)
    requires den != 0.0
    ensures num == den ==> q == n
    ensures num == 0.0 ==> q == 0.0
    ensures 0.0 < den && 0.0 <= n && 0.0 <= num <= den ==> 0.0 <= q <= n
  {
    FractionBounds(num, den, n);
    num / den * n
  }

  /** The fraction `num / den` of `n` is `n` for the whole span and lies in `[0, n]` for a part of it. */
  lemma FractionBounds(num: real, den: real, n: real)
    requires den != 0.0
    ensures num == den ==> num / den * n == n
    ensures 0.0 < den && 0.0 <= n && 0.0 <= num <= den ==> 0.0 <= num / den * n <= n
  {
    if num == den {
      assert num / den == 1.0;
    }
    if 0.0 < den && 0.0 <= n && 0.0 <= num <= den {
      var f := num / den;
      assert f * den == num;
      assert 0.0 <= f <= 1.0;
      assert n - f * n == (1.0 - f) * n;
    }
  }

  /**
   * The distance covered by `k` cells of a span `d` divided into `n` cells:
   * `k * d / n`. The maps from grid to world coordinates add this to an edge
   * of the window.
   */
  function Offset(k: real, d: real, n: real): (r: real)
    requires n != 0.0
    ensures k == 0.0 ==> r == 0.0
    ensures k == n ==> r == d
    ensures 0.0 < n && 0.0 < d && 0.0 <= k <= n ==> 0.0 <= r <= d
  {
    FractionBounds(k, n, d);
    var q := k / n;
    assert q * n == k;
    assert (q * d) * n == k * d;
    k * d / n
  }

  /** Scaling back an offset recovers the number of cells. */
  lemma ScaleOfOffset(k: real, d: real, n: real)
    requires d != 0.0 && n != 0.0
    ensures Scale(Offset(k, d, n), d, n) == k
  {
    assert k * d / n / d * n == k;
  }

  /** Taking the offset of a scaled distance recovers the distance. */
  lemma OffsetOfScale(num: real, d: real, n: real)
    requires d != 0.0 && n != 0.0
    ensures Offset(Scale(num, d, n), d, n) == num
  {
    assert num / d * n * d / n == num;
  }

  /** Over a positive span and cell count, a larger distance scales to a larger position. */
  lemma ScaleMonotone(num1: real, num2: real, d: real, n: real)
    requires 0.0 < d && 0.0 < n && num1 <= num2
    ensures Scale(num1, d, n) <= Scale(num2, d, n)
  {
    DivMulMonotone(num1, num2, d, n);
    assert Scale(num2, d, n) - Scale(num1, d, n) == num2 / d * n - num1 / d * n;
  }

  /** Over a positive span and cell count, more cells cover a longer distance. */
  lemma OffsetMonotone(k1: real, k2: real, d: real, n: real)
    requires 0.0 < d && 0.0 < n && k1 <= k2
    ensures Offset(k1, d, n) <= Offset(k2, d, n)
    ensures k1 < k2 ==> Offset(k1, d, n) < Offset(k2, d, n)
  {
    MulDivMonotone(k1, k2, d, n);
    assert Offset(k2, d, n) - Offset(k1, d, n) == k2 * d / n - k1 * d / n;
  }

  /** The quotient `x / d * n` grows with `x` when `d` and `n` are positive. */
  lemma DivMulMonotone(x1: real, x2: real, d: real, n: real)
    requires 0.0 < d && 0.0 < n && x1 <= x2
    ensures x1 / d * n <= x2 / d * n
  {
    var gap := x2 - x1;
    assert gap / d >= 0.0;
    assert gap / d * n >= 0.0;
    assert x2 / d - x1 / d == gap / d;
    assert x2 / d * n - x1 / d * n == gap / d * n;
  }

  /** The quotient `k * d / n` grows strictly with `k` when `d` and `n` are positive. */
  lemma MulDivMonotone(k1: real, k2: real, d: real, n: real)
    requires 0.0 < d && 0.0 < n && k1 <= k2
    ensures k1 * d / n <= k2 * d / n
    ensures k1 < k2 ==> k1 * d / n < k2 * d / n
  {
    var gap := k2 - k1;
    assert gap * d >= 0.0 && (gap > 0.0 ==> gap * d > 0.0);
    assert gap * d / n >= 0.0 && (gap > 0.0 ==> gap * d / n > 0.0);
    assert k2 * d - k1 * d == gap * d;
    assert k2 * d / n - k1 * d / n == gap * d / n;
  }

  /** The grid size and the visible window `[xMin, xMax] x [yMin, yMax]`. */
  datatype Viewport = Viewport(width: int, height: int, xMin: real, xMax: real, yMin: real, yMax: real)
  {
    /** A grid of at least two columns and two rows over a window of non-zero extent. */
    predicate Proper()
    {
      width >= 2 && height >= 2 && xMin != xMax && yMin != yMax
    }

    /** A proper viewport whose window bounds are in increasing order. */
    predicate Ordered()
    {
      Proper() && xMin < xMax && yMin < yMax
    }
  }

  /** The column of world coordinate `x`: `(x - xMin) / (xMax - xMin) * (width - 1)`, truncated. */
  function XToScreen(v: Viewport, x: real): (col: int)
    requires v.Proper()
    ensures x == v.xMin ==> col == 0
    ensures x == v.xMax ==> col == v.width - 1
    ensures v.Ordered() && v.xMin <= x <= v.xMax ==> 0 <= col <= v.width - 1
  {
    Trunc(Scale(x - v.xMin, v.xMax - v.xMin, (v.width - 1) as real))
  }

  /**
   * The row of world coordinate `y`: `(yMax - y) / (yMax - yMin) * (height - 1)`,
   * truncated; row 0 is the top of the window, `yMax`.
   */
  function YToScreen(v: Viewport, y: real): (row: int)
    requires v.Proper()
    ensures y == v.yMax ==> row == 0
    ensures y == v.yMin ==> row == v.height - 1
    ensures v.Ordered() && v.yMin <= y <= v.yMax ==> 0 <= row <= v.height - 1
  {
    Trunc(Scale(v.yMax - y, v.yMax - v.yMin, (v.height - 1) as real))
  }

  /** The world coordinate of column `col`: `xMin + col * (xMax - xMin) / (width - 1)`. */
  function ScreenToX(v: Viewport, col: int): (x: real)
    requires v.Proper()
    ensures col == 0 ==> x == v.xMin
    ensures col == v.width - 1 ==> x == v.xMax
    ensures v.Ordered() && 0 <= col <= v.width - 1 ==> v.xMin <= x <= v.xMax
  {
    v.xMin + Offset(col as real, v.xMax - v.xMin, (v.width - 1) as real)
  }

  /** The world coordinate of row `row`: `yMax - row * (yMax - yMin) / (height - 1)`. */
  function ScreenToY(v: Viewport, row: int): (y: real)
    requires v.Proper()
    ensures row == 0 ==> y == v.yMax
    ensures row == v.height - 1 ==> y == v.yMin
    ensures v.Ordered() && 0 <= row <= v.height - 1 ==> v.yMin <= y <= v.yMax
  {
    v.yMax - Offset(row as real, v.yMax - v.yMin, (v.height - 1) as real)
  }

  /** Mapping a column to the world and back gives the same column. */
  lemma ColumnRoundTrip(v: Viewport, col: int)
    requires v.Proper()
    ensures XToScreen(v, ScreenToX(v, col)) == col
  {
    var d, n := v.xMax - v.xMin, (v.width - 1) as real;
    assert ScreenToX(v, col) - v.xMin == Offset(col as real, d, n);
    ScaleOfOffset(col as real, d, n);
  }

  /** Mapping a row to the world and back gives the same row. */
  lemma RowRoundTrip(v: Viewport, row: int)
    requires v.Proper()
    ensures YToScreen(v, ScreenToY(v, row)) == row
  {
    var d, n := v.yMax - v.yMin, (v.height - 1) as real;
    assert v.yMax - ScreenToY(v, row) == Offset(row as real, d, n);
    ScaleOfOffset(row as real, d, n);
  }

  /**
   * A world coordinate inside the window lies in the cell of its column:
   * at or right of that column's coordinate and left of the next one's.
   */
  lemma ColumnWithinOneCell(v: Viewport, x: real)
    requires v.Ordered() && v.xMin <= x <= v.xMax
    ensures var col := XToScreen(v, x);
            ScreenToX(v, col) <= x < ScreenToX(v, col + 1)
  {
    var d, n := v.xMax - v.xMin, (v.width - 1) as real;
    var t := Scale(x - v.xMin, d, n);
    var k := XToScreen(v, x);
    assert k == Trunc(t) && 0.0 <= t;
    OffsetOfScale(x - v.xMin, d, n);
    OffsetMonotone(k as real, t, d, n);
    OffsetMonotone(t, (k + 1) as real, d, n);
  }

  /** Columns do not decrease from left to right in an ordered window. */
  lemma XToScreenMonotone(v: Viewport, x1: real, x2: real)
    requires v.Ordered() && x1 <= x2
    ensures XToScreen(v, x1) <= XToScreen(v, x2)
  {
    var d, n := v.xMax - v.xMin, (v.width - 1) as real;
    ScaleMonotone(x1 - v.xMin, x2 - v.xMin, d, n);
    TruncMonotone(Scale(x1 - v.xMin, d, n), Scale(x2 - v.xMin, d, n));
  }

  /** Rows do not increase as `y` grows in an ordered window. */
  lemma YToScreenAntitone(v: Viewport, y1: real, y2: real)
    requires v.Ordered() && y1 <= y2
    ensures YToScreen(v, y2) <= YToScreen(v, y1)
  {
    var d, n := v.yMax - v.yMin, (v.height - 1) as real;
    ScaleMonotone(v.yMax - y2, v.yMax - y1, d, n);
    TruncMonotone(Scale(v.yMax - y2, d, n), Scale(v.yMax - y1, d, n));
  }

  // ---------------------------------------------------------------------------
  // The canvas

  datatype Option<T> = None | Some(value: T)

  /** Values closer to zero than this are drawn on the horizontal axis. */
  const Eps: real := 0.01

  /**
   * The row of the horizontal axis (`y == 0`); it lies in the grid when zero
   * lies in an ordered window.
   */
  function AxisRow(v: Viewport): (row: int)
    requires v.Proper()
    ensures v.Ordered() && v.yMin <= 0.0 <= v.yMax ==> 0 <= row < v.height
  {
    YToScreen(v, 0.0)
  }

  /**
   * The column of the vertical axis (`x == 0`); it lies in the grid when
   * zero lies in an ordered window.
   */
  function AxisCol(v: Viewport): (col: int)
    requires v.Proper()
    ensures v.Ordered() && v.xMin <= 0.0 <= v.xMax ==> 0 <= col < v.width
  {
    XToScreen(v, 0.0)
  }

  /**
   * The glyph of grid cell (i, j) once the axes are drawn: `-` along the axis
   * row, `|` along the axis column, `+` where they cross, blank elsewhere.
   */
  function AxisCell(i: int, j: int, axisRow: int, axisCol: int): (g: char)
    ensures g == '+' <==> i == axisRow && j == axisCol
    ensures g == '-' <==> i == axisRow && j != axisCol
    ensures g == '|' <==> i != axisRow && j == axisCol
    ensures g == ' ' <==> i != axisRow && j != axisCol
  {
    if i == axisRow && j == axisCol then '+'
    else if i == axisRow then '-'
    else if j == axisCol then '|'
    else ' '
  }

  /** What a curve sample leaves in a cell that held `g`. */
  function Stamp(g: char): (r: char)
    ensures r == '+' <==> g == '-' || g == '|'
    ensures r == '*' <==> !(g == '-' || g == '|')
  {
    if g == '-' || g == '|' then '+' else '*'
  }

  /**
   * The row a sample of value `y` is drawn on: the axis row when `y` is
   * within `Eps` of zero, otherwise the row of `y`, moved one row off the
   * axis (up for positive `y`, down otherwise) when it falls on the axis row.
   */
  function TargetRow(v: Viewport, y: real): (row: int)
    requires v.Proper()
    ensures row == AxisRow(v) <==> Abs(y) < Eps
  {
    var row := YToScreen(v, y);
    if Abs(y) < Eps then AxisRow(v)
    else if row == AxisRow(v) then row + (if y > 0.0 then -1 else 1)
    else row
  }

  /** The row the curve sample of column `col` is drawn on, or None when its value is outside the window. */
  function SampleRow(v: Viewport, f: Function, exp: real -> real, col: int): (r: Option<int>)
    requires v.Proper()
    ensures var y := Evaluate(f, ScreenToX(v, col), exp);
            (r.None? <==> y < v.yMin || y > v.yMax) &&
            (r.Some? && v.Ordered() && Abs(y) >= Eps ==> -1 <= r.value - YToScreen(v, y) <= 1)
  {
    var y := Evaluate(f, ScreenToX(v, col), exp);
    if y < v.yMin || y > v.yMax then None else Some(TargetRow(v, y))
  }

  /**
   * The glyph of cell (i, j) of the finished canvas: one of the five glyphs
   * of the plot, with `*` only on the curve and `-` only on the axis row.
   */
  function Glyph(v: Viewport, f: Function, exp: real -> real, i: int, j: int): (g: char)
    requires v.Proper()
    ensures g in {' ', '-', '|', '+', '*'}
    ensures g == '*' ==> SampleRow(v, f, exp, j) == Some(i)
    ensures g == '-' ==> i == AxisRow(v)
    ensures g == '|' ==> j == AxisCol(v)
  {
    var g := AxisCell(i, j, AxisRow(v), AxisCol(v));
    if SampleRow(v, f, exp, j) == Some(i) then Stamp(g) else g
  }

  /**
   * A sample away from zero is drawn strictly above the axis when positive
   * and strictly below it when negative, and never more than one row from
   * the row of its value.
   */
  lemma CurveSide(v: Viewport, y: real)
    requires v.Ordered()
    ensures y >= Eps ==> TargetRow(v, y) < AxisRow(v)
    ensures y <= -Eps ==> TargetRow(v, y) > AxisRow(v)
    ensures Abs(y) >= Eps ==> -1 <= TargetRow(v, y) - YToScreen(v, y) <= 1
    ensures Abs(y) >= Eps && YToScreen(v, y) != AxisRow(v) ==> TargetRow(v, y) == YToScreen(v, y)
  {
    if y >= Eps {
      YToScreenAntitone(v, 0.0, y);
    } else if y <= -Eps {
      YToScreenAntitone(v, y, 0.0);
    }
  }

  /**
   * Column j of the finished canvas differs from the bare axes exactly in
   * the cell of its sample, which holds the stamped glyph; a column whose
   * value is outside the window keeps the bare axes.
   */
  lemma ColumnChange(v: Viewport, f: Function, exp: real -> real, i: int, j: int)
    requires v.Proper() && 0 <= i < v.height && 0 <= j < v.width
    ensures var g := AxisCell(i, j, AxisRow(v), AxisCol(v));
            (Glyph(v, f, exp, i, j) != g <==> SampleRow(v, f, exp, j) == Some(i)) &&
            (SampleRow(v, f, exp, j) == Some(i) ==> Glyph(v, f, exp, i, j) == Stamp(g))
    ensures var y := Evaluate(f, ScreenToX(v, j), exp);
            y < v.yMin || y > v.yMax ==> Glyph(v, f, exp, i, j) == AxisCell(i, j, AxisRow(v), AxisCol(v))
  {
  }

  /** The glyphs of column `col`: the bare axes, stamped at the sample's row. */
  lemma ColumnGlyphs(v: Viewport, f: Function, exp: real -> real, col: int)
    requires v.Proper()
    ensures forall i :: Glyph(v, f, exp, i, col) ==
              if SampleRow(v, f, exp, col) == Some(i) then Stamp(AxisCell(i, col, AxisRow(v), AxisCol(v)))
              else AxisCell(i, col, AxisRow(v), AxisCol(v))
  {
  }

  /** At most one cell of a column is changed by its sample. */
  lemma OneCellPerColumn(v: Viewport, f: Function, exp: real -> real, i1: int, i2: int, j: int)
    requires v.Proper()
    requires Glyph(v, f, exp, i1, j) != AxisCell(i1, j, AxisRow(v), AxisCol(v))
    requires Glyph(v, f, exp, i2, j) != AxisCell(i2, j, AxisRow(v), AxisCol(v))
    ensures i1 == i2
  {
  }

  /**
   * Plotting the zero function over a window containing zero turns every
   * `-` of the axis row into `+`, and the crossing `+` into `*`; all other
   * cells keep the bare axes.
   */
  lemma ZeroFunctionOnAxis(v: Viewport, exp: real -> real, i: int, j: int)
    requires v.Ordered() && v.yMin <= 0.0 <= v.yMax
    requires 0 <= i < v.height && 0 <= j < v.width
    ensures i == AxisRow(v) ==> Glyph(v, Linear(0.0, 0.0), exp, i, j) == (if j == AxisCol(v) then '*' else '+')
    ensures i != AxisRow(v) ==> Glyph(v, Linear(0.0, 0.0), exp, i, j) == AxisCell(i, j, AxisRow(v), AxisCol(v))
  {
    assert Evaluate(Linear(0.0, 0.0), ScreenToX(v, j), exp) == 0.0;
  }

  /** The default window: 61 x 21 cells over [-10, 10] x [-10, 10]. */
  const DefaultViewport := Viewport(61, 21, -10.0, 10.0, -10.0, 10.0)

  /**
   * The line y = 100x over the default window leaves the window in every
   * column but the middle one, which is drawn on the axis.
   */
  lemma SteepLineOnlyMiddleColumn(exp: real -> real, j: int)
    requires 0 <= j < 61
    ensures AxisRow(DefaultViewport) == 10 && AxisCol(DefaultViewport) == 30
    ensures SampleRow(DefaultViewport, Linear(100.0, 0.0), exp, j) == if j == 30 then Some(10) else None
  {
    var v := DefaultViewport;
    assert ScreenToX(v, j) == (j - 30) as real / 3.0;
    var y := Evaluate(Linear(100.0, 0.0), ScreenToX(v, j), exp);
    assert y == 100.0 * (j - 30) as real / 3.0;
    if j < 30 {
      assert y <= -100.0 / 3.0;
    } else if j > 30 {
      assert y >= 100.0 / 3.0;
    }
  }

  /**
   * Because grid indices truncate toward zero, a window lying just below
   * zero still gets the horizontal axis on its top row, where flooring would
   * have put it one row above the grid.
   */
  lemma AxisJustAboveWindow()
    ensures var v := Viewport(61, 21, -10.0, 10.0, -10.0, -0.1);
            v.yMax < 0.0 && AxisRow(v) == 0 &&
            ((v.yMax - 0.0) / (v.yMax - v.yMin) * 20.0).Floor == -1
  {
    var v := Viewport(61, 21, -10.0, 10.0, -10.0, -0.1);
    assert (v.yMax - 0.0) / (v.yMax - v.yMin) * 20.0 == -2.0 / 9.9;
  }

  /** Draws the axes on a blank canvas: the row first, then the column, then their crossing. */
  method DrawAxes(canvas: array2<char>, axisRow: int, axisCol: int)
    requires forall i, j :: 0 <= i < canvas.Length0 && 0 <= j < canvas.Length1 ==> canvas[i, j] == ' '
    modifies canvas
    ensures forall i, j :: 0 <= i < canvas.Length0 && 0 <= j < canvas.Length1 ==>
              canvas[i, j] == AxisCell(i, j, axisRow, axisCol)
  {
    var rows, cols := canvas.Length0, canvas.Length1;
    if 0 <= axisRow < rows {
      for j := 0 to cols
        invariant forall r, k :: 0 <= r < rows && 0 <= k < cols ==>
                    canvas[r, k] == (if r == axisRow && k < j then '-' else ' ')
      {
        canvas[axisRow, j] := '-';
      }
    }
    if 0 <= axisCol < cols {
      for i := 0 to rows
        invariant forall r, k :: 0 <= r < rows && 0 <= k < cols ==>
                    canvas[r, k] == (if k == axisCol && r < i then '|' else if r == axisRow then '-' else ' ')
      {
        canvas[i, axisCol] := '|';
      }
    }
    if 0 <= axisRow < rows && 0 <= axisCol < cols {
      canvas[axisRow, axisCol] := '+';
    }
  }

  class GraphPlotter {
    var width: int
    var height: int
    var xMin: real
    var xMax: real
    var yMin: real
    var yMax: real

    function Geometry(): Viewport
      reads this
    {
      Viewport(width, height, xMin, xMax, yMin, yMax)
    }

    ghost predicate Valid()
      reads this
    {
      Geometry().Proper()
    }

    /** A `w` x `h` grid over the window [-10, 10] x [-10, 10]. */
    constructor (w: int := 61, h: int := 21)
      requires w >= 2 && h >= 2
      ensures Valid() && Geometry() == Viewport(w, h, -10.0, 10.0, -10.0, 10.0)
    {
      width, height := w, h;
      xMin, xMax, yMin, yMax := -10.0, 10.0, -10.0, 10.0;
    }

    /** Replaces the whole window; the grid size is kept. */
    method SetRange(xmin: real, xmax: real, ymin: real, ymax: real)
      requires Valid() && xmin != xmax && ymin != ymax
      modifies this
      ensures Valid() && Geometry() == Viewport(old(width), old(height), xmin, xmax, ymin, ymax)
    {
      xMin, xMax, yMin, yMax := xmin, xmax, ymin, ymax;
    }

    /** Replaces the horizontal extent of the window only. */
    method SetXRange(xmin: real, xmax: real)
      requires Valid() && xmin != xmax
      modifies this
      ensures Valid() && Geometry() == old(Geometry()).(xMin := xmin, xMax := xmax)
    {
      xMin, xMax := xmin, xmax;
    }

    /**
     * Builds the canvas of a plot of `f`: a height x width grid holding the
     * axes and one sample per column whose value lies in the window.
     */
    method Plot(f: Function, exp: real -> real) returns (canvas: array2<char>)
      requires Valid()
      ensures canvas.Length0 == height && canvas.Length1 == width
      ensures forall i, j :: 0 <= i < height && 0 <= j < width ==>
                canvas[i, j] == Glyph(Geometry(), f, exp, i, j)
    {
      var v := Geometry();
      canvas := new char[height, width]((i, j) => ' ');
      var xAxisRow := YToScreen(v, 0.0);
      var yAxisCol := XToScreen(v, 0.0);
      DrawAxes(canvas, xAxisRow, yAxisCol);
      for col := 0 to width
        invariant forall i, j :: 0 <= i < height && 0 <= j < width ==>
                    canvas[i, j] == (if j < col then Glyph(v, f, exp, i, j) else AxisCell(i, j, xAxisRow, yAxisCol))
      {
        var x := ScreenToX(v, col);
        var y := Evaluate(f, x, exp);
        ColumnGlyphs(v, f, exp, col);
        if y < yMin || y > yMax {
          continue;
        }
        var row := YToScreen(v, y);
        if Abs(y) < Eps {
          row := xAxisRow;
        } else if row == xAxisRow {
          row := row + (if y > 0.0 then -1 else 1);
        }
        assert SampleRow(v, f, exp, col) == Some(row);
        if 0 <= row < height && 0 <= col < width {
          if canvas[row, col] == '-' || canvas[row, col] == '|' {
            canvas[row, col] := '+';
          } else {
            canvas[row, col] := '*';
          }
        }
      }
    }
  }
}
