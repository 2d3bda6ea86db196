# Graphing calculator core in Dafny

This project models the core of a console graphing calculator. The calculator
lets a user define linear, quadratic and exponential functions of one
variable, plot them as ASCII art over a coordinate window, and keep a history
of the functions defined in a session. Three parts of `ConsoleApplication1.cpp`
are modelled:

- `functions.dfy` (module `Functions`) covers the function family. A
  `Function` datatype has one constructor per class: `Linear(m, c)`,
  `Quadratic(a, b, c)` and `Exponential(coefficient, exponent)`. It also
  defines evaluation, the type tag, the description text with its " + " / " - "
  sign logic, and the line that `display()` prints.
- `history.dfy` (module `History`) covers `FunctionHistory`. It is a class
  whose `entries` field holds the list's nodes in order from the head, next to
  the separately kept `count` field. Its methods are `AddFunction`,
  `DisplayHistory`, `Clear` and `GetCount`. `DisplayHistory` walks the list and
  returns the lines it would print.
- `plotter.dfy` (module `Plotter`) covers `GraphPlotter`:
  - The window maps (`XToScreen`, `YToScreen`, `ScreenToX`, `ScreenToY`) are
    functions over a `Viewport` value, which holds the grid size and the window
    bounds. Conversion to a grid index truncates toward zero (`Trunc`), as the
    `(int)` cast does.
  - The canvas build of `plot` is `GraphPlotter.Plot`. It fills an
    `array2<char>`: first the axes (`DrawAxes`), then one curve sample per
    column. Every cell of the result is specified by the function `Glyph`.
  - `SetRange` and `SetXRange` overwrite the window fields.

The C++ `exp` has no Dafny counterpart, so evaluation takes it as a parameter
`exp: real -> real`. The decimal rendering of a `double` by a `stringstream`
is also a parameter, `show: real -> string`. As a result, a description fixes
only its literal text and its sign branching. Doubles are modelled as `real`.

Three behaviours of the code are worth knowing when reading the model:

- The window maps truncate toward zero; they do not round (lines 148-149).
  `TruncIsNotFloor` and `AxisJustAboveWindow` show where truncation differs
  from flooring.
- Plotting the zero function turns the axis crossing into `*`: a sample that
  lands there finds `+`, which is neither `-` nor `|`, so it writes `*`
  (lines 171-172). `ZeroFunctionOnAxis` states the resulting axis row.
- Over reals, mapping a column to the world and back gives the same column
  (`ColumnRoundTrip`). Only floating-point rounding could make it differ, and
  that is not modelled.

## Model

| member | source | states |
|---|---|---|
| `Functions.Evaluate` | ConsoleApplication1/ConsoleApplication1/ConsoleApplication1.cpp:47-83 | at x = 0 a linear or quadratic function takes its constant term c, and an exponential takes its coefficient A (given exp(0) == 1) |
| `Functions.TypeTag` | ConsoleApplication1/ConsoleApplication1/ConsoleApplication1.cpp:49-85 | the tag is "Linear", "Quadratic" or "Exponential" exactly when the function is of that kind |
| `Functions.SignedTerm` | ConsoleApplication1/ConsoleApplication1/ConsoleApplication1.cpp:42-63 | a term is written as a three-character sign marker followed by the magnitude; the marker is " - " exactly for negative values and " + " exactly for non-negative ones |
| `Functions.Describe` | ConsoleApplication1/ConsoleApplication1/ConsoleApplication1.cpp:40-80 | every description begins with "y = " |
| `Functions.LinearDescriptionEndsWithIntercept` | ConsoleApplication1/ConsoleApplication1/ConsoleApplication1.cpp:40-44 | a linear description ends with the magnitude of the intercept, preceded by " - " exactly when the intercept is negative |
| `Functions.DisplayLine` | ConsoleApplication1/ConsoleApplication1/ConsoleApplication1.cpp:48-84 | the displayed line starts with the function's type tag and ends with its description |
| `Functions.QuadraticDescriptionSigns` | ConsoleApplication1/ConsoleApplication1/ConsoleApplication1.cpp:58-64 | a quadratic description is "y = a x^2" followed by the magnitude of b, preceded by " - " exactly when b is negative and followed by "x", then the magnitude of c, preceded by " - " exactly when c is negative |
| `History.NatToString` | ConsoleApplication1/ConsoleApplication1/ConsoleApplication1.cpp:117 | the written entry number is a non-empty string of decimal digits, one digit exactly for numbers below 10, and it starts with '0' only for 0 (no leading zeros) |
| `History.NatToStringRoundTrip` | ConsoleApplication1/ConsoleApplication1/ConsoleApplication1.cpp:117 | reading the written entry number back as decimal gives the number |
| `History.EntryLineParts` | ConsoleApplication1/ConsoleApplication1/ConsoleApplication1.cpp:117-118 | an entry line is the number's digits, then ". ", then the function's display line; its first non-digit character is the '.' |
| `History.EntryLineNumbersDiffer` | ConsoleApplication1/ConsoleApplication1/ConsoleApplication1.cpp:115-118 | entry lines with different numbers are different lines, whatever functions they show |
| `History.Listing` | ConsoleApplication1/ConsoleApplication1/ConsoleApplication1.cpp:111-122 | the output is only "No history available." exactly when the history is empty; otherwise it has the entries plus three framing lines |
| `History.ListingEntry` | ConsoleApplication1/ConsoleApplication1/ConsoleApplication1.cpp:114-120 | the entry at list position k is printed as number k + 1 with its display line |
| `History.ListingAfterAdd` | ConsoleApplication1/ConsoleApplication1/ConsoleApplication1.cpp:104-120 | after an addition the new function is number 1 and each earlier entry is printed one number later, in the same order (most recent first) |
| `History.FunctionHistory.constructor` | ConsoleApplication1/ConsoleApplication1/ConsoleApplication1.cpp:101 | a new history is empty with count 0 |
| `History.FunctionHistory.AddFunction` | ConsoleApplication1/ConsoleApplication1/ConsoleApplication1.cpp:104-109 | the new function becomes the head, the earlier entries follow unchanged, count grows by exactly 1 and still equals the number of entries |
| `History.FunctionHistory.DisplayHistory` | ConsoleApplication1/ConsoleApplication1/ConsoleApplication1.cpp:111-122 | walking the list from the head yields exactly the listing of the entries in list order |
| `History.FunctionHistory.Clear` | ConsoleApplication1/ConsoleApplication1/ConsoleApplication1.cpp:124-134 | from any state, including an empty one, the history becomes empty with count 0 |
| `History.FunctionHistory.GetCount` | ConsoleApplication1/ConsoleApplication1/ConsoleApplication1.cpp:136 | the count returned is the number of entries in the list |
| `Plotter.Trunc` | ConsoleApplication1/ConsoleApplication1/ConsoleApplication1.cpp:148-149 | the cast drops the fractional part toward zero: a result between 0 and the value, within one of it |
| `Plotter.TruncIsNotFloor` | ConsoleApplication1/ConsoleApplication1/ConsoleApplication1.cpp:148-149 | truncation differs from flooring on a negative fraction (-0.5 gives 0, not -1) |
| `Plotter.TruncMonotone` | ConsoleApplication1/ConsoleApplication1/ConsoleApplication1.cpp:148-149 | truncation preserves order |
| `Plotter.XToScreen` | ConsoleApplication1/ConsoleApplication1/ConsoleApplication1.cpp:148 | xMin maps to column 0, xMax to column width-1, and any x in an ordered window to a column in [0, width-1] |
| `Plotter.YToScreen` | ConsoleApplication1/ConsoleApplication1/ConsoleApplication1.cpp:149 | yMax maps to row 0, yMin to row height-1, and any y in an ordered window to a row in [0, height-1] |
| `Plotter.ScreenToX` | ConsoleApplication1/ConsoleApplication1/ConsoleApplication1.cpp:150 | column 0 maps to xMin, column width-1 to xMax, and columns in the grid into the window |
| `Plotter.ScreenToY` | ConsoleApplication1/ConsoleApplication1/ConsoleApplication1.cpp:151 | row 0 maps to yMax, row height-1 to yMin, and rows in the grid into the window |
| `Plotter.ColumnRoundTrip` | ConsoleApplication1/ConsoleApplication1/ConsoleApplication1.cpp:148-150 | xToScreen undoes screenToX for every column |
| `Plotter.RowRoundTrip` | ConsoleApplication1/ConsoleApplication1/ConsoleApplication1.cpp:149-151 | yToScreen undoes screenToY for every row |
| `Plotter.ColumnWithinOneCell` | ConsoleApplication1/ConsoleApplication1/ConsoleApplication1.cpp:148-150 | every x in the window lies in the cell of its column: at or right of that column's world coordinate and strictly left of the next column's |
| `Plotter.XToScreenMonotone` | ConsoleApplication1/ConsoleApplication1/ConsoleApplication1.cpp:148 | in an ordered window, columns do not decrease as x grows |
| `Plotter.YToScreenAntitone` | ConsoleApplication1/ConsoleApplication1/ConsoleApplication1.cpp:149 | in an ordered window, rows do not increase as y grows |
| `Plotter.AxisRow` | ConsoleApplication1/ConsoleApplication1/ConsoleApplication1.cpp:155 | the horizontal axis row lies in the grid whenever zero lies in an ordered window |
| `Plotter.AxisCol` | ConsoleApplication1/ConsoleApplication1/ConsoleApplication1.cpp:156 | the vertical axis column lies in the grid whenever zero lies in an ordered window |
| `Plotter.AxisCell` | ConsoleApplication1/ConsoleApplication1/ConsoleApplication1.cpp:158-160 | a cell shows `+` exactly at the crossing of axis row and axis column, `-` exactly elsewhere on the axis row, `|` exactly elsewhere on the axis column, and blank everywhere else |
| `Plotter.Stamp` | ConsoleApplication1/ConsoleApplication1/ConsoleApplication1.cpp:171-172 | a sample turns `-` or `|` into `+`, and any other glyph (blank, `*`, `+`) into `*` |
| `Plotter.TargetRow` | ConsoleApplication1/ConsoleApplication1/ConsoleApplication1.cpp:167-169 | a sample lands on the axis row exactly when its value is within 0.01 of zero |
| `Plotter.CurveSide` | ConsoleApplication1/ConsoleApplication1/ConsoleApplication1.cpp:167-169 | a sample of value at least 0.01 is drawn strictly above the axis row, one of at most -0.01 strictly below it, both within one row of the computed row, and exactly on the computed row when that is not the axis row |
| `Plotter.SampleRow` | ConsoleApplication1/ConsoleApplication1/ConsoleApplication1.cpp:164-169 | a column is skipped exactly when its value lies outside [yMin, yMax]; otherwise its sample lands within one row of the computed row when the value is not near zero |
| `Plotter.Glyph` | ConsoleApplication1/ConsoleApplication1/ConsoleApplication1.cpp:154-173 | every finished cell holds one of blank, `-`, `|`, `+`, `*`; `*` appears only at the row of its column's sample, `-` only on the axis row and `|` only on the axis column |
| `Plotter.ColumnChange` | ConsoleApplication1/ConsoleApplication1/ConsoleApplication1.cpp:163-173 | a finished column differs from the bare axes exactly at its sample's row, where the glyph is stamped; a column whose value is outside [yMin, yMax] keeps the bare axes |
| `Plotter.OneCellPerColumn` | ConsoleApplication1/ConsoleApplication1/ConsoleApplication1.cpp:163-173 | at most one cell of a column is changed by the curve |
| `Plotter.ZeroFunctionOnAxis` | ConsoleApplication1/ConsoleApplication1/ConsoleApplication1.cpp:155-173 | for y = 0 over a window containing zero: the axis row becomes `+` everywhere except the crossing, which becomes `*`; every other cell keeps the bare axes |
| `Plotter.SteepLineOnlyMiddleColumn` | ConsoleApplication1/ConsoleApplication1/ConsoleApplication1.cpp:145-169 | over the default 61x21 window [-10, 10]^2, y = 100x is skipped in every column except column 30, whose sample lies on the axis row 10 |
| `Plotter.AxisJustAboveWindow` | ConsoleApplication1/ConsoleApplication1/ConsoleApplication1.cpp:155-158 | for the window y in [-10, -0.1], truncation puts the horizontal axis on row 0 of the grid, although zero lies above the window and flooring would give row -1 |
| `Plotter.DrawAxes` | ConsoleApplication1/ConsoleApplication1/ConsoleApplication1.cpp:154-160 | on a blank canvas, the axis row becomes `-`, the axis column `|`, their crossing `+` (when both are in the grid), and every other cell stays blank |
| `Plotter.GraphPlotter.constructor` | ConsoleApplication1/ConsoleApplication1/ConsoleApplication1.cpp:145 | a w x h grid (61 x 21 by default) over the window [-10, 10] x [-10, 10] |
| `Plotter.GraphPlotter.SetRange` | ConsoleApplication1/ConsoleApplication1/ConsoleApplication1.cpp:146 | all four window bounds are replaced and the grid size is kept |
| `Plotter.GraphPlotter.SetXRange` | ConsoleApplication1/ConsoleApplication1/ConsoleApplication1.cpp:147 | only xMin and xMax are replaced |
| `Plotter.GraphPlotter.Plot` | ConsoleApplication1/ConsoleApplication1/ConsoleApplication1.cpp:153-174 | the canvas is height x width, and every cell holds the bare-axes glyph, stamped where the column's sample lands |

## Left out

- `FileManager` (saving a function, writing the sample table, listing saved functions) is file I/O and is not modelled.
- `GraphingCalculator` and `main` are not modelled. This covers the menu loop, reading numbers from the console, recovering from bad input and waiting for Enter.
- The printing part of `plot` (lines 176-199) is not modelled: the description and range header, the y labels, the ruler and the x tick labels. `Plot` returns the canvas instead of printing it.
- `exp` and the decimal rendering of doubles are parameters. Overflow of `exp` to infinity and NaN are not modelled. All arithmetic is exact `real` arithmetic, without floating-point rounding.
- `Plotter.GraphPlotter.SetRange`: requires a window of non-zero width and height. The source accepts a degenerate window and lets the division by zero produce inf or NaN. The same holds for `Plotter.GraphPlotter.SetXRange` and for the window maps (`Viewport.Proper`).
- `Plotter.GraphPlotter.constructor`: requires a grid of at least 2 x 2. The source accepts any size. A width of 1 divides by zero in `screenToX`, and a negative size makes the canvas allocation throw.
- `Plotter.Trunc`: a C++ cast of a double outside the `int` range is undefined behaviour. The model uses unbounded integers.
- `History.FunctionHistory.AddFunction`: `count` is unbounded, so 32-bit `int` overflow after 2^31 additions is not modelled.
- The linked nodes of `FunctionHistory` are modelled as a sequence held in a field. Node allocation, the node-by-node `delete` loop in `clear`, the destructor and pointer aliasing are not modelled, and neither is ownership of the stored functions.
- `Expression::setExpression` and `getExpression` are not modelled. The description is computed by `Describe` and never changes, which matches the source, where nothing calls `setExpression`.
