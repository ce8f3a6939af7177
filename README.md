# Fractal explorer: escape-time generators and render bookkeeping

This project models the core of a small Java fractal explorer and proves properties of the model. The explorer draws the Mandelbrot set, the Tricorn and the Burning Ship on a square pixel grid. Clicking zooms in. A reset button restores the starting view, and a drop-down switches the fractal.

The model has two parts.

- **The generators** (`Mandelbrot`, `Tricorn` and `BurningShip` modules).
  - `getInitialRange` writes the generator's starting viewport into a mutable rectangle (`Rectangles.Rectangle`).
  - `numIterations` is the escape loop. It starts from z = 0, iterates the generator's quadratic recurrence and counts steps. It stops when |z|² > 4 or when the counter reaches `MAX_ITERATIONS` = 2000, and it reports 2000 as −1.
  - Each loop is a Dafny `while` loop on the same locals as the Java code. Its invariant ties those locals to the pure function `EscapeTime.Orbit`.
  - The meaning of a result is stated and proved once, in `EscapeTime`, for any recurrence.
- **The explorer** (`Explorer.FractalExplorer`), a sequential state machine:
  - a size×size pixel grid (`array2<int>`);
  - the selected generator and the viewport rectangle;
  - the rows-remaining counter `rowsRem`;
  - a boolean for "buttons and drop-down enabled";
  - the set of rows whose tasks are still outstanding.

  `drawFractal` starts one row task per row. A task's `doInBackground` computes the row, and its `done` writes the row and counts it off. Completions arrive one at a time, in any order.

Each generator's recurrence, with z = (re, im) and c = x + iy:

| generator | next re | next im |
|---|---|---|
| Mandelbrot | re² − im² + x | 2·re·im + y |
| Tricorn | re² − im² + x | 2·re·(−im) + y |
| Burning Ship | \|re\|² − \|im\|² + x | 2·\|re\|·\|im\| + y |

All arithmetic is over Dafny's exact `real`, not Java's `double`.

## Model

| member | source | states |
|---|---|---|
| Mandelbrot.GetInitialRange | Mandelbrot.java:28-33 | sets the range to x = −2.0, y = −1.5, width = height = 3.0 |
| Tricorn.GetInitialRange | Tricorn.java:28-33 | sets the range to x = −2.0, y = −2.0, width = height = 4.0 |
| BurningShip.GetInitialRange | BurningShip.java:28-33 | sets the range to x = −2.0, y = −2.5, width = height = 4.0 |
| Generators.InitialRange | FractalExplorer.java:119 | every generator's initial viewport is a non-empty square with left edge −2.0 |
| Generators.GetInitialRange | FractalExplorer.java:119 | `gen.getInitialRange(range)` leaves the rectangle holding the selected generator's initial viewport |
| Mandelbrot.StepAt | Mandelbrot.java:49-52 | the loop's assignments `nextReal = real² − imag² + x`, `nextImag = 2·real·imag + y` produce the next iterate, Step(z, c), of the Mandelbrot recurrence |
| Tricorn.StepAt | Tricorn.java:49-52 | the loop's assignments (re² − im² + x, 2·re·(−im) + y) produce the next iterate, Step(z, c), of the Tricorn recurrence |
| BurningShip.StepAt | BurningShip.java:49-54 | once re and im are replaced by \|re\| and \|im\|, the loop's assignments produce the next iterate, Step(z, c), of the Burning Ship recurrence |
| Mandelbrot.NumIterations | Mandelbrot.java:42-59 | the loop ends (counter bounded by 2000); the result is EscapeCount of z² + c; it is −1 or in [1, 1999]; Describes gives its meaning |
| Tricorn.NumIterations | Tricorn.java:42-59 | the same for the step (re² − im² + x, 2·re·(−im) + y) |
| BurningShip.NumIterations | BurningShip.java:42-61 | the same for the step that first takes the absolute value of both parts |
| Generators.NumIterations | FractalExplorer.java:75 | the dispatched count is the selected generator's EscapeCount, −1 or in [1, 1999] |
| EscapeTime.StopFromIsFirstExit | Mandelbrot.java:48-54 | resumed at counter i with earlier iterates in bounds, the loop stops at the first counter that is 2000 or whose iterate has \|z\|² > 4 |
| EscapeTime.EscapeCountMeaning | Mandelbrot.java:48-58 | a result n ≠ −1 lies in [1, 1999], z_n has \|z\|² > 4 and z_0 … z_{n−1} do not; −1 means z_0 … z_1999 all have \|z\|² ≤ 4 |
| EscapeTime.StoppedAt | Mandelbrot.java:48 | a loop that exits at counter n, with z_0 … z_{n−1} in bounds and n = 2000 or z_n out of bounds, agrees with the specification function |
| EscapeTime.GuardTestsInBounds | Mandelbrot.java:48 | the guard's `real*real + imag*imag <= 4` on the locals holding z_n is the in-bounds test of iterate n |
| EscapeTime.DescribesUnique | Mandelbrot.java:55-58 | at most one result has that meaning for a point |
| EscapeTime.EscapeCountCharacterised | Mandelbrot.java:42-59 | r has that meaning if and only if r is the count (both directions) |
| EscapeTime.OrbitOfFixedZero | Mandelbrot.java:43-54 | if the step maps 0 to 0 for c, the orbit of c is 0 at every step |
| EscapeTime.FixedZeroNeverEscapes | Mandelbrot.java:55-58 | such a point is reported as −1 |
| EscapeTime.SameTestsSameCount | Mandelbrot.java:48 | two orbits that pass the magnitude test at the same steps 0 … 1999 get the same count (iterate 2000 is never tested) |
| Mandelbrot.OriginStaysAtZero | Mandelbrot.java:49-52 | the orbit of the origin is exactly 0 at every step |
| Mandelbrot.OriginNeverEscapes | Mandelbrot.java:42-59 | `numIterations(0, 0)` is −1 |
| Tricorn.OriginStaysAtZero | Tricorn.java:49-52 | the orbit of the origin is exactly 0 at every step |
| Tricorn.OriginNeverEscapes | Tricorn.java:42-59 | `numIterations(0, 0)` is −1 |
| BurningShip.OriginStaysAtZero | BurningShip.java:49-54 | the orbit of the origin is exactly 0 at every step |
| BurningShip.OriginNeverEscapes | BurningShip.java:42-61 | `numIterations(0, 0)` is −1 |
| Generators.OriginNeverEscapes | FractalExplorer.java:75 | every generator reports −1 at the origin |
| Generators.BurningShipMatchesMandelbrotAtOrigin | BurningShip.java:49-52 | at the origin Burning Ship and Mandelbrot report the same count |
| Generators.TricornSquaresConjugate | Tricorn.java:49-50 | the Tricorn step is the Mandelbrot step applied to the conjugate re − i·im |
| Generators.BurningShipFoldsSigns | BurningShip.java:49-52 | the Burning Ship step is the Mandelbrot step on (\|re\|, \|im\|), so flipping the sign of either part does not change it |
| Generators.TricornOrbitOnRealAxis | Tricorn.java:50 | for y = 0 the Tricorn orbit equals the Mandelbrot orbit and stays on the real axis |
| Generators.TricornMatchesMandelbrotOnRealAxis | Tricorn.java:48-58 | for y = 0 the Tricorn count equals the Mandelbrot count |
| Rectangles.Rectangle.SetRect | FractalExplorer.java:170 | the rectangle afterwards holds the given bounds |
| Explorer.Rows | FractalExplorer.java:238 | the rows 0 … n−1, exactly n of them |
| Explorer.FractalExplorer.PixelOfBoundedPoint | FractalExplorer.java:75-79 | a pixel whose point stays in bounds for 2000 steps is black (0) |
| Explorer.FractalExplorer.PixelOfEscapingPoint | FractalExplorer.java:75-83 | a pixel whose point first leaves the disc at iterate n gets the hue of n |
| Explorer.FractalExplorer.OriginPixelIsBlack | FractalExplorer.java:75-79 | the pixel showing the origin is black for every generator |
| Explorer.FractalExplorer.constructor | FractalExplorer.java:42-48 | the generator is Mandelbrot, the range is (−2.0, −1.5, 3.0, 3.0), no row is outstanding, the grid is black, the state invariant holds |
| Explorer.FractalExplorer.DrawFractal | FractalExplorer.java:235-242 | disables the interface, sets rowsRem to size and schedules exactly the rows 0 … size−1 |
| Explorer.FractalExplorer.DoInBackground | FractalExplorer.java:67-88 | returns a fresh row of exactly size entries; entry x is the colour of pixel (x, y), black for −1 |
| Explorer.FractalExplorer.Done | FractalExplorer.java:92-101 | writes the row into column y of the grid and nothing else; rowsRem drops by one; the interface is enabled when rowsRem reaches 0 and is otherwise unchanged |
| Explorer.FractalExplorer.RowCompleted | FractalExplorer.java:67-101 | one task's complete run keeps the invariant ("interface enabled ⇔ rowsRem = 0", rowsRem = number of outstanding rows); column y afterwards shows the render |
| Explorer.FractalExplorer.CompleteRender | FractalExplorer.java:92-101 | after every outstanding row completes, in any order, rowsRem = 0, the interface is enabled, generator and "a render has been started" are unchanged; once a render has been started every pixel shows it, and before any render the grid is untouched |
| Explorer.FractalExplorer.FullCoverage | FractalExplorer.java:235-242 | once a render has started and no row is left, every pixel of the grid holds that render's colour |
| Explorer.FractalExplorer.MouseClicked | FractalExplorer.java:161-172 | changes nothing while rowsRem ≠ 0; otherwise recentres the range on the clicked point with scale 0.5 and starts a render (all rows scheduled, none drawn, a render begun) |
| Explorer.FractalExplorer.ActionPerformed | FractalExplorer.java:109-151 | reset restores the current generator's initial range; a selection switches generator and takes its initial range; both start a render (all rows scheduled, none drawn, a render begun); save changes no state |

## Left out

- Java `double` arithmetic: the model computes over exact reals. None of the proved properties needs rounding. The model does not claim bit-exact counts for general points.
- The Swing user interface: `createAndShowGUI`, `repaint`, and the event-source checks of the listener. `enableUI` (FractalExplorer.java:221-231) is modelled as the boolean `uiEnabled`, which stands for its intended effect of disabling the buttons and the drop-down. As written, the walk reaches no widget. It visits the frame's direct children, and a `JFrame`'s only child is its root pane, not a `JPanel`. The panels were added with `frame.add` (lines 208-210), which places them in the content pane.
- Saving the image (FractalExplorer.java:126-140) is file I/O. The `Save` action changes no modelled state.
- `SwingWorker` threading: tasks are not interleaved, and `RowCompleted` runs a task's background computation and its `done` back to back. This relies on two things. First, the intended effect of `enableUI` (see Explorer.FractalExplorer.ActionPerformed below): no reset or selection arrives while a task runs. Second, `mouseClicked` is guarded by `rowsRem` (FractalExplorer.java:162). Under both, no event changes the generator or the range while a task runs. As written, the widget walk disables nothing. A reset (lines 118-121) or a selection (lines 146-149) during a render can therefore change `range` or `gen` between two rows' computations, and the model does not cover that.
- `Color.HSBtoRGB` and the float hue `0.7 + n/200` are the parameter `hueColor`. Only "a −1 result gives black" is proved.
- `FractalGenerator.getCoord` and `recenterAndZoomRange` are parameters of the explorer: FractalGenerator.java is not part of this model. `recenterAndZoomRange` returns the new viewport, which is stored with `Rectangle.SetRect` rather than written in place.
- JImageDisplay.java is not modelled. Its image is the explorer's `display` grid, indexed [x, y] as `drawPixel(x, y, rgb)` is.
- Explorer.FractalExplorer.constructor: creates the grid itself instead of leaving it to `createAndShowGUI`. It therefore requires size > 0, because a `BufferedImage` needs positive dimensions.
- The worker's fields `y` and `row` are the parameters of `DoInBackground` and `Done`.
- `toString` names and `main` are left out.
- Explorer.FractalExplorer.ActionPerformed: requires the interface to be enabled. This models the intended behaviour of `enableUI`, under which the buttons and the drop-down fire no events during a render. `actionPerformed` itself has no guard (lines 109-151). Because the widget walk as written disables nothing, a Reset or a selection during a render reaches `drawFractal` while rows are outstanding. The counter then restarts at size, and the earlier tasks' completions can later drive it below 0. The model does not cover that interleaving.
- Explorer.FractalExplorer.Done: requires that row y is still outstanding, because each task started by `drawFractal` completes exactly once.
- Explorer.FractalExplorer.DrawFractal: requires rowsRem = 0. `main` and `mouseClicked` after its guard call it only then. `actionPerformed` does so only under the intended effect of `enableUI` described above, not as the widget walk is written.
- Generators.NumIterations: states the count and its range. The orbit meaning is stated by each generator's own NumIterations and by EscapeTime.EscapeCountMeaning.
- The loop always runs at least once (|0|² ≤ 4), so a result is never 0: `numIterations` returns −1 or a value in [1, 1999], and the contracts state exactly that range.
