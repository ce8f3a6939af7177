/** The explorer's render-session bookkeeping, as a sequential state machine.
 *
 *  A render is started by drawFractal, which disables the user interface, sets the
 *  rows-remaining counter to `size` and hands one row task to the background for
 *  every row. Each task computes its row's colours (doInBackground) and then, on
 *  the event thread, writes them to the display and counts the row off (done); the
 *  last one re-enables the interface. Completions arrive one at a time in any order.
 *  The three GUI entry points are mouseClicked (zoom) and the reset button and
 *  generator drop-down of the action listener.
 */
module Explorer {
  import opened EscapeTime
  import opened Rectangles
  import opened Generators

  /** The rows 0 .. n-1 of an n-row display. */
  function Rows(n: nat): (r: set<int>)
    ensures |r| == n
    ensures forall y :: y in r <==> 0 <= y < n
  {
    if n == 0 then {} else Rows(n - 1) + {n - 1}
  }

  /** The events the action listener handles: the reset and save buttons and a
   *  selection in the generator drop-down. */
  datatype Action = Reset | Save | Select(choice: Generator)

  /** The zoom factor mouseClicked passes to recenterAndZoomRange. */
  const ZOOM_SCALE: real := 0.5

  class FractalExplorer {
    /** The side of the square display, in pixels. */
    const size: nat
    /** The pixel grid (the display's image), indexed [x, y]. */
    const display: array2<int>
    /** The viewport: the rectangle of the complex plane on screen. */
    const range: Rectangle
    /** The selected generator. */
    var gen: Generator
    /** Rows of the current render not yet written to the display. */
    var rowsRem: int
    /** Whether the buttons and the drop-down are enabled. */
    var uiEnabled: bool
    /** The rows whose tasks have been started and have not yet completed. */
    var scheduled: set<int>

    /** The rows the current render has already written. */
    ghost var drawn: set<int>
    /** Whether any render has been started yet. */
    ghost var begun: bool

    /** FractalGenerator.getCoord(rangeMin, rangeMax, size, coord): the plane
     *  coordinate of a pixel coordinate. */
    const getCoord: (real, real, int, int) -> real
    /** FractalGenerator.recenterAndZoomRange(range, centerX, centerY, scale): the
     *  new viewport, here returned instead of written into the rectangle. */
    const recenterAndZoomRange: (Bounds, real, real, real) -> Bounds
    /** The colour of an escaping point, Color.HSBtoRGB(0.7 + n / 200, 1, 1). */
    const hueColor: int -> int

    /** The point of the plane that pixel (x, y) shows when the viewport is b. */
    function PointAt(b: Bounds, x: int, y: int): Complex {
      Complex(getCoord(b.x, b.x + b.width, size, x), getCoord(b.y, b.y + b.height, size, y))
    }

    /** The colour a render with generator g over viewport b puts at pixel (x, y):
     *  black (0) for a point that did not escape, else the hue of its count. */
    function Pixel(g: Generator, b: Bounds, x: int, y: int): int {
      var n := EscapeCount(StepOf(g), PointAt(b, x, y));
      if n == NO_ESCAPE then 0 else hueColor(n)
    }

    /** A pixel whose point stays in bounds for all MAX_ITERATIONS steps is black. */
    lemma PixelOfBoundedPoint(g: Generator, b: Bounds, x: int, y: int)
      requires Describes(StepOf(g), PointAt(b, x, y), NO_ESCAPE)
      ensures Pixel(g, b, x, y) == 0
    {
      EscapeCountCharacterised(StepOf(g), PointAt(b, x, y), NO_ESCAPE);
    }

    /** A pixel whose point first leaves the disc |z|^2 <= 4 at iterate n gets the
     *  hue of n. */
    lemma PixelOfEscapingPoint(g: Generator, b: Bounds, x: int, y: int, n: int)
      requires n != NO_ESCAPE && Describes(StepOf(g), PointAt(b, x, y), n)
      ensures Pixel(g, b, x, y) == hueColor(n)
    {
      EscapeCountCharacterised(StepOf(g), PointAt(b, x, y), n);
    }

    /** The pixel showing the origin is black for every generator. */
    lemma OriginPixelIsBlack(g: Generator, b: Bounds, x: int, y: int)
      requires PointAt(b, x, y) == Complex(0.0, 0.0)
      ensures Pixel(g, b, x, y) == 0
    {
      Generators.OriginNeverEscapes(g, PointAt(b, x, y));
    }

    /** The grid is size by size, and the counter counts the scheduled rows. */
    ghost predicate Shape()
      reads this, display
    {
      size > 0 &&
      display.Length0 == size && display.Length1 == size &&
      (forall y :: y in scheduled ==> 0 <= y < size) &&
      rowsRem == |scheduled|
    }

    /** The state between events. Before the first drawFractal no row is scheduled or
     *  written; since the last one every row has been written or is still scheduled,
     *  every written row shows that render's colours,
     *  and the interface is enabled exactly when no row is left. */
    ghost predicate Valid()
      reads this, range, display
    {
      Shape() &&
      (begun ==> forall y :: 0 <= y < size ==> y in scheduled || y in drawn) &&
      (!begun ==> scheduled == {} && drawn == {}) &&
      (uiEnabled <==> rowsRem == 0) &&
      forall x, y :: 0 <= x < size && 0 <= y < size && y in drawn ==>
        display[x, y] == Pixel(gen, range.Value(), x, y)
    }

    /** new FractalExplorer(size); the display the GUI later creates is made here.
     *  A BufferedImage needs positive dimensions, hence size > 0. */
    constructor (size: nat, getCoord: (real, real, int, int) -> real,
                 recenterAndZoomRange: (Bounds, real, real, real) -> Bounds,
                 hueColor: int -> int)
      requires size > 0
      ensures Valid()
      ensures this.size == size && this.getCoord == getCoord
      ensures this.recenterAndZoomRange == recenterAndZoomRange && this.hueColor == hueColor
      ensures gen == Mandelbrot && range.Value() == Bounds(-2.0, -1.5, 3.0, 3.0)
      ensures rowsRem == 0 && uiEnabled && scheduled == {}
      ensures forall x, y :: 0 <= x < size && 0 <= y < size ==> display[x, y] == 0
      ensures fresh(range) && fresh(display)
    {
      this.size := size;
      this.getCoord := getCoord;
      this.recenterAndZoomRange := recenterAndZoomRange;
      this.hueColor := hueColor;
      gen := Mandelbrot;
      var r := new Rectangle();
      Generators.GetInitialRange(Mandelbrot, r);
      range := r;
      display := new int[size, size]((x, y) => 0);
      rowsRem := 0;
      uiEnabled := true;
      scheduled := {};
      drawn := {};
      begun := false;
    }

    /** drawFractal: disables the interface, sets the counter to size and starts one
     *  row task for each row. Its callers only call it while no render is running. */
    method DrawFractal()
      requires Shape() && rowsRem == 0
      modifies this
      ensures Valid()
      ensures !uiEnabled && rowsRem == size
      ensures scheduled == Rows(size) && drawn == {} && begun
      ensures gen == old(gen)
    {
      uiEnabled := false;
      rowsRem := size;
      drawn := {};
      begun := true;
      for y := 0 to size
        invariant scheduled == Rows(y)
        invariant !uiEnabled && rowsRem == size && drawn == {} && begun && gen == old(gen)
      {
        scheduled := scheduled + {y};
      }
    }

    /** FractalWorker.doInBackground for row y: one colour per column, computed with
     *  the generator and viewport of the render. */
    method DoInBackground(y: int) returns (row: array<int>)
      ensures fresh(row) && row.Length == size
      ensures forall x :: 0 <= x < size ==> row[x] == Pixel(gen, range.Value(), x, y)
    {
      row := new int[size];
      for x := 0 to size
        invariant forall x' :: 0 <= x' < x ==> row[x'] == Pixel(gen, range.Value(), x', y)
      {
        var xc := getCoord(range.x, range.x + range.width, size, x);
        var yc := getCoord(range.y, range.y + range.height, size, y);
        var numIters := Generators.NumIterations(gen, xc, yc);
        var rgbColor;
        if numIters == -1 {
          rgbColor := 0;
        } else {
          rgbColor := hueColor(numIters);
        }
        row[x] := rgbColor;
      }
    }

    /** FractalWorker.done for row y: writes the task's row into column y of the grid
     *  and nothing else, counts the row off and re-enables the interface at zero. */
    method Done(y: int, row: array<int>)
      requires Shape() && y in scheduled && row.Length == size
      modifies this, display
      ensures Shape()
      ensures forall x, y' :: 0 <= x < size && 0 <= y' < size ==>
        display[x, y'] == if y' == y then row[x] else old(display[x, y'])
      ensures rowsRem == old(rowsRem) - 1
      ensures uiEnabled == (old(uiEnabled) || rowsRem == 0)
      ensures scheduled == old(scheduled) - {y} && drawn == old(drawn) + {y}
      ensures gen == old(gen) && begun == old(begun)
    {
      for x := 0 to size
        modifies display
        invariant forall x', y' :: 0 <= x' < size && 0 <= y' < size ==>
          display[x', y'] == if y' == y && x' < x then row[x'] else old(display[x', y'])
      {
        display[x, y] := row[x];
      }
      rowsRem := rowsRem - 1;
      scheduled := scheduled - {y};
      drawn := drawn + {y};
      if rowsRem == 0 {
        uiEnabled := true;
      }
    }

    /** One row task, from its background computation to its completion. */
    method RowCompleted(y: int)
      requires Valid() && y in scheduled
      modifies this, display
      ensures Valid()
      ensures forall x, y' :: 0 <= x < size && 0 <= y' < size ==>
        display[x, y'] == if y' == y then Pixel(gen, range.Value(), x, y) else old(display[x, y'])
      ensures rowsRem == old(rowsRem) - 1 && (uiEnabled <==> rowsRem == 0)
      ensures scheduled == old(scheduled) - {y} && drawn == old(drawn) + {y}
      ensures gen == old(gen) && begun == old(begun)
    {
      var row := DoInBackground(y);
      Done(y, row);
    }

    /** The completions of every scheduled row, in the order given: afterwards no row
     *  is left, the interface is enabled, and every pixel shows the render. */
    method CompleteRender(order: seq<int>)
      requires Valid()
      requires forall i, j :: 0 <= i < j < |order| ==> order[i] != order[j]
      requires forall i :: 0 <= i < |order| ==> order[i] in scheduled
      requires |order| == rowsRem
      modifies this, display
      ensures Valid()
      ensures rowsRem == 0 && uiEnabled && scheduled == {}
      ensures gen == old(gen) && begun == old(begun)
      ensures begun ==> forall x, y :: 0 <= x < size && 0 <= y < size ==>
        display[x, y] == Pixel(gen, range.Value(), x, y)
      ensures !begun ==> unchanged(display)
    {
      for i := 0 to |order|
        invariant Valid() && gen == old(gen) && begun == old(begun)
        invariant !begun ==> unchanged(display)
        invariant rowsRem == old(rowsRem) - i
        invariant forall k :: i <= k < |order| ==> order[k] in scheduled
      {
        RowCompleted(order[i]);
      }
      if begun {
        FullCoverage();
      }
    }

    /** Once a render has been started and no row is left, the whole grid shows it. */
    lemma FullCoverage()
      requires Valid() && begun && rowsRem == 0
      ensures forall x, y :: 0 <= x < size && 0 <= y < size ==>
        display[x, y] == Pixel(gen, range.Value(), x, y)
    {
      assert scheduled == {};
    }

    /** mouseClicked with the click at pixel (ex, ey): ignored while a render is
     *  running; otherwise the viewport is recentred on the clicked point, zoomed by
     *  ZOOM_SCALE, and a new render is started. */
    method MouseClicked(ex: int, ey: int)
      requires Valid()
      modifies this, range
      ensures Valid()
      ensures gen == old(gen)
      ensures old(rowsRem) != 0 ==>
        rowsRem == old(rowsRem) && uiEnabled == old(uiEnabled) &&
        scheduled == old(scheduled) && drawn == old(drawn) && begun == old(begun) &&
        range.Value() == old(range.Value())
      ensures old(rowsRem) == 0 ==>
        range.Value() == recenterAndZoomRange(old(range.Value()),
          PointAt(old(range.Value()), ex, ey).re, PointAt(old(range.Value()), ex, ey).im, ZOOM_SCALE) &&
        !uiEnabled && rowsRem == size && scheduled == Rows(size) && drawn == {} && begun
    {
      if rowsRem != 0 {
        return;
      }
      var x := getCoord(range.x, range.x + range.width, size, ex);
      var y := getCoord(range.y, range.y + range.height, size, ey);
      var zoomScale := ZOOM_SCALE;
      range.SetRect(recenterAndZoomRange(range.Value(), x, y, zoomScale));
      DrawFractal();
    }

    /** actionPerformed of the listener on the reset and save buttons and the drop-down.
     *  The program means those widgets to be disabled during a render (enableUI), so
     *  events are taken to arrive only when the interface is enabled. Reset restores the generator's initial
     *  viewport, a selection switches generator and takes its initial viewport, and
     *  both start a new render; saving the image changes nothing in the model. */
    method ActionPerformed(e: Action)
      requires Valid() && uiEnabled
      modifies this, range
      ensures Valid()
      ensures e.Save? ==>
        gen == old(gen) && range.Value() == old(range.Value()) && rowsRem == 0 && uiEnabled &&
        scheduled == old(scheduled) && drawn == old(drawn) && begun == old(begun)
      ensures e.Reset? ==> gen == old(gen)
      ensures e.Select? ==> gen == e.choice
      ensures !e.Save? ==>
        range.Value() == InitialRange(gen) &&
        !uiEnabled && rowsRem == size && scheduled == Rows(size) && drawn == {} && begun
    {
      match e
      case Reset =>
        Generators.GetInitialRange(gen, range);
        DrawFractal();
      case Save =>
      case Select(g) =>
        gen := g;
        Generators.GetInitialRange(gen, range);
        DrawFractal();
    }
  }
}
