/** The three generators behind one selector, as the explorer's drop-down offers
 *  them, and the facts that relate one variant to another. */
module Generators {
  import opened EscapeTime
  import opened Rectangles
  import M = Mandelbrot
  import T = Tricorn
  import B = BurningShip

  datatype Generator = Mandelbrot | Tricorn | BurningShip

  /** The recurrence a generator iterates. */
  function StepOf(g: Generator): Recurrence {
    match g
    case Mandelbrot => M.Step
    case Tricorn => T.Step
    case BurningShip => B.Step
  }

  /** The viewport a generator starts in; every one of them is a non-empty square. */
  function InitialRange(g: Generator): (b: Bounds)
    ensures b.width == b.height && b.width > 0.0
    ensures b.x == -2.0
  {
    match g
    case Mandelbrot => Bounds(M.RANGE_X, M.RANGE_Y, M.DIM, M.DIM)
    case Tricorn => Bounds(T.RANGE_X, T.RANGE_Y, T.DIM, T.DIM)
    case BurningShip => Bounds(B.RANGE_X, B.RANGE_Y, B.DIM, B.DIM)
  }

  /** gen.getInitialRange(range), dispatched on the selected generator. */
  method GetInitialRange(g: Generator, range: Rectangle)
    modifies range
    ensures range.Value() == InitialRange(g)
  {
    match g
    case Mandelbrot => M.GetInitialRange(range);
    case Tricorn => T.GetInitialRange(range);
    case BurningShip => B.GetInitialRange(range);
  }

  /** gen.numIterations(x, y), dispatched on the selected generator. */
  method NumIterations(g: Generator, x: real, y: real) returns (n: int)
    ensures n == EscapeCount(StepOf(g), Complex(x, y))
    ensures n == NO_ESCAPE || 1 <= n < MAX_ITERATIONS
  {
    match g
    case Mandelbrot => n := M.NumIterations(x, y);
    case Tricorn => n := T.NumIterations(x, y);
    case BurningShip => n := B.NumIterations(x, y);
  }

  /** All three generators report NO_ESCAPE at the origin. */
  lemma OriginNeverEscapes(g: Generator, c: Complex)
    requires c == Complex(0.0, 0.0)
    ensures EscapeCount(StepOf(g), c) == NO_ESCAPE
  {
    match g
    case Mandelbrot => M.OriginNeverEscapes(c);
    case Tricorn => T.OriginNeverEscapes(c);
    case BurningShip => B.OriginNeverEscapes(c);
  }

  /** At the origin the Burning Ship reports what the Mandelbrot set does. */
  lemma BurningShipMatchesMandelbrotAtOrigin(c: Complex)
    requires c == Complex(0.0, 0.0)
    ensures EscapeCount(B.Step, c) == EscapeCount(M.Step, c)
  {
    B.OriginNeverEscapes(c);
    M.OriginNeverEscapes(c);
  }

  /** The complex conjugate x - iy of x + iy. */
  function Conjugate(z: Complex): Complex {
    Complex(z.re, -z.im)
  }

  /** The Tricorn step squares the conjugate: it is the Mandelbrot step applied to conj(z). */
  lemma TricornSquaresConjugate(z: Complex, c: Complex)
    ensures T.Step(z, c) == M.Step(Conjugate(z), c)
  {
    NegSquare(z.im);
    assert T.Step(z, c).re == M.Step(Conjugate(z), c).re;
  }

  /** Negation cancels in a square. Dafny proves it unaided; naming it keeps the
   *  conjugate proof above from depending on the solver seed. */
  lemma NegSquare(v: real)
    ensures (-v) * (-v) == v * v
  {
  }

  /** The Burning Ship step is the Mandelbrot step applied to (|re|, |im|), so it does
   *  not see the signs of either part. */
  lemma BurningShipFoldsSigns(z: Complex, c: Complex)
    ensures B.Step(z, c) == M.Step(Complex(B.Abs(z.re), B.Abs(z.im)), c)
    ensures B.Step(Complex(-z.re, z.im), c) == B.Step(z, c)
    ensures B.Step(Complex(z.re, -z.im), c) == B.Step(z, c)
  {
    assert B.Abs(-z.re) == B.Abs(z.re) && B.Abs(-z.im) == B.Abs(z.im);
  }

  /** On the real axis the Tricorn orbit is the Mandelbrot orbit, and stays real. */
  lemma {:induction false} TricornOrbitOnRealAxis(x: real, n: nat)
    ensures Orbit(T.Step, Complex(x, 0.0), n) == Orbit(M.Step, Complex(x, 0.0), n)
    ensures Orbit(M.Step, Complex(x, 0.0), n).im == 0.0
  {
    if n > 0 {
      TricornOrbitOnRealAxis(x, n - 1);
    }
  }

  /** With y = 0 the Tricorn reports the same count as the Mandelbrot set. */
  lemma TricornMatchesMandelbrotOnRealAxis(x: real)
    ensures EscapeCount(T.Step, Complex(x, 0.0)) == EscapeCount(M.Step, Complex(x, 0.0))
  {
    forall n | 0 <= n <= MAX_ITERATIONS
      ensures InBounds(T.Step, Complex(x, 0.0), n) <==> InBounds(M.Step, Complex(x, 0.0), n)
    {
      TricornOrbitOnRealAxis(x, n);
    }
    SameTestsSameCount(T.Step, Complex(x, 0.0), M.Step, Complex(x, 0.0));
  }
}
