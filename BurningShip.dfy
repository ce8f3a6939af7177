/** The Burning Ship generator: both parts of z are made non-negative before squaring. */
module BurningShip {
  import opened EscapeTime
  import opened Rectangles

  const RANGE_X: real := -2.0
  const RANGE_Y: real := -2.5
  const DIM: real := 4.0

  /** Math.abs on a double, over `real`. */
  function Abs(v: real): real {
    if v < 0.0 then -v else v
  }

  /** Overwrites `range` with the square viewport the ship is first shown in. */
  method GetInitialRange(range: Rectangle)
    modifies range
    ensures range.x == -2.0 && range.y == -2.5
    ensures range.width == 4.0 && range.height == 4.0
  {
    range.x := RANGE_X;
    range.y := RANGE_Y;
    range.width := DIM;
    range.height := DIM;
  }

  /** One loop step: re, im := |re|, |im|, then (re^2 - im^2 + x, 2 re im + y). */
  function Step(z: Complex, c: Complex): Complex {
    var re := Abs(z.re);
    var im := Abs(z.im);
    Complex(re * re - im * im + c.re, 2.0 * re * im + c.im)
  }

  /** The loop's assignments compute one step of the recurrence from (re, im), once
   *  they have replaced re and im by their absolute values a and b. Asserting the two
   *  components separately keeps the proof stable across solver seeds; stated as one
   *  equation, nonlinear real arithmetic fails on some. */
  lemma StepAt(re: real, im: real, a: real, b: real, x: real, y: real)
    requires a == Abs(re) && b == Abs(im)
    ensures Step(Complex(re, im), Complex(x, y)) == Complex(a * a - b * b + x, 2.0 * a * b + y)
  {
    assert Step(Complex(re, im), Complex(x, y)).re == a * a - b * b + x;
    assert Step(Complex(re, im), Complex(x, y)).im == 2.0 * a * b + y;
  }

  /** The escape loop for the point x + iy. */
  method NumIterations(x: real, y: real) returns (n: int)
    ensures n == EscapeCount(Step, Complex(x, y))
    ensures n == NO_ESCAPE || 1 <= n < MAX_ITERATIONS
    ensures Describes(Step, Complex(x, y), n)
  {
    ghost var c := Complex(x, y);
    n := 0;
    var nextReal, nextImag, re, im := 0.0, 0.0, 0.0, 0.0;
    while n < MAX_ITERATIONS && re * re + im * im <= 4.0
      invariant 0 <= n <= MAX_ITERATIONS
      invariant Complex(re, im) == Orbit(Step, c, n)
      invariant forall j :: 0 <= j < n ==> InBounds(Step, c, j)
      decreases MAX_ITERATIONS - n
    {
      GuardTestsInBounds(Step, c, n, re, im);
      OrbitNext(Step, c, n);
      ghost var z := Complex(re, im);
      re := Abs(re);
      im := Abs(im);
      nextReal := re * re - im * im + x;
      nextImag := 2.0 * re * im + y;
      StepAt(z.re, z.im, re, im, x, y);
      re := nextReal;
      im := nextImag;
      n := n + 1;
    }
    GuardTestsInBounds(Step, c, n, re, im);
    StoppedAt(Step, c, n);
    if n == MAX_ITERATIONS {
      n := NO_ESCAPE;
    }
    EscapeCountMeaning(Step, c);
  }

  /** The origin is a fixed point of its own recurrence: its orbit is 0 at every step. */
  lemma OriginStaysAtZero(c: Complex, n: nat)
    requires c == Complex(0.0, 0.0)
    ensures Orbit(Step, c, n) == Complex(0.0, 0.0)
  {
    OrbitOfFixedZero(Step, c, n);
  }

  /** numIterations(0, 0) reports NO_ESCAPE. */
  lemma OriginNeverEscapes(c: Complex)
    requires c == Complex(0.0, 0.0)
    ensures EscapeCount(Step, c) == NO_ESCAPE
  {
    FixedZeroNeverEscapes(Step, c);
  }
}
