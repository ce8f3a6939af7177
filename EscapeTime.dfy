/** The escape-time iteration shared by the three fractal generators.
 *
 *  A generator iterates a quadratic recurrence z := step(z, c) from z = 0 and
 *  counts the loop steps until |z|^2 > 4 or until MAX_ITERATIONS steps have
 *  been taken; a count of MAX_ITERATIONS is reported as NO_ESCAPE (-1).
 *  The recurrence is a parameter here, so the meaning of a result is stated
 *  and proved once for Mandelbrot, Tricorn and Burning Ship alike.
 *  Arithmetic is over `real`: the rounding of Java's `double` is not modelled.
 */
module EscapeTime {

  /** A point x + iy of the complex plane. */
  datatype Complex = Complex(re: real, im: real)

  const Zero: Complex := Complex(0.0, 0.0)

  /** Largest number of loop steps each generator takes (MAX_ITERATIONS). */
  const MAX_ITERATIONS: nat := 2000

  /** The value numIterations reports for a point that did not escape. */
  const NO_ESCAPE: int := -1

  function MagnitudeSq(z: Complex): real {
    z.re * z.re + z.im * z.im
  }

  /** One step of a recurrence: the next iterate from the current one and the point c. */
  type Recurrence = (Complex, Complex) -> Complex

  /** The n-th iterate z_n of the orbit of `c`, starting from z_0 = 0. */
  function Orbit(step: Recurrence, c: Complex, n: nat): Complex {
    if n > 0 then step(Orbit(step, c, n - 1), c) else Zero
  }

  /** Orbit unfolded once at n + 1; a loop calls it to name the term its invariant
   *  needs, and Dafny proves it from the definition. */
  lemma OrbitNext(step: Recurrence, c: Complex, n: nat)
    ensures Orbit(step, c, n + 1) == step(Orbit(step, c, n), c)
  {
  }

  /** The magnitude half of the loop guard, applied to iterate n. */
  predicate InBounds(step: Recurrence, c: Complex, n: nat) {
    MagnitudeSq(Orbit(step, c, n)) <= 4.0
  }

  /** The loop guard's magnitude test on a variable holding iterate n is InBounds for n. */
  lemma GuardTestsInBounds(step: Recurrence, c: Complex, n: nat, re: real, im: real)
    requires Complex(re, im) == Orbit(step, c, n)
    ensures InBounds(step, c, n) <==> re * re + im * im <= 4.0
  {
    assert MagnitudeSq(Orbit(step, c, n)) == re * re + im * im;
  }

  /** The counter value at which the escape loop stops, once it has reached counter i. */
  function StopFrom(step: Recurrence, c: Complex, i: nat): nat
    requires i <= MAX_ITERATIONS
    decreases MAX_ITERATIONS - i
  {
    if i == MAX_ITERATIONS || !InBounds(step, c, i) then i
    else StopFrom(step, c, i + 1)
  }

  /** The result of numIterations for `c`: the stopping counter, with MAX_ITERATIONS remapped. */
  function EscapeCount(step: Recurrence, c: Complex): int {
    var n := StopFrom(step, c, 0);
    if n == MAX_ITERATIONS then NO_ESCAPE else n
  }

  /** What a result r of numIterations means about the orbit of c:
   *  NO_ESCAPE says that z_0 .. z_1999 all satisfy |z|^2 <= 4 (z_2000 is never tested);
   *  any other r lies in [1, 1999], z_r is the first iterate with |z|^2 > 4. */
  ghost predicate Describes(step: Recurrence, c: Complex, r: int) {
    if r == NO_ESCAPE then
      forall j :: 0 <= j < MAX_ITERATIONS ==> InBounds(step, c, j)
    else
      1 <= r < MAX_ITERATIONS && !InBounds(step, c, r) &&
      forall j :: 0 <= j < r ==> InBounds(step, c, j)
  }

  /** The loop, resumed at counter i with z_0 .. z_{i-1} in bounds, stops at the first
   *  counter that is MAX_ITERATIONS or whose iterate is out of bounds. */
  lemma {:induction false} StopFromIsFirstExit(step: Recurrence, c: Complex, i: nat)
    requires i <= MAX_ITERATIONS
    requires forall j :: 0 <= j < i ==> InBounds(step, c, j)
    ensures i <= StopFrom(step, c, i) <= MAX_ITERATIONS
    ensures forall j :: 0 <= j < StopFrom(step, c, i) ==> InBounds(step, c, j)
    ensures StopFrom(step, c, i) < MAX_ITERATIONS ==> !InBounds(step, c, StopFrom(step, c, i))
    decreases MAX_ITERATIONS - i
  {
    if i < MAX_ITERATIONS && InBounds(step, c, i) {
      StopFromIsFirstExit(step, c, i + 1);
    }
  }

  /** Every result of EscapeCount has the meaning Describes gives it; in particular it
   *  is NO_ESCAPE or lies in [1, MAX_ITERATIONS - 1], never 0 and never MAX_ITERATIONS. */
  lemma EscapeCountMeaning(step: Recurrence, c: Complex)
    ensures Describes(step, c, EscapeCount(step, c))
    ensures EscapeCount(step, c) == NO_ESCAPE || 1 <= EscapeCount(step, c) < MAX_ITERATIONS
  {
    StopFromIsFirstExit(step, c, 0);
  }

  /** A loop that has found z_0 .. z_{n-1} in bounds and stops at counter n (because n is
   *  MAX_ITERATIONS or z_n is out of bounds) stops where StopFrom says. */
  lemma StoppedAt(step: Recurrence, c: Complex, n: nat)
    requires n <= MAX_ITERATIONS
    requires forall j :: 0 <= j < n ==> InBounds(step, c, j)
    requires n < MAX_ITERATIONS ==> !InBounds(step, c, n)
    ensures StopFrom(step, c, 0) == n
  {
    StopFromIsFirstExit(step, c, 0);
  }

  /** Describes admits at most one result for a point. */
  lemma DescribesUnique(step: Recurrence, c: Complex, r1: int, r2: int)
    requires Describes(step, c, r1) && Describes(step, c, r2)
    ensures r1 == r2
  {
  }

  /** EscapeCount is exactly the result Describes characterises: both directions. */
  lemma EscapeCountCharacterised(step: Recurrence, c: Complex, r: int)
    ensures Describes(step, c, r) <==> r == EscapeCount(step, c)
  {
    EscapeCountMeaning(step, c);
    if Describes(step, c, r) {
      DescribesUnique(step, c, r, EscapeCount(step, c));
    }
  }

  /** A point whose recurrence fixes 0 has the orbit 0, 0, 0, ... exactly. */
  lemma {:induction false} OrbitOfFixedZero(step: Recurrence, c: Complex, n: nat)
    requires step(Zero, c) == Zero
    ensures Orbit(step, c, n) == Zero
  {
    if n > 0 {
      OrbitOfFixedZero(step, c, n - 1);
    }
  }

  /** A point whose recurrence fixes 0 never escapes. */
  lemma FixedZeroNeverEscapes(step: Recurrence, c: Complex)
    requires step(Zero, c) == Zero
    ensures EscapeCount(step, c) == NO_ESCAPE
  {
    forall j | 0 <= j < MAX_ITERATIONS
      ensures InBounds(step, c, j)
    {
      OrbitOfFixedZero(step, c, j);
    }
    EscapeCountCharacterised(step, c, NO_ESCAPE);
  }

  /** Two orbits that pass the magnitude test at the same steps get the same result. */
  lemma {:induction false} SameTestsSameStop(s1: Recurrence, c1: Complex, s2: Recurrence, c2: Complex, i: nat)
    requires i <= MAX_ITERATIONS
    requires forall n :: i <= n < MAX_ITERATIONS ==> (InBounds(s1, c1, n) <==> InBounds(s2, c2, n))
    ensures StopFrom(s1, c1, i) == StopFrom(s2, c2, i)
    decreases MAX_ITERATIONS - i
  {
    if i < MAX_ITERATIONS && InBounds(s1, c1, i) {
      SameTestsSameStop(s1, c1, s2, c2, i + 1);
    }
  }

  lemma SameTestsSameCount(s1: Recurrence, c1: Complex, s2: Recurrence, c2: Complex)
    requires forall n :: 0 <= n < MAX_ITERATIONS ==> (InBounds(s1, c1, n) <==> InBounds(s2, c2, n))
    ensures EscapeCount(s1, c1) == EscapeCount(s2, c2)
  {
    SameTestsSameStop(s1, c1, s2, c2, 0);
  }
}
