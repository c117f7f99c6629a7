/** The stable-pool quote: a scaled x^3*y + y^3*x invariant and a one-step integer Newton solver. */
module StableCurve {
  import opened Numbers
  import opened VolatileSwap

  const SCALE := 1_000_000

  function Cube(x: int): int { x * x * x }

  /** The exact polynomial x^3*y + y^3*x. */
  function Poly(x: int, y: int): int { Cube(x) * y + Cube(y) * x }

  function Invariant(x: int, y: int): int {
    var xs := TruncDiv(x, SCALE);
    var ys := TruncDiv(y, SCALE);
    var x3y := TruncDiv(xs * xs * xs * ys, SCALE);
    var y3x := TruncDiv(ys * ys * ys * xs, SCALE);
    (x3y + y3x) * SCALE
  }

  // ---------- The invariant ----------

  lemma PolyMono(x: nat, y: nat, x': nat, y': nat)
    requires x <= x' && y <= y'
    ensures 0 <= Cube(x) * y <= Cube(x') * y'
  {
    MulPos(x, x); MulPos(x * x, x); MulPos(Cube(x), y);
    MulLe(x, x', x); MulLe(x, x', x');
    MulPos(x', x');
    MulLe(x * x, x' * x', x); MulLe(x, x', x' * x');
    MulLe(Cube(x), Cube(x'), y); MulPos(x' * x', x'); MulLe(y, y', Cube(x'));
  }

  lemma InvariantParts(x: nat, y: nat)
    ensures var xs, ys := x / SCALE, y / SCALE;
            && Cube(xs) * ys >= 0 && Cube(ys) * xs >= 0
            && Invariant(x, y) == (Cube(xs) * ys / SCALE + Cube(ys) * xs / SCALE) * SCALE
  {
    PolyMono(0, 0, x / SCALE, y / SCALE);
    PolyMono(0, 0, y / SCALE, x / SCALE);
  }

  /** Symmetric, and below the exact polynomial of the scaled reserves by less than two units of scale. */
  lemma InvariantMeaning(x: nat, y: nat)
    ensures Invariant(x, y) == Invariant(y, x)
    ensures 0 <= Poly(x / SCALE, y / SCALE) - Invariant(x, y) < 2 * SCALE
  {
    InvariantParts(x, y);
    InvariantParts(y, x);
  }

  lemma InvariantMono(x: nat, y: nat, x': nat, y': nat)
    requires x <= x' && y <= y'
    ensures 0 <= Invariant(x, y) <= Invariant(x', y')
  {
    InvariantParts(x, y);
    InvariantParts(x', y');
    DivMono(x, x', SCALE);
    DivMono(y, y', SCALE);
    HalfMono(x / SCALE, y / SCALE, x' / SCALE, y' / SCALE);
    HalfMono(y / SCALE, x / SCALE, y' / SCALE, x' / SCALE);
  }

  lemma HalfMono(x: nat, y: nat, x': nat, y': nat)
    requires x <= x' && y <= y'
    ensures 0 <= Cube(x) * y / SCALE <= Cube(x') * y' / SCALE
  {
    PolyMono(x, y, x', y');
    LeDiv(0, Cube(x) * y, SCALE);
    DivMono(Cube(x) * y, Cube(x') * y', SCALE);
  }

  // ---------- The solver ----------

  /** `X` and `K` are the solver's own scaled input reserve and invariant; its result is still unscaled. */
  function FirstGuess(X: int, K: int): int
    requires X != 0
  {
    CubeNonzero(X);
    TruncDiv(K, Cube(X))
  }

  lemma CubeNonzero(x: int)
    requires x != 0
    ensures Cube(x) != 0
  {
    assert x * x != 0;
  }

  function Residual(X: int, K: int, y: int): int { Cube(X) * y + Cube(y) * X - K }

  function Slope(X: int, y: int): int { Cube(X) + 3 * y * y * X }

  function NewtonStep(X: int, K: int): int
    requires X != 0
  {
    var y := FirstGuess(X, K);
    var f := Residual(X, K, y);
    var df := Slope(X, y);
    if df > 0 then y - TruncDiv(f, df) else y
  }

  /** Convexity: one floored Newton step down from `y` stays at or above the curve's value minus `d` slopes. */
  lemma Tangent(X: nat, y: nat, d: nat)
    requires d <= y
    ensures Cube(X) * (y - d) + Cube(y - d) * X >= Cube(X) * y + Cube(y) * X - d * Slope(X, y)
  {
    CubeOfDifference(y, d);
    GapPos(y, d);
    var gap := 3 * y * d * d - d * d * d;
    MulPos(gap, X);
    TangentTerms(Cube(X), Cube(y), Cube(y - d), gap, X, y, d);
  }

  lemma GapPos(y: nat, d: nat)
    requires d <= y
    ensures 3 * y * d * d - d * d * d >= 0
  {
    MulPos(d, d);
    MulLe(d, 3 * y, d * d);
  }

  lemma CubeOfDifference(y: int, d: int)
    ensures Cube(y - d) == Cube(y) - 3 * y * y * d + (3 * y * d * d - d * d * d)
  {
    assert (y - d) * (y - d) == y * y - 2 * y * d + d * d;
    calc {
      (y * y - 2 * y * d + d * d) * (y - d);
      y * y * y - 2 * y * d * y + d * d * y - y * y * d + 2 * y * d * d - d * d * d;
    }
  }

  lemma TangentTerms(X3: int, y3: int, z3: int, gap: int, X: int, y: int, d: int)
    requires z3 == y3 - 3 * y * y * d + gap
    requires gap * X >= 0
    ensures X3 * (y - d) + z3 * X >= X3 * y + y3 * X - d * (X3 + 3 * y * y * X)
  {
    assert X3 * (y - d) == X3 * y - X3 * d;
    assert z3 * X == y3 * X - 3 * y * y * d * X + gap * X;
    assert d * (X3 + 3 * y * y * X) == X3 * d + 3 * y * y * d * X;
  }

  lemma CubePos(X: nat)
    requires X >= 1
    ensures Cube(X) >= X * X >= X >= 1
  {
    MulPos(X, X);
    MulPos(X * X, X);
  }

  lemma SlopePos(X: nat, y: nat)
    requires X >= 1
    ensures Slope(X, y) >= Cube(X) >= 1
  {
    CubePos(X);
    MulPos(y, y);
    MulPos(3 * y * y, X);
  }

  /** A residual below zero is smaller than one slope, so the truncated step is zero. */
  lemma NegativeResidual(X: nat, K: nat)
    requires X >= 1
    ensures var y := FirstGuess(X, K);
            y == K / Cube(X) && y >= 0
            && (Residual(X, K, y) < 0 ==> NewtonStep(X, K) == y)
            && Residual(X, K, y) > -Cube(X)
            && Residual(X, K, y) <= Cube(y) * X
  {
    CubePos(X);
    var y := FirstGuess(X, K);
    DivBounds(K, Cube(X));
    LeDiv(0, K, Cube(X));
    MulPos(y, y);
    MulPos(y * y, y);
    MulPos(Cube(y), X);
    SlopePos(X, y);
    var f := Residual(X, K, y);
    if f < 0 {
      DivIs(-f, Slope(X, y), 0);
    }
  }

  /** A step is never longer than the guess itself. */
  lemma StepWithin(X: nat, y: nat, f: int)
    requires X >= 1 && 0 <= f <= Cube(y) * X
    ensures Slope(X, y) > 0 && 0 <= f / Slope(X, y) <= y
    ensures (f / Slope(X, y)) * Slope(X, y) <= f
  {
    SlopePos(X, y);
    CubicBelowSlope(X, y);
    Quotient(f, Slope(X, y), y);
  }

  lemma CubicBelowSlope(X: nat, y: nat)
    ensures Cube(y) * X <= y * Slope(X, y)
  {
    MulPos(X, X); MulPos(X * X, X); MulPos(y, Cube(X));
    MulPos(y, y); MulPos(y * y, y); MulPos(Cube(y), X);
    SlopeTerms(Cube(X), X, y);
  }

  lemma SlopeTerms(X3: int, X: int, y: int)
    ensures y * (X3 + 3 * y * y * X) == y * X3 + 3 * (y * y * y * X)
  {
  }

  lemma Quotient(f: nat, df: nat, y: nat)
    requires df >= 1 && f <= y * df
    ensures 0 <= f / df <= y && (f / df) * df <= f
  {
    DivBounds(f, df);
    LeDiv(0, f, df);
    if f / df > y {
      MulLe(y + 1, f / df, df);
    }
  }

  /**
   * The solver stays between zero and its first guess, and one unit above its result is always enough.
   * Its result already reaches `K` exactly when the first residual is not negative.
   */
  lemma SolverSound(X: nat, K: nat)
    requires X >= 1
    ensures 0 <= NewtonStep(X, K) <= FirstGuess(X, K)
    ensures Cube(X) * NewtonStep(X, K) <= K
    ensures var y := NewtonStep(X, K); Cube(X) * (y + 1) + Cube(y + 1) * X >= K
    ensures var y := NewtonStep(X, K);
            Cube(X) * y + Cube(y) * X >= K <==> Residual(X, K, FirstGuess(X, K)) >= 0
  {
    NegativeResidual(X, K);
    CubePos(X);
    var y0 := FirstGuess(X, K);
    var f := Residual(X, K, y0);
    var y := NewtonStep(X, K);
    if f >= 0 {
      StepWithin(X, y0, f);
      var d := f / Slope(X, y0);
      Tangent(X, y0, d);
      assert y == y0 - d;
      assert Cube(X) * y + Cube(y) * X >= K;
    }
    MulLe(y, y0, Cube(X));
    DivBounds(K, Cube(X));
    Grows(X, y);
  }

  lemma Grows(X: nat, y: nat)
    requires X >= 1
    ensures Cube(X) * (y + 1) + Cube(y + 1) * X >= Cube(X) * y + Cube(y) * X + Cube(X)
  {
    MulPos(y, y);
    assert Cube(y + 1) == Cube(y) + 3 * y * y + 3 * y + 1;
    MulLe(Cube(y), Cube(y + 1), X);
  }

  /** The least integer that reaches `K` on the curve. */
  ghost predicate IsRoot(X: nat, K: int, r: nat) {
    && Cube(X) * r + Cube(r) * X >= K
    && forall t: nat | t < r :: Cube(X) * t + Cube(t) * X < K
  }

  lemma {:induction false} CurveMono(X: nat, s: nat, t: nat)
    requires X >= 1 && s <= t
    ensures Cube(X) * s + Cube(s) * X <= Cube(X) * t + Cube(t) * X
    decreases t - s
  {
    if s < t {
      Grows(X, s);
      CubePos(X);
      CurveMono(X, s + 1, t);
    }
  }

  /** Against the true integer root: never more than one below it, and below it exactly when the first residual is negative. */
  lemma SolverAgainstRoot(X: nat, K: nat, r: nat)
    requires X >= 1 && IsRoot(X, K, r)
    ensures NewtonStep(X, K) >= r - 1
    ensures NewtonStep(X, K) < r <==> Residual(X, K, FirstGuess(X, K)) < 0
  {
    SolverSound(X, K);
    var y := NewtonStep(X, K);
    if y + 1 < r {
      assert false;
    }
    if y >= r {
      CurveMono(X, r, y);
    }
  }

  // ---------- The composed quote ----------

  function SolveStable(newX: int, k: int): Quote {
    var X := TruncDiv(newX, SCALE);
    var K := TruncDiv(k, SCALE);
    if X == 0 then DivisionByZero else Amount(NewtonStep(X, K) * SCALE)
  }

  /** The new output reserve comes from the solver; a negative payout is clamped to zero. */
  function SideQuote(reserveIn: int, reserveOut: int, newReserveIn: int): Quote {
    match SolveStable(newReserveIn, Invariant(reserveIn, reserveOut))
    case DivisionByZero => DivisionByZero
    case Amount(newReserveOut) =>
      var amountOut := reserveOut - newReserveOut;
      Amount(if amountOut > 0 then amountOut else 0)
  }

  function QuoteStable(amountIn: int, pool: Pool, zeroForOne: bool): Quote {
    var net := AfterFee(amountIn, pool.fee);
    var reserveIn := if zeroForOne then pool.reserve0 else pool.reserve1;
    var reserveOut := if zeroForOne then pool.reserve1 else pool.reserve0;
    SideQuote(reserveIn, reserveOut, reserveIn + net)
  }

  /** The quote fails exactly on an input side below one unit of scale, and otherwise lies within the output reserve. */
  lemma QuoteStableInRange(amountIn: nat, pool: Pool, zeroForOne: bool)
    requires pool.fee <= BPS
    ensures var x := if zeroForOne then pool.reserve0 else pool.reserve1;
            var y := if zeroForOne then pool.reserve1 else pool.reserve0;
            var q := QuoteStable(amountIn, pool, zeroForOne);
            && (q == DivisionByZero <==> x + AfterFee(amountIn, pool.fee) < SCALE)
            && (q.Amount? ==> 0 <= q.out <= y)
  {
    AfterFeeRange(amountIn, pool.fee);
    var x := if zeroForOne then pool.reserve0 else pool.reserve1;
    var y := if zeroForOne then pool.reserve1 else pool.reserve0;
    var newX := x + AfterFee(amountIn, pool.fee);
    InvariantMono(0, 0, x, y);
    if newX >= SCALE {
      LeDiv(1, newX, SCALE);
      SolverSound(newX / SCALE, Invariant(x, y) / SCALE);
    }
  }

  // ---------- What the double scaling costs ----------

  /** What a quote leaves in the output reserve, in units of scale. */
  function LeftBehind(x: nat, y: nat, newX: nat): int
    requires newX >= SCALE
  {
    LeDiv(1, newX, SCALE);
    NewtonStep(newX / SCALE, TruncDiv(Invariant(x, y), SCALE))
  }

  /** 10^6 * left <= ys * (1 + (ys / xs)^2), without the division: two millionths of `ys` in a balanced pool, more in a skewed one. */
  ghost predicate LeavesAtMost(left: int, xs: nat, ys: nat) {
    SCALE * left * (xs * xs) <= ys * (xs * xs + ys * ys)
  }

  lemma GuessBound(X: nat, xs: nat, ys: nat, K: nat, g: nat)
    requires X >= xs >= 1 && SCALE * K <= Poly(xs, ys) && Cube(X) * g <= K
    ensures LeavesAtMost(g, xs, ys)
  {
    PolyMono(xs, 1, X, 1);
    MulLe(Cube(xs), Cube(X), g);
    GuessTerms(xs, ys, g);
    if SCALE * g * (xs * xs) > ys * (xs * xs + ys * ys) {
      MulLe(ys * (xs * xs + ys * ys) + 1, SCALE * g * (xs * xs), xs);
    }
  }

  lemma GuessTerms(xs: nat, ys: nat, g: nat)
    ensures SCALE * g * (xs * xs) * xs == SCALE * (Cube(xs) * g)
    ensures ys * (xs * xs + ys * ys) * xs == Poly(xs, ys)
  {
  }

  lemma SolvedGuess(xs: nat, ys: nat, X: nat, K: nat)
    requires X >= xs >= 1 && SCALE * K <= Poly(xs, ys)
    ensures LeavesAtMost(NewtonStep(X, K), xs, ys)
  {
    SolverSound(X, K);
    GuessBound(X, xs, ys, K, NewtonStep(X, K));
  }

  /**
   * The invariant is divided by the scale once when computed and once more when solved, so what a quote leaves
   * behind has a bound that shrinks by that scale, whatever the input.
   */
  lemma StableQuoteOverpays(x: nat, y: nat, newX: nat)
    requires newX >= x >= SCALE
    ensures LeavesAtMost(LeftBehind(x, y, newX), x / SCALE, y / SCALE)
    ensures SideQuote(x, y, newX) == Amount(Max(0, y - SCALE * LeftBehind(x, y, newX)))
  {
    LeDiv(1, x, SCALE);
    DivMono(x, newX, SCALE);
    InvariantMono(0, 0, x, y);
    InvariantMeaning(x, y);
    InvariantParts(x, y);
    SolvedGuess(x / SCALE, y / SCALE, newX / SCALE, Invariant(x, y) / SCALE);
  }

  /** When the output side is no larger than the input side, any input, even zero, is quoted all but two millionths of it. */
  lemma BalancedPoolDrained(amountIn: nat, pool: Pool, zeroForOne: bool)
    requires pool.fee <= BPS
    requires zeroForOne ==> pool.reserve0 >= SCALE && pool.reserve0 >= pool.reserve1
    requires !zeroForOne ==> pool.reserve1 >= SCALE && pool.reserve1 >= pool.reserve0
    ensures var y := if zeroForOne then pool.reserve1 else pool.reserve0;
            var q := QuoteStable(amountIn, pool, zeroForOne);
            q.Amount? && SCALE * (y - q.out) <= 2 * y
  {
    AfterFeeRange(amountIn, pool.fee);
    var x := if zeroForOne then pool.reserve0 else pool.reserve1;
    var y := if zeroForOne then pool.reserve1 else pool.reserve0;
    var newX := x + AfterFee(amountIn, pool.fee);
    StableQuoteOverpays(x, y, newX);
    LeDiv(1, x, SCALE);
    DivMono(y, x, SCALE);
    CancelSquare(SCALE * LeftBehind(x, y, newX), x / SCALE, y / SCALE);
    DivBounds(y, SCALE);
  }

  lemma CancelSquare(a: int, xs: nat, ys: nat)
    requires xs >= 1 && ys <= xs && a * (xs * xs) <= ys * (xs * xs + ys * ys)
    ensures a <= 2 * ys
  {
    MulPos(xs, xs);
    MulLe(ys, xs, ys);
    MulLe(ys, xs, xs);
    MulLe(xs * xs + ys * ys, 2 * (xs * xs), ys);
    if a > 2 * ys {
      MulLe(2 * ys + 1, a, xs * xs);
    }
  }

  // ---------- When the double scaling pays, and when it breaks the curve ----------

  /** The solver's own guard, computed from its first guess: the step ends below `t`. */
  ghost predicate StepsBelow(X: nat, K: nat, t: nat)
    requires X != 0
  {
    var g := FirstGuess(X, K);
    g < t || Residual(X, K, g) >= (g - t + 1) * Slope(X, g)
  }

  lemma StepBelowIff(X: nat, K: nat, t: nat)
    requires X >= 1
    ensures NewtonStep(X, K) < t <==> StepsBelow(X, K, t)
  {
    NegativeResidual(X, K);
    var g := FirstGuess(X, K);
    var f := Residual(X, K, g);
    SlopePos(X, g);
    LeDiv(0, f, Slope(X, g));
    LeDiv(g - t + 1, f, Slope(X, g));
    if g >= t {
      MulLe(1, g - t + 1, Slope(X, g));
    }
  }

  lemma GuardTerms(X: int, K: int, g: int, t: int)
    ensures Residual(X, K, g) - (g - t + 1) * Slope(X, g) == Cube(X) * (t - 1) + (g * g * X) * (3 * (t - 1) - 2 * g) - K
  {
    SplitSlope(Cube(X), g * g * X, g, t);
    assert Slope(X, g) == Cube(X) + 3 * (g * g * X);
    assert Cube(g) * X == g * (g * g * X);
  }

  lemma SplitSlope(c: int, a: int, g: int, t: int)
    ensures c * g + g * a - (g - t + 1) * (c + 3 * a) == c * (t - 1) + a * (3 * (t - 1) - 2 * g)
  {
  }

  /** Up to a ratio of 1224 the step ends below `t` on every target that is a millionth of the curve at `t`. */
  lemma StepsBelowUpTo1224(X: nat, K: nat, t: nat)
    requires X >= 1 && 1 <= t <= 1224 * X && SCALE * K <= Poly(X, t)
    ensures NewtonStep(X, K) < t
  {
    var g := FirstGuess(X, K);
    NegativeResidual(X, K);
    CubePos(X);
    DivBounds(K, Cube(X));
    StepBelowIff(X, K, t);
    if g >= t {
      GuessBound(X, X, t, K, g);
      GuessBelow(X, t, g);
      TargetBelow(X, t, K);
      CurvatureWins(X, t, g, K);
      GuardTerms(X, K, g, t);
      MulPos(Cube(X), t - 1);
    }
  }

  lemma SquareBelow(X: nat, t: nat)
    requires t <= 1224 * X
    ensures t * t <= 1_498_176 * (X * X)
  {
    MulLe(t, 1224 * X, t);
    MulLe(t, 1224 * X, 1224 * X);
  }

  /** Where the guess is at least `t`, it still leaves a positive curvature term. */
  lemma GuessBelow(X: nat, t: nat, g: nat)
    requires X >= 1 && 1 <= t <= 1224 * X && t <= g && LeavesAtMost(g, X, t)
    ensures t * t >= 999_999 * (X * X)
    ensures SCALE * (3 * (t - 1) - 2 * g) >= 600 * t
  {
    var q := X * X;
    MulPos(X, X);
    SquareBelow(X, t);
    MulLe(q + t * t, 1_498_177 * q, t);
    CancelRight(SCALE * g, 1_498_177 * t, q);
    MulLe(t, g, SCALE * q);
    CancelRight(SCALE * q, q + t * t, t);
    if t < 999 {
      MulLe(t, 998, t);
    }
  }

  lemma CancelRight(a: int, b: int, c: nat)
    requires c >= 1 && a * c <= b * c
    ensures a <= b
  {
    if a > b {
      MulLe(b + 1, a, c);
    }
  }

  lemma TargetBelow(X: nat, t: nat, K: nat)
    requires t <= 1224 * X && SCALE * K <= Poly(X, t)
    ensures SCALE * K <= 1_498_177 * (t * Cube(X))
  {
    SquareBelow(X, t);
    MulPos(t, X);
    MulLe(t * t, 1_498_176 * (X * X), t * X);
    CubeTerms(X, t);
  }

  lemma CubeTerms(X: int, t: int)
    ensures t * t * (t * X) == Cube(t) * X
    ensures X * X * (t * X) == t * Cube(X)
  {
  }

  lemma CurvatureWins(X: nat, t: nat, g: nat, K: nat)
    requires t <= g && t * t >= 999_999 * (X * X)
    requires SCALE * (3 * (t - 1) - 2 * g) >= 600 * t
    requires SCALE * K <= 1_498_177 * (t * Cube(X))
    ensures (g * g * X) * (3 * (t - 1) - 2 * g) >= K
  {
    GuessSquare(X, t, g);
    ProductsWin(Cube(X), g * g * X, 3 * (t - 1) - 2 * g, t, K);
  }

  lemma GuessSquare(X: nat, t: nat, g: nat)
    requires t <= g && t * t >= 999_999 * (X * X)
    ensures g * g * X >= 999_999 * Cube(X) >= 0
  {
    MulLe(t, g, t);
    MulLe(t, g, g);
    MulLe(999_999 * (X * X), g * g, X);
    MulPos(X, X);
    MulPos(X * X, X);
  }

  lemma ProductsWin(cube: nat, a: int, c: int, t: nat, K: nat)
    requires a >= 999_999 * cube && SCALE * c >= 600 * t
    requires SCALE * K <= 1_498_177 * (t * cube)
    ensures a * c >= K
  {
    MulPos(t, cube);
    MulLe(999_999 * cube, a, c);
    MulLe(600 * t, SCALE * c, cube);
    MoveFactors(cube, c, t);
  }

  lemma MoveFactors(cube: int, c: int, t: int)
    ensures 600 * t * cube == 600 * (t * cube)
    ensures SCALE * c * cube == SCALE * (cube * c)
    ensures 999_999 * cube * c == 999_999 * (cube * c)
  {
  }

  /** From a ratio of 1225 on the step ends above `t`. */
  lemma StepsAboveFrom1225(X: nat, K: nat, t: nat)
    requires X >= 1 && t >= 1225 * X && Cube(t) * X < SCALE * (K + 1)
    ensures NewtonStep(X, K) > t
  {
    var g := FirstGuess(X, K);
    NegativeResidual(X, K);
    CubePos(X);
    DivBounds(K, Cube(X));
    CubeAbove(X, t);
    GuessAbove(Cube(X), K, t, g);
    GuardFails(X, K, g, t);
    StepBelowIff(X, K, t + 1);
  }

  lemma CubeAbove(X: nat, t: nat)
    requires t >= 1225 * X
    ensures Cube(t) * X >= 1_500_625 * (t * Cube(X))
  {
    MulLe(1225 * X, t, 1225 * X);
    MulLe(1225 * X, t, t);
    MulPos(t, X);
    MulLe(1_500_625 * (X * X), t * t, t * X);
    CubeTerms(X, t);
  }

  lemma GuessAbove(cube: nat, K: nat, t: nat, g: nat)
    requires cube >= 1 && t >= 1225
    requires 1_500_625 * (t * cube) < SCALE * (K + 1) && K < g * cube + cube
    ensures 2 * g >= 3 * t && g > t
  {
    assert (g + 1) * cube == g * cube + cube;
    assert 1_500_625 * t * cube == 1_500_625 * (t * cube);
    assert SCALE * (g + 1) * cube == SCALE * ((g + 1) * cube);
    if SCALE * (g + 1) <= 1_500_625 * t {
      MulLe(SCALE * (g + 1), 1_500_625 * t, cube);
    }
  }

  lemma GuardFails(X: nat, K: nat, g: nat, t: nat)
    requires X >= 1 && 2 * g >= 3 * t && g > t && g * Cube(X) <= K
    ensures Residual(X, K, g) < (g - t) * Slope(X, g)
  {
    GuardTerms(X, K, g, t + 1);
    MulPos(g, g);
    MulPos(g * g, X);
    MulLe(3 * t - 2 * g, 0, g * g * X);
    CubePos(X);
    MulLe(t + 1, g, Cube(X));
    assert (t + 1) * Cube(X) == t * Cube(X) + Cube(X);
    assert (g * g * X) * (3 * t - 2 * g) == (3 * t - 2 * g) * (g * g * X);
    assert Cube(X) * t == t * Cube(X);
  }

  /** The guard on the scaled reserves of a quote. */
  ghost predicate QuoteStepsBelow(x: nat, y: nat, newX: nat, t: nat)
    requires newX >= SCALE
  {
    LeDiv(1, newX, SCALE);
    InvariantMono(0, 0, x, y);
    LeDiv(0, Invariant(x, y), SCALE);
    StepsBelow(newX / SCALE, Invariant(x, y) / SCALE, t)
  }

  /** A quote pays anything, and pays a whole unit of scale, exactly under the solver's guard at the matching reserve. */
  lemma QuotePaysIff(x: nat, y: nat, newX: nat)
    requires newX >= x >= SCALE
    ensures var q := SideQuote(x, y, newX);
            && q.Amount?
            && (q.out > 0 <==> QuoteStepsBelow(x, y, newX, (y + SCALE - 1) / SCALE))
            && (q.out >= SCALE <==> QuoteStepsBelow(x, y, newX, y / SCALE))
  {
    StableQuoteOverpays(x, y, newX);
    LeDiv(1, newX, SCALE);
    InvariantMono(0, 0, x, y);
    StepBelowIff(newX / SCALE, Invariant(x, y) / SCALE, (y + SCALE - 1) / SCALE);
    StepBelowIff(newX / SCALE, Invariant(x, y) / SCALE, y / SCALE);
  }

  /**
   * The whole quote, for the input left after its fee: all but `t` units of scale are paid exactly when the solver
   * steps to at most `t`.
   */
  lemma QuoteStableIff(amountIn: nat, pool: Pool, zeroForOne: bool, net: int, t: nat)
    requires pool.fee <= BPS && NetOfFee(amountIn, pool.fee, net)
    ensures var x := if zeroForOne then pool.reserve0 else pool.reserve1;
            var y := if zeroForOne then pool.reserve1 else pool.reserve0;
            var q := QuoteStable(amountIn, pool, zeroForOne);
            && net >= 0 && (q.Amount? <==> x + net >= SCALE)
            && (x >= SCALE && SCALE * t < y ==> (y - q.out <= SCALE * t <==> QuoteStepsBelow(x, y, x + net, t + 1)))
  {
    NetOfFeeIs(amountIn, pool.fee, net);
    AfterFeeRange(amountIn, pool.fee);
    QuoteStableInRange(amountIn, pool, zeroForOne);
    var x := if zeroForOne then pool.reserve0 else pool.reserve1;
    var y := if zeroForOne then pool.reserve1 else pool.reserve0;
    if x >= SCALE {
      StableQuoteOverpays(x, y, x + net);
      LeDiv(1, x + net, SCALE);
      InvariantMono(0, 0, x, y);
      StepBelowIff((x + net) / SCALE, Invariant(x, y) / SCALE, t + 1);
    }
  }

  lemma ReserveAfter(x: nat, y: nat, newX: nat)
    requires newX >= x >= SCALE
    ensures newX / SCALE >= 1 && Invariant(x, y) / SCALE >= 0 && SideQuote(x, y, newX).Amount?
    ensures NewtonStep(newX / SCALE, Invariant(x, y) / SCALE) >= 0
    ensures 0 <= y - SideQuote(x, y, newX).out
    ensures (y - SideQuote(x, y, newX).out) / SCALE == Min(y / SCALE, NewtonStep(newX / SCALE, Invariant(x, y) / SCALE))
  {
    StableQuoteOverpays(x, y, newX);
    LeDiv(1, newX, SCALE);
    InvariantMono(0, 0, x, y);
    SolverSound(newX / SCALE, Invariant(x, y) / SCALE);
    DivBounds(y, SCALE);
  }

  /** The output reserve after a quote, scaled. */
  ghost function ScaledAfter(x: nat, y: nat, newX: nat): nat
    requires newX >= x >= SCALE
  {
    ReserveAfter(x, y, newX);
    LeDiv(0, y - SideQuote(x, y, newX).out, SCALE);
    (y - SideQuote(x, y, newX).out) / SCALE
  }

  /**
   * The curve a quote is meant to keep falls exactly when the step ends below `r`, the least output reserve
   * that keeps it. For an input of zero `r` is the output reserve itself: the curve falls exactly when a whole
   * unit of scale is paid.
   */
  lemma CurveFallsIff(x: nat, y: nat, newX: nat, r: nat)
    requires newX >= x >= SCALE && IsRoot(newX / SCALE, Poly(x / SCALE, y / SCALE), r)
    ensures Poly(newX / SCALE, ScaledAfter(x, y, newX)) < Poly(x / SCALE, y / SCALE) <==> QuoteStepsBelow(x, y, newX, r)
    ensures newX == x ==> r == y / SCALE
  {
    LeDiv(1, x, SCALE);
    DivMono(x, newX, SCALE);
    ReserveAfter(x, y, newX);
    FallsIff(newX / SCALE, NewtonStep(newX / SCALE, Invariant(x, y) / SCALE), x / SCALE, y / SCALE, r);
    StepBelowIff(newX / SCALE, Invariant(x, y) / SCALE, r);
  }

  lemma FallsIff(X: nat, left: nat, xs: nat, ys: nat, r: nat)
    requires X >= xs >= 1 && IsRoot(X, Poly(xs, ys), r)
    ensures Poly(X, Min(ys, left)) < Poly(xs, ys) <==> left < r
    ensures X == xs ==> r == ys
  {
    RootBelow(X, xs, ys, r);
    BelowRootIff(X, Poly(xs, ys), r, Min(ys, left));
  }

  lemma BelowRootIff(X: nat, P: int, r: nat, s: nat)
    requires X >= 1 && IsRoot(X, P, r)
    ensures Poly(X, s) < P <==> s < r
  {
    if s >= r {
      CurveMono(X, r, s);
    }
  }

  lemma RootBelow(X: nat, xs: nat, ys: nat, r: nat)
    requires X >= xs >= 1 && IsRoot(X, Poly(xs, ys), r)
    ensures r <= ys
    ensures X == xs ==> r == ys
    ensures Poly(xs, ys) <= Poly(X, ys)
  {
    PolyMono(xs, ys, X, ys);
    PolyMono(ys, xs, ys, X);
    if X == xs && r < ys {
      Grows(X, r);
      CubePos(X);
      CurveMono(X, r + 1, ys);
    }
  }

  /**
   * Up to an output side of 1224 times the input side every input, even zero, is paid at least a unit of scale,
   * and lets the curve fall.
   */
  lemma EveryInputIsPaid(x: nat, y: nat, newX: nat)
    requires newX >= x >= SCALE && 1 <= y / SCALE <= 1224 * (x / SCALE)
    ensures SideQuote(x, y, newX).Amount? && SCALE <= SideQuote(x, y, newX).out <= y
    ensures Poly(newX / SCALE, ScaledAfter(x, y, newX)) < Poly(x / SCALE, y / SCALE)
  {
    var X, K, xs, ys := newX / SCALE, Invariant(x, y) / SCALE, x / SCALE, y / SCALE;
    LeDiv(1, x, SCALE);
    DivMono(x, newX, SCALE);
    PolyMono(1, 1, xs, ys);
    PolyMono(1, 1, ys, xs);
    var r := LeastRoot(X, Poly(xs, ys));
    RootBelow(X, xs, ys, r);
    InvariantMono(0, 0, x, y);
    InvariantMeaning(x, y);
    InvariantParts(x, y);
    StepsBelowUpTo1224(X, K, r);
    CurveFallsIff(x, y, newX, r);
    StepBelowIff(X, K, r);
    StableQuoteOverpays(x, y, newX);
  }

  lemma LeastRoot(X: nat, P: int) returns (r: nat)
    requires X >= 1
    ensures IsRoot(X, P, r) && (P >= 1 ==> r >= 1)
  {
    r := 0;
    CubePos(X);
    while Cube(X) * r + Cube(r) * X < P
      invariant forall t: nat | t < r :: Cube(X) * t + Cube(t) * X < P
      decreases P - (Cube(X) * r + Cube(r) * X)
    {
      Grows(X, r);
      r := r + 1;
    }
  }

  /** An input of zero lets the curve fall exactly when it is paid a whole unit of scale. */
  lemma ZeroInputFallsIff(x: nat, y: nat)
    requires x >= SCALE
    ensures SideQuote(x, y, x).Amount?
    ensures Poly(x / SCALE, ScaledAfter(x, y, x)) < Poly(x / SCALE, y / SCALE) <==> SideQuote(x, y, x).out >= SCALE
  {
    LeDiv(1, x, SCALE);
    var r := LeastRoot(x / SCALE, Poly(x / SCALE, y / SCALE));
    CurveFallsIff(x, y, x, r);
    QuotePaysIff(x, y, x);
  }

  /** From an output side of 1225 times the input side on, an input of zero is paid nothing. */
  lemma ZeroInputIsFree(x: nat, y: nat)
    requires x >= SCALE && y / SCALE >= 1225 * (x / SCALE)
    ensures SideQuote(x, y, x) == Amount(0)
  {
    var xs, ys, K := x / SCALE, y / SCALE, Invariant(x, y) / SCALE;
    LeDiv(1, x, SCALE);
    InvariantMono(0, 0, x, y);
    InvariantParts(x, y);
    StableQuoteOverpays(x, y, x);
    DivBounds(Cube(ys) * xs, SCALE);
    LeDiv(0, Cube(xs) * ys, SCALE);
    StepsAboveFrom1225(xs, K, ys);
    DivBounds(y, SCALE);
  }

  /** A balanced pool of 10^9 against 10^9 quotes its whole output reserve for an input of zero. */
  lemma ZeroInputDrainsPool()
    ensures QuoteStable(0, Pool(1_000_000_000, 1_000_000_000, 5), true) == Amount(1_000_000_000)
  {
    ZeroInput(Pool(1_000_000_000, 1_000_000_000, 5));
    BillionSideQuote();
  }

  lemma ZeroInput(pool: Pool)
    ensures QuoteStable(0, pool, true) == SideQuote(pool.reserve0, pool.reserve1, pool.reserve0)
  {
    assert AfterFee(0, pool.fee) == 0;
  }

  lemma BillionSideQuote()
    ensures SideQuote(1_000_000_000, 1_000_000_000, 1_000_000_000) == Amount(1_000_000_000)
  {
    BillionInvariant();
    BillionSolve();
  }

  lemma BillionInvariant()
    ensures Invariant(1_000_000_000, 1_000_000_000) == 2_000_000_000_000
  {
    var s := TruncDiv(1_000_000_000, SCALE);
    assert s == 1000;
    var p := s * s * s * s;
    assert p == 1_000_000_000_000;
    assert TruncDiv(p, SCALE) == 1_000_000;
  }

  lemma BillionSolve()
    ensures SolveStable(1_000_000_000, 2_000_000_000_000) == Amount(0)
  {
    assert TruncDiv(1_000_000_000, SCALE) == 1000;
    assert TruncDiv(2_000_000_000_000, SCALE) == 2_000_000;
    NegativeResidual(1000, 2_000_000);
    assert Cube(1000) == 1_000_000_000;
  }
}
