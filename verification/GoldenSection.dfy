/** Golden-section search for a minimum, with its error bound and step count. */
module GoldenSection {

  /** The golden-section share of a width, by the literal the search uses for (sqrt 5 - 1) / 2. */
  function Phi(width: real): real {
    0.6180339887498949 * width
  }

  function LowerProbe(a: real, b: real): real {
    b - Phi(b - a)
  }

  function UpperProbe(a: real, b: real): real {
    a + Phi(b - a)
  }

  /** One step: keep the side of the bracket that holds the smaller probe. */
  function Narrow(f: real -> real, a: real, b: real): (r: (real, real))
    requires a <= b
    ensures a <= r.0 <= r.1 <= b
    ensures r.1 - r.0 == Phi(b - a)
    ensures a < b ==> r.0 < r.1
  {
    var c, d := LowerProbe(a, b), UpperProbe(a, b);
    if f(c) < f(d) then (a, d) else (c, b)
  }

  /** A width after k steps: each step multiplies it by exactly the literal. */
  function Shrunk(width: real, k: nat): real
    decreases k
  {
    if k == 0 then width else Shrunk(Phi(width), k - 1)
  }

  /** k is the first step at which the width is within the tolerance. */
  ghost predicate StepsLeft(width: real, tol: real, k: nat) {
    Shrunk(width, k) <= tol && (k > 0 ==> Shrunk(width, k - 1) > tol)
  }

  lemma {:induction false} ShrunkDecreasing(width: real, i: nat, j: nat)
    requires width >= 0.0 && i <= j
    ensures 0.0 <= Shrunk(width, j) <= Shrunk(width, i)
    decreases j
  {
    if i > 0 {
      ShrunkDecreasing(Phi(width), i - 1, j - 1);
    } else if j > 0 {
      ShrunkDecreasing(Phi(width), 0, j - 1);
    }
  }

  /** The number of steps that shrink a bracket of the given width to the tolerance. */
  function Steps(width: real, tol: real): (k: nat)
    requires width >= 0.0 && tol > 0.0
    ensures StepsLeft(width, tol, k)
    decreases (width / (0.3 * tol)).Floor
  {
    if width <= tol then 0
    else
      StepsShrink(width, tol);
      1 + Steps(Phi(width), tol)
  }

  lemma StepsShrink(width: real, tol: real)
    requires width > tol > 0.0
    ensures 0 <= (Phi(width) / (0.3 * tol)).Floor < (width / (0.3 * tol)).Floor
  {
    var u := 0.3 * tol;
    var x, y := width / u, Phi(width) / u;
    var next := Phi(width);
    assert 0.0 < next <= 0.62 * width;
    assert x * u == width && y * u == next;
    var gap := x - y - 1.0;
    assert gap * u == width - next - u > 0.0;
    assert gap > 0.0;
    assert y > 0.0;
  }

  /** The midpoint of the first bracket within the tolerance. */
  function Minimizer(f: real -> real, a: real, b: real, tol: real): (r: real)
    requires a <= b && tol > 0.0
    ensures a <= r <= b
    ensures a < b ==> a < r < b
    decreases (if b - a <= tol then 0 else (( b - a) / (0.3 * tol)).Floor)
  {
    if b - a <= tol then (a + b) / 2.0
    else
      StepsShrink(b - a, tol);
      var r := Narrow(f, a, b);
      Minimizer(f, r.0, r.1, tol)
  }

  method Search(f: real -> real, a0: real, b0: real, tol: real) returns (r: real, ghost count: nat)
    requires a0 <= b0 && tol > 0.0
    ensures r == Minimizer(f, a0, b0, tol)
    ensures count == Steps(b0 - a0, tol)
  {
    var a, b := a0, b0;
    var c, d := LowerProbe(a, b), UpperProbe(a, b);
    count := 0;
    while b - a > tol || a - b > tol
      invariant a <= b && c == LowerProbe(a, b) && d == UpperProbe(a, b)
      invariant Minimizer(f, a, b, tol) == Minimizer(f, a0, b0, tol)
      invariant count + Steps(b - a, tol) == Steps(b0 - a0, tol)
      decreases Steps(b - a, tol)
    {
      ghost var next := Narrow(f, a, b);
      if f(c) < f(d) {
        b := d;
      } else {
        a := c;
      }
      assert a == next.0 && b == next.1;
      c, d := LowerProbe(a, b), UpperProbe(a, b);
      count := count + 1;
    }
    r := (a + b) / 2.0;
  }

  // ----- the number of steps on the unit interval

  lemma {:induction false} ShrunkCompose(width: real, i: nat, j: nat)
    ensures Shrunk(width, i + j) == Shrunk(Shrunk(width, i), j)
    decreases i
  {
    if i > 0 {
      ShrunkCompose(Phi(width), i - 1, j);
    }
  }

  lemma SevenSteps(width: real)
    requires width >= 0.0
    ensures 0.03444 * width <= Shrunk(width, 7) <= 0.03445 * width
  {
    var w2 := Shrunk(width, 2);
    assert w2 == Phi(Phi(width));
    assert 0.381966 * width <= w2 <= 0.381967 * width;
    ShrunkCompose(width, 2, 2);
    var w4 := Shrunk(width, 4);
    assert 0.14589 * width <= w4 <= 0.1459 * width;
    ShrunkCompose(width, 4, 2);
    ShrunkCompose(width, 6, 1);
    var w6 := Shrunk(width, 6);
    assert w6 == Phi(Phi(w4));
    assert Shrunk(width, 7) == Phi(w6);
  }

  /** On [0, 1] with tolerance 1e-6 the loop runs exactly 29 times. */
  lemma UnitIntervalSteps()
    ensures Steps(1.0, 0.000001) == 29
  {
    var k := Steps(1.0, 0.000001);
    ShrunkCompose(1.0, 7, 7);
    ShrunkCompose(1.0, 14, 7);
    ShrunkCompose(1.0, 21, 7);
    ShrunkCompose(1.0, 28, 1);
    SevenSteps(1.0);
    SevenSteps(Shrunk(1.0, 7));
    SevenSteps(Shrunk(1.0, 14));
    SevenSteps(Shrunk(1.0, 21));
    var w28 := Shrunk(1.0, 28);
    assert w28 > 0.000001 >= Phi(w28);
    assert Shrunk(1.0, 29) == Phi(w28);
    if k < 29 {
      ShrunkDecreasing(1.0, k, 28);
    } else if k > 29 {
      ShrunkDecreasing(1.0, 29, k - 1);
    }
  }

  // ----- where the minimum is found

  /** f strictly falls on the part of [a, b] up to l. */
  ghost predicate FallsUpTo(f: real -> real, a: real, b: real, l: real) {
    forall x, y | a <= x < y <= b && y <= l :: f(x) > f(y)
  }

  /** f strictly rises on the part of [a, b] from u on. */
  ghost predicate RisesFrom(f: real -> real, a: real, b: real, u: real) {
    forall x, y | a <= x < y <= b && u <= x :: f(x) < f(y)
  }

  /** The bracket meets [l, u], outside which f leads towards [l, u]. */
  ghost predicate Meets(f: real -> real, a: real, b: real, l: real, u: real) {
    && a <= b && a <= u && l <= b
    && FallsUpTo(f, a, b, l) && RisesFrom(f, a, b, u)
  }

  lemma NarrowMeets(f: real -> real, a: real, b: real, l: real, u: real)
    requires Meets(f, a, b, l, u)
    ensures var r := Narrow(f, a, b); Meets(f, r.0, r.1, l, u)
  {
    var c, d := LowerProbe(a, b), UpperProbe(a, b);
    if a < b {
      assert a <= c < d <= b;
      if f(c) < f(d) {
        assert l <= d;
      } else {
        assert c <= u;
      }
    }
  }

  /**
   Whatever f does between l and u, when it strictly falls before l and strictly rises
   after u the search ends within half the tolerance of [l, u].
   */
  lemma {:induction false} MinimizerNear(f: real -> real, a: real, b: real, tol: real, l: real, u: real)
    requires tol > 0.0 && Meets(f, a, b, l, u)
    ensures l - tol / 2.0 <= Minimizer(f, a, b, tol) <= u + tol / 2.0
    decreases if b - a <= tol then 0 else ((b - a) / (0.3 * tol)).Floor
  {
    if b - a > tol {
      StepsShrink(b - a, tol);
      NarrowMeets(f, a, b, l, u);
      var r := Narrow(f, a, b);
      MinimizerNear(f, r.0, r.1, tol, l, u);
    }
  }

  /** A function that is constant leads the search to the upper end: a tie keeps the upper part of the bracket. */
  lemma {:induction false} ConstantEndsHigh(f: real -> real, a: real, b: real, tol: real)
    requires tol > 0.0 && a <= b && forall x, y | a <= x <= y <= b :: f(x) == f(y)
    ensures Minimizer(f, a, b, tol) >= b - tol / 2.0
    decreases if b - a <= tol then 0 else ((b - a) / (0.3 * tol)).Floor
  {
    if b - a > tol {
      StepsShrink(b - a, tol);
      var r := Narrow(f, a, b);
      assert r == (LowerProbe(a, b), b);
      ConstantEndsHigh(f, r.0, r.1, tol);
    }
  }
}
