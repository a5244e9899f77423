/** The inertia step of the traffic control loop and where it comes to rest
    (pkg/workoffload/runnable.go, pkg/workoffload/strategy/constants.go). Over exact arithmetic;
    with the default inertia the float32 step is exact on percentages. */
module Smoothing {
  const DEFAULT_INERTIA: real := 0.75

  /** A Go float-to-integer conversion: towards zero. */
  function Truncate(x: real): int {
    if x >= 0.0 then x.Floor else -((-x).Floor)
  }

  /** One SetTraffic step from traffic t towards the desired traffic d. */
  function Smooth(t: int, d: int, inertia: real): int {
    Truncate(t as real * inertia + d as real * (1.0 - inertia))
  }

  function Iterate(t: int, d: int, inertia: real, n: nat): int
    decreases n
  {
    if n == 0 then t else Iterate(Smooth(t, d, inertia), d, inertia, n - 1)
  }

  /** A step takes the gap apart in the proportion of the inertia. */
  lemma StepIsProportional(t: int, d: int, inertia: real)
    ensures var x := t as real * inertia + d as real * (1.0 - inertia);
            x == t as real + (d - t) as real * (1.0 - inertia) == d as real - (d - t) as real * inertia
  {
    var a, b := t as real, d as real;
    assert (d - t) as real == b - a;
    assert (b - a) * (1.0 - inertia) == b * (1.0 - inertia) - (a - a * inertia);
    assert (b - a) * inertia == b * inertia - a * inertia;
    assert b * (1.0 - inertia) == b - b * inertia;
  }

  lemma TruncateBetween(x: real, lo: nat)
    requires lo as real <= x
    ensures lo <= Truncate(x) && Truncate(x) as real <= x
    ensures Truncate(x) == lo <==> x < (lo + 1) as real
  {
  }

  /** The default step in integers: three parts old, one part new. */
  lemma DefaultStep(t: nat, d: nat)
    ensures Smooth(t, d, DEFAULT_INERTIA) == (3 * t + d) / 4
  {
    var x := t as real * 0.75 + d as real * 0.25;
    var q := (3 * t + d) / 4;
    assert 4.0 * x == (3 * t + d) as real;
    assert 4 * q <= 3 * t + d < 4 * q + 4;
    assert q as real <= x < (q + 1) as real;
  }

  /** For every inertia up to 1: the weighted mean of the two, rounded down. */
  lemma SmoothMeans(t: nat, d: nat, inertia: real, n: int)
    requires 0.0 <= inertia <= 1.0
    ensures Smooth(t, d, inertia) == n <==>
            n as real <= inertia * t as real + (1.0 - inertia) * d as real < (n + 1) as real
  {
    Product(t as real, inertia);
    Product(d as real, 1.0 - inertia);
  }

  lemma Product(a: real, b: real)
    requires a >= 0.0 && b >= 0.0
    ensures a * b >= 0.0
    ensures a > 0.0 && b > 0.0 ==> a * b > 0.0
  {
  }

  /** From above a step always goes down, but never below the target. */
  lemma StepDown(t: int, d: int, inertia: real)
    requires 0 <= d < t && 0.0 <= inertia < 1.0
    ensures d <= Smooth(t, d, inertia) < t
  {
    var x, gap := t as real * inertia + d as real * (1.0 - inertia), (t - d) as real;
    StepIsProportional(t, d, inertia);
    Product(gap, inertia);
    Product(gap, 1.0 - inertia);
    assert (d - t) as real * inertia == -(gap * inertia);
    assert (d - t) as real * (1.0 - inertia) == -(gap * (1.0 - inertia));
    TruncateBetween(x, d);
  }

  /** A gap below the target that a step does not narrow. */
  predicate IsStuck(gap: int, inertia: real)
    requires inertia < 1.0
  {
    gap as real < 1.0 / (1.0 - inertia)
  }

  lemma StuckProduct(gap: int, inertia: real)
    requires 0.0 <= inertia < 1.0
    ensures IsStuck(gap, inertia) <==> gap as real * (1.0 - inertia) < 1.0
  {
    var g, k := gap as real, 1.0 - inertia;
    assert (1.0 / k) * k == 1.0;
    if g < 1.0 / k {
      assert (1.0 / k - g) * k > 0.0;
    } else {
      assert (g - 1.0 / k) * k >= 0.0;
    }
  }

  /** From below a step goes up and never past the target, unless it is stuck; it is stuck exactly
      if the gap is smaller than 1 / (1 - inertia). */
  lemma StepUp(t: int, d: int, inertia: real)
    requires 0 <= t < d && 0.0 <= inertia < 1.0
    ensures t <= Smooth(t, d, inertia) <= d
    ensures Smooth(t, d, inertia) == t <==> IsStuck(d - t, inertia)
  {
    var x, gap := t as real * inertia + d as real * (1.0 - inertia), (d - t) as real;
    StepIsProportional(t, d, inertia);
    Product(gap, inertia);
    Product(gap, 1.0 - inertia);
    StuckProduct(d - t, inertia);
    TruncateBetween(x, t);
  }

  lemma GapShrinks(rest: real, gap: real, inertia: real)
    requires rest >= 0.0 && 0.0 <= inertia && gap * (1.0 - inertia) < 1.0
    ensures (rest + gap) * inertia > gap - 1.0
  {
    Product(rest, inertia);
    assert gap * (1.0 - inertia) == gap - gap * inertia;
    assert (rest + gap) * inertia == rest * inertia + gap * inertia;
  }

  /** No step from below enters a stuck gap that it did not start in. */
  lemma StuckGapIsKept(t: int, d: int, inertia: real, g: nat)
    requires 0 <= t && t + g <= d && 0.0 <= inertia < 1.0 && IsStuck(g, inertia)
    ensures Smooth(t, d, inertia) + g <= d
  {
    var x := t as real * inertia + d as real * (1.0 - inertia);
    StepIsProportional(t, d, inertia);
    StuckProduct(g, inertia);
    GapShrinks((d - t - g) as real, g as real, inertia);
    assert (d - t - g) as real + g as real == (d - t) as real;
    Product(t as real, inertia);
    Product(d as real, 1.0 - inertia);
    TruncateBetween(x, 0);
    assert x < (d - g + 1) as real;
  }

  lemma StepAtRest(d: int, inertia: real)
    requires 0 <= d
    ensures Smooth(d, d, inertia) == d
  {
    assert d as real * inertia + d as real * (1.0 - inertia) == d as real;
  }

  lemma StepStaysBetween(t: int, d: int, inertia: real)
    requires 0 <= t && 0 <= d && 0.0 <= inertia < 1.0
    ensures if t <= d then t <= Smooth(t, d, inertia) <= d else d <= Smooth(t, d, inertia) <= t
  {
    if t < d {
      StepUp(t, d, inertia);
    } else if t > d {
      StepDown(t, d, inertia);
    } else {
      StepAtRest(d, inertia);
    }
  }

  lemma {:induction false} OneMoreStep(t: int, d: int, inertia: real, n: nat)
    ensures Iterate(t, d, inertia, n + 1) == Smooth(Iterate(t, d, inertia, n), d, inertia)
    decreases n
  {
    if n > 0 {
      OneMoreStep(Smooth(t, d, inertia), d, inertia, n - 1);
    }
  }

  lemma {:induction false} RestStays(t: int, d: int, inertia: real, n: nat)
    requires Smooth(t, d, inertia) == t
    ensures Iterate(t, d, inertia, n) == t
  {
    if n > 0 {
      RestStays(t, d, inertia, n - 1);
    }
  }

  lemma {:induction false} FallsToRest(t: int, d: int, inertia: real, n: nat)
    requires 0 <= d <= t && 0.0 <= inertia < 1.0 && n >= t - d
    ensures Iterate(t, d, inertia, n) == d && Smooth(d, d, inertia) == d
    decreases n
  {
    StepAtRest(d, inertia);
    if t == d {
      RestStays(t, d, inertia, n);
    } else {
      StepDown(t, d, inertia);
      FallsToRest(Smooth(t, d, inertia), d, inertia, n - 1);
    }
  }

  lemma {:induction false} RisesToRest(t: int, d: int, inertia: real, n: nat, g: nat)
    requires 0 <= t && t + g <= d && 0.0 <= inertia < 1.0 && n >= d - t && IsStuck(g, inertia)
    ensures var v := Iterate(t, d, inertia, n);
            t <= v <= d && v + g <= d && Smooth(v, d, inertia) == v && IsStuck(d - v, inertia)
    decreases n
  {
    if t == d {
      StepAtRest(d, inertia);
      RestStays(t, d, inertia, n);
    } else {
      StepUp(t, d, inertia);
      if Smooth(t, d, inertia) == t {
        RestStays(t, d, inertia, n);
      } else {
        StuckGapIsKept(t, d, inertia, g);
        RisesToRest(Smooth(t, d, inertia), d, inertia, n - 1, g);
      }
    }
  }

  /** With a constant target the traffic comes to rest within as many steps as the initial gap, for
      every inertia below one. It never passes the target: from above it arrives exactly, from
      below it stops short by the largest stuck gap that is not larger than the initial gap. */
  lemma ComesToRest(t: int, d: int, inertia: real, n: nat)
    requires 0 <= t && 0 <= d && 0.0 <= inertia < 1.0
    requires n >= if t < d then d - t else t - d
    ensures var v := Iterate(t, d, inertia, n);
            && Smooth(v, d, inertia) == v
            && (t >= d ==> v == d)
            && (t < d ==> t <= v <= d && IsStuck(d - v, inertia) &&
                          forall g: nat :: g <= d - t && IsStuck(g, inertia) ==> g <= d - v)
  {
    if t >= d {
      FallsToRest(t, d, inertia, n);
    } else {
      StuckProduct(0, inertia);
      RisesToRest(t, d, inertia, n, 0);
      forall g: nat | g <= d - t && IsStuck(g, inertia) ensures g <= d - Iterate(t, d, inertia, n) {
        RisesToRest(t, d, inertia, n, g);
      }
    }
  }

  /** With the default inertia: exactly on target from above, exactly 3 short of it from at least
      that far below, and not moving at all from closer below. Aiming at 100 percent from 0, the
      loop settles on 97. */
  lemma DefaultComesToRest(t: nat, d: nat, n: nat)
    requires n >= if t < d then d - t else t - d
    ensures Iterate(t, d, DEFAULT_INERTIA, n) == if t >= d then d else if t + 3 <= d then d - 3 else t
  {
    ComesToRest(t, d, DEFAULT_INERTIA, n);
    var v := Iterate(t, d, DEFAULT_INERTIA, n);
    assert 1.0 / (1.0 - DEFAULT_INERTIA) == 4.0;
    var g: nat := if t >= d then 0 else if t + 3 <= d then 3 else d - t;
    assert t < d ==> g <= d - t && IsStuck(g, DEFAULT_INERTIA);
  }

  // ---------------------------------------------------------------- all inertias, with the clamp

  function Clamp(v: int): int {
    if v > 100 then 100 else if v < 0 then 0 else v
  }

  /** What one run makes of a split: a step, cut off at the ends of the percentages. */
  function ClampedStep(t: int, d: int, inertia: real): int {
    Clamp(Smooth(t, d, inertia))
  }

  function ClampedIterate(t: int, d: int, inertia: real, n: nat): int
    decreases n
  {
    if n == 0 then t else ClampedIterate(ClampedStep(t, d, inertia), d, inertia, n - 1)
  }

  predicate IsPercentage(v: int) {
    0 <= v <= 100
  }

  lemma {:induction false} OneMoreClampedStep(t: int, d: int, inertia: real, n: nat)
    ensures ClampedIterate(t, d, inertia, n + 1) == ClampedStep(ClampedIterate(t, d, inertia, n), d, inertia)
    decreases n
  {
    if n > 0 {
      OneMoreClampedStep(ClampedStep(t, d, inertia), d, inertia, n - 1);
    }
  }

  lemma {:induction false} ClampedStaysPercentage(t: int, d: int, inertia: real, n: nat)
    requires IsPercentage(t)
    ensures IsPercentage(ClampedIterate(t, d, inertia, n))
    decreases n
  {
    if n > 0 {
      ClampedStaysPercentage(ClampedStep(t, d, inertia), d, inertia, n - 1);
    }
  }

  /** With an inertia from 0 to below 1 the clamp never cuts anything off. */
  lemma {:induction false} ClampCutsNothing(t: int, d: int, inertia: real, n: nat)
    requires IsPercentage(t) && IsPercentage(d) && 0.0 <= inertia < 1.0
    ensures ClampedIterate(t, d, inertia, n) == Iterate(t, d, inertia, n)
    ensures IsPercentage(Iterate(t, d, inertia, n))
    ensures ClampedStep(t, d, inertia) == Smooth(t, d, inertia)
    decreases n
  {
    StepStaysBetween(t, d, inertia);
    if n > 0 {
      ClampCutsNothing(Smooth(t, d, inertia), d, inertia, n - 1);
    }
  }

  lemma Shrinks(gap: real, inertia: real)
    requires gap > 0.0 && -1.0 < inertia < 0.0
    ensures -gap < gap * inertia < 0.0
  {
    Product(gap, -inertia);
    Product(gap, 1.0 + inertia);
    assert gap * (1.0 + inertia) == gap + gap * inertia;
    assert gap * -inertia == -(gap * inertia);
  }

  lemma ShrinksBelow(gap: real, inertia: real)
    requires gap < 0.0 && -1.0 < inertia < 0.0
    ensures 0.0 < gap * inertia < -gap
  {
    Product(-gap, -inertia);
    Product(-gap, 1.0 + inertia);
    assert -gap * (1.0 + inertia) == -gap - gap * inertia;
    assert -gap * -inertia == gap * inertia;
  }

  /** With an inertia between -1 and 0 a step crosses the target, before it is cut to an integer. */
  lemma LandsAcross(t: int, d: int, inertia: real)
    requires -1.0 < inertia < 0.0 && t != d
    ensures var x := t as real * inertia + d as real * (1.0 - inertia);
            if t > d then (2 * d - t) as real < x < d as real else d as real < x < (2 * d - t) as real
  {
    StepIsProportional(t, d, inertia);
    if t > d {
      ShrinksBelow((d - t) as real, inertia);
    } else {
      Shrinks((d - t) as real, inertia);
    }
  }

  lemma ClampedBetween(x: real, lo: int, d: int)
    requires lo as real < x < d as real && IsPercentage(d) && lo <= 100
    ensures lo <= Clamp(Truncate(x)) <= d
  {
  }

  lemma ClampedAbove(x: real, d: int, hi: int)
    requires d as real < x < hi as real && IsPercentage(d)
    ensures d <= Clamp(Truncate(x)) < hi
  {
  }

  lemma StepFromAbove(t: int, d: int, inertia: real)
    requires IsPercentage(t) && IsPercentage(d) && -1.0 < inertia < 0.0 && t > d
    ensures 2 * d - t <= ClampedStep(t, d, inertia) <= d
  {
    LandsAcross(t, d, inertia);
    ClampedBetween(t as real * inertia + d as real * (1.0 - inertia), 2 * d - t, d);
  }

  lemma StepFromBelow(t: int, d: int, inertia: real)
    requires IsPercentage(t) && IsPercentage(d) && -1.0 < inertia < 0.0 && t < d
    ensures d <= ClampedStep(t, d, inertia) < 2 * d - t
  {
    LandsAcross(t, d, inertia);
    ClampedAbove(t as real * inertia + d as real * (1.0 - inertia), d, 2 * d - t);
  }

  /** A step from above lands at or below the target, not further away than it was; a step from below
      lands at or above it, and closer. */
  lemma StepAcross(t: int, d: int, inertia: real)
    requires IsPercentage(t) && IsPercentage(d) && -1.0 < inertia < 0.0
    ensures var v := ClampedStep(t, d, inertia);
            if t > d then v <= d && d - v <= t - d
            else if t < d then v >= d && v - d < d - t
            else v == d
  {
    if t == d {
      StepAtRest(d, inertia);
    } else if t > d {
      StepFromAbove(t, d, inertia);
    } else {
      StepFromBelow(t, d, inertia);
    }
  }

  lemma {:induction false} RestStaysClamped(d: int, inertia: real, n: nat)
    requires ClampedStep(d, d, inertia) == d
    ensures ClampedIterate(d, d, inertia, n) == d
    decreases n
  {
    if n > 0 {
      RestStaysClamped(d, inertia, n - 1);
    }
  }

  /** So the split jumps from one side to the other, until it is on the target. */
  lemma {:induction false} JumpsToRest(t: int, d: int, inertia: real, n: nat)
    requires IsPercentage(t) && IsPercentage(d) && -1.0 < inertia < 0.0
    requires n >= if t > d then 2 * (t - d) else if t < d then 2 * (d - t) - 1 else 0
    ensures ClampedIterate(t, d, inertia, n) == d && ClampedStep(d, d, inertia) == d
    decreases n
  {
    StepAcross(t, d, inertia);
    StepAcross(d, d, inertia);
    if t == d {
      RestStaysClamped(d, inertia, n);
    } else {
      JumpsToRest(ClampedStep(t, d, inertia), d, inertia, n - 1);
    }
  }

  /** After n runs the split does not move any more, and is not above the target. */
  predicate RestsAfter(t: int, d: int, inertia: real, n: nat) {
    var v := ClampedIterate(t, d, inertia, n);
    ClampedStep(v, d, inertia) == v && v <= d
  }

  ghost predicate RestsSomeTime(t: int, d: int, inertia: real) {
    exists n: nat :: RestsAfter(t, d, inertia, n)
  }

  ghost predicate AlwaysRests(inertia: real) {
    forall t, d | IsPercentage(t) && IsPercentage(d) :: RestsSomeTime(t, d, inertia)
  }

  /** With an inertia of 1 or more all the traffic stays where it is, though none is wanted. */
  lemma {:induction false} NeverFalls(inertia: real, n: nat)
    requires inertia >= 1.0
    ensures ClampedIterate(100, 0, inertia, n) == 100
    decreases n
  {
    Product(100.0, inertia - 1.0);
    assert 100.0 * (inertia - 1.0) == 100.0 * inertia - 100.0;
    assert Smooth(100, 0, inertia) == Truncate(100.0 * inertia);
    TruncateBetween(100.0 * inertia, 100);
    if n > 0 {
      NeverFalls(inertia, n - 1);
    }
  }

  lemma AtLeastMirrored(gap: real, inertia: real)
    requires gap >= 1.0 && inertia <= -1.0
    ensures gap * inertia <= -1.0
  {
    Product(gap, -1.0 - inertia);
    assert gap * (-1.0 - inertia) == -gap - gap * inertia;
  }

  /** With an inertia of -1 or less a step from one side of 50 percent lands on the other. */
  lemma NeverArrives(t: int, inertia: real)
    requires IsPercentage(t) && t != 50 && inertia <= -1.0
    ensures var v := ClampedStep(t, 50, inertia); IsPercentage(v) && v != 50 && (v < 50 <==> t > 50)
  {
    var x := t as real * inertia + 50.0 * (1.0 - inertia);
    StepIsProportional(t, 50, inertia);
    if t < 50 {
      AtLeastMirrored((50 - t) as real, inertia);
      assert x >= 51.0;
      TruncateBetween(x, 51);
    } else {
      AtLeastMirrored((t - 50) as real, inertia);
      assert (50 - t) as real * inertia == -((t - 50) as real * inertia);
      assert x <= 49.0;
    }
  }

  lemma {:induction false} StaysAway(t: int, inertia: real, n: nat)
    requires IsPercentage(t) && t != 50 && inertia <= -1.0
    ensures IsPercentage(ClampedIterate(t, 50, inertia, n)) && ClampedIterate(t, 50, inertia, n) != 50
    decreases n
  {
    if n > 0 {
      NeverArrives(t, inertia);
      StaysAway(ClampedStep(t, 50, inertia), inertia, n - 1);
    }
  }

  lemma NeverStops(t: int, inertia: real, n: nat)
    requires IsPercentage(t) && t != 50 && inertia <= -1.0
    ensures !RestsAfter(t, 50, inertia, n)
  {
    StaysAway(t, inertia, n);
    NeverArrives(ClampedIterate(t, 50, inertia, n), inertia);
  }

  /** Every split comes to rest, on its target or below it, exactly if the inertia is between -1 and 1,
      which the annotation does not have to be. */
  lemma AlwaysRestsIf(inertia: real)
    ensures AlwaysRests(inertia) <==> -1.0 < inertia < 1.0
  {
    if inertia >= 1.0 {
      forall n: nat ensures !RestsAfter(100, 0, inertia, n) {
        NeverFalls(inertia, n);
      }
      assert !RestsSomeTime(100, 0, inertia);
    } else if inertia <= -1.0 {
      forall n: nat ensures !RestsAfter(51, 50, inertia, n) {
        NeverStops(51, inertia, n);
      }
      assert !RestsSomeTime(51, 50, inertia);
    } else {
      forall t, d | IsPercentage(t) && IsPercentage(d) ensures RestsSomeTime(t, d, inertia) {
        RestsBetween(t, d, inertia);
      }
    }
  }

  lemma RestsBetween(t: int, d: int, inertia: real)
    requires IsPercentage(t) && IsPercentage(d) && -1.0 < inertia < 1.0
    ensures RestsSomeTime(t, d, inertia)
  {
    if inertia < 0.0 {
      JumpsToRest(t, d, inertia, 200);
      assert RestsAfter(t, d, inertia, 200);
    } else {
      ComesToRest(t, d, inertia, 100);
      ClampCutsNothing(t, d, inertia, 100);
      ClampCutsNothing(Iterate(t, d, inertia, 100), d, inertia, 0);
      assert RestsAfter(t, d, inertia, 100);
    }
  }
}
