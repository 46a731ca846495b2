/**
 Constant absolute demand with a window of one record: when the allocation settles, and when it flaps.
 Amounts are exact, or rounded by printing as in the program.
 */
module Flapping {
  import opened Wrappers
  import opened Decimal
  import opened Quantities
  import opened Configuration
  import opened MetricsStore
  import opened Adjustment
  import opened Feedback

  datatype Rounding = Exact | Printed(resource: Resource)

  function Rounded(m: Rounding, x: real): real {
    match m
    case Exact => x
    case Printed(r) => Snap(r, x)
  }

  predicate Representable(m: Rounding, x: real) {
    m.Printed? ==> OnGrid(m.resource, x)
  }

  /** The most by which rounding moves an amount. */
  function Margin(m: Rounding): real {
    match m
    case Exact => 0.0
    case Printed(r) => Slack(r)
  }

  /** The most by which rounding raises an amount that is not negative. */
  function Surplus(m: Rounding): real {
    match m
    case Exact => 0.0
    case Printed(r) => Gain(r)
  }

  /** The least difference between two amounts, when there is one. */
  function Grain(m: Rounding): real {
    match m
    case Exact => 0.0
    case Printed(r) => Unit(r)
  }

  /** The amounts whose use is at the upper, and at the lower, threshold of an allocation. */
  function Upper(a: Adjuster, x: real): real {
    a.scaleUpThreshold * x
  }

  function Lower(a: Adjuster, x: real): real {
    a.scaleDownThreshold * x
  }

  /** A job whose runs always use the same absolute amount. */
  datatype Loop = Loop(a: Adjuster, rounding: Rounding, floor: real, ceiling: real, demand: real) {

    predicate Valid() {
      a.Valid() && 0.0 < floor <= ceiling && 0.0 <= demand
      && Representable(rounding, floor) && Representable(rounding, ceiling)
    }

    predicate Allocation(x: real) {
      floor <= x <= ceiling && Representable(rounding, x)
    }

    function Target(x: real): real
      requires x != 0.0 && a.scaleFactor != 0.0
    {
      Clamp(Step(a, demand / x, x), floor, ceiling)
    }

    /** The allocation of the run after one with allocation `x`. */
    function Advance(x: real): real
      requires x != 0.0 && a.scaleFactor != 0.0
    {
      Rounded(rounding, Target(x))
    }

    predicate Over(x: real) {
      Upper(a, x) < demand
    }

    predicate Under(x: real) {
      demand < Lower(a, x)
    }

    /** The thresholds are far enough apart for the scale factor and for the rounding. */
    predicate Calm() {
      var gap := a.scaleUpThreshold - a.scaleDownThreshold * a.scaleFactor;
      Margin(rounding) * (a.scaleUpThreshold * a.scaleFactor) <= floor * gap
    }
  }

  /** The program's next allocation for a window of one record is an advance of the loop. */
  lemma SingleRecordAdvances(r: Resource, a: Adjuster, p: Profile, m: MetricsRecord)
    requires a.Valid() && a.historyWindow == 1 && 0 < SampleOf(r, m).granted
    ensures var l := Loop(a, Printed(r), Baseline(r, p), Ceiling(r, a, p), SampleOf(r, m).used as real);
            Parse(r, Chosen(r, a, p, [m])) == l.Advance(SampleOf(r, m).granted as real)
  {
    hide Parse, Format, Ceiling, Baseline, Snap, Step, Clamp;
    var s := Samples(r, [m]);
    assert s == [SampleOf(r, m)];
    SingleAverage(s);
    FormatParse(r, Next(a, Baseline(r, p), Ceiling(r, a, p), s));
  }

  // ----- One round -----

  lemma RoundedBounds(l: Loop, low: real, x: real, high: real)
    requires low <= x <= high && Representable(l.rounding, low) && Representable(l.rounding, high)
    ensures low <= Rounded(l.rounding, x) <= high && Representable(l.rounding, Rounded(l.rounding, x))
  {
    if l.rounding.Printed? {
      SnapBetween(l.rounding.resource, low, x, high);
    }
  }

  lemma RoundedNear(m: Rounding, x: real)
    ensures x - Margin(m) <= Rounded(m, x) <= x + Margin(m)
    ensures 0.0 <= x ==> Rounded(m, x) <= x + Surplus(m)
  {
    if m.Printed? {
      SnapNear(m.resource, x);
    }
  }

  lemma AdvanceAllocates(l: Loop, x: real)
    requires l.Valid() && l.Allocation(x)
    ensures l.Allocation(l.Advance(x))
  {
    hide Rounded, Step, Representable;
    RoundedBounds(l, l.floor, l.Target(x), l.ceiling);
  }

  /** The most that a step up can make of an allocation, and the least that a step down can. */
  function Up(l: Loop, x: real): real {
    x * l.a.scaleFactor + Margin(l.rounding)
  }

  function Down(l: Loop, x: real): real
    requires l.a.scaleFactor != 0.0
  {
    x / l.a.scaleFactor - Margin(l.rounding)
  }

  /** An allocation grows only on use above the upper threshold, and by no more than the factor and the rounding. */
  lemma GrowthMeansOverload(l: Loop, x: real)
    requires l.Valid() && l.Allocation(x) && x < l.Advance(x)
    ensures l.Over(x) && l.Advance(x) <= Up(l, x)
  {
    hide Rounded, Representable, Margin, Step;
    StepSign(l.a, l.demand / x, x);
    if l.demand / x <= l.a.scaleUpThreshold {
      RoundedBounds(l, l.floor, l.Target(x), x);
    }
    DivideCompare(l.demand, x, l.a.scaleUpThreshold);
    RoundedNear(l.rounding, l.Target(x));
    Commute(l.a.scaleUpThreshold, x);
  }

  /** An allocation shrinks only on use below the lower threshold, and by no more than the factor and the rounding. */
  lemma ShrinkMeansIdle(l: Loop, x: real)
    requires l.Valid() && l.Allocation(x) && l.Advance(x) < x
    ensures l.Under(x) && Down(l, x) <= l.Advance(x)
  {
    hide Rounded, Representable, Margin, Step;
    StepSign(l.a, l.demand / x, x);
    if l.a.scaleDownThreshold <= l.demand / x {
      RoundedBounds(l, x, l.Target(x), l.ceiling);
    }
    DivideCompare(l.demand, x, l.a.scaleDownThreshold);
    RoundedNear(l.rounding, l.Target(x));
    Commute(l.a.scaleDownThreshold, x);
  }

  lemma StepSign(a: Adjuster, u: real, x: real)
    requires a.Valid() && 0.0 <= x
    ensures x / a.scaleFactor <= Step(a, u, x) <= x * a.scaleFactor
    ensures u <= a.scaleUpThreshold ==> Step(a, u, x) <= x
    ensures a.scaleDownThreshold <= u ==> x <= Step(a, u, x)
  {
    StepDirection(a, x);
  }

  lemma Commute(x: real, y: real)
    ensures x * y == y * x
  {}

  /** After a step up the use is not below the lower threshold. */
  lemma UpStaysUp(up: real, down: real, f: real, s: real, floor: real, x: real, y: real, d: real)
    requires 0.0 <= down < up && 1.0 < f && 0.0 <= s && 0.0 < floor <= x
    requires s * (up * f) <= floor * (up - down * f)
    requires up * x < d && y <= x * f + s
    ensures down * y <= d
  {
    var k := up - down * f;
    assert 0.0 <= up * f;
    assert 0.0 <= s * (up * f);
    assert 0.0 <= k by { NonnegativeFactor(k, floor); }
    assert 0.0 <= (x - floor) * k;
    var e := x * f + s - y;
    assert 0.0 <= down * e;
    assert down * e == down * (x * f) + down * s - down * y;
    assert x * k == up * x - down * (x * f);
    var g := up * f - down;
    var over := f - 1.0;
    assert 0.0 <= up * over;
    assert up * over == up * f - up;
    assert 0.0 <= g;
    assert 0.0 <= s * g;
    assert s * g == s * (up * f) - down * s;
    assert (x - floor) * k == x * k - floor * k;
  }

  /** After a step down the use is not above the upper threshold. */
  lemma DownStaysDown(up: real, down: real, f: real, s: real, floor: real, x: real, y: real, d: real)
    requires 0.0 <= down < up && 1.0 < f && 0.0 <= s && 0.0 < floor <= x
    requires s * (up * f) <= floor * (up - down * f)
    requires d < down * x && x / f - s <= y
    ensures d <= up * y
  {
    var k := up - down * f;
    assert 0.0 <= up * f;
    assert 0.0 <= s * (up * f);
    assert 0.0 <= k by { NonnegativeFactor(k, floor); }
    assert 0.0 <= (x - floor) * k;
    assert (x - floor) * k == x * k - floor * k;
    var q := x / f;
    assert q * f == x;
    var t := q * k - s * up;
    assert x * k == (q * k) * f;
    assert t * f == x * k - s * (up * f);
    assert 0.0 <= t by { NonnegativeFactor(t, f); }
    assert q * k == up * q - down * x;
    var e := y - (q - s);
    assert 0.0 <= up * e;
    assert up * e == up * y - up * q + s * up;
  }

  /** A move one way that the next round takes back. */
  predicate Reverses(l: Loop, x: real)
    requires l.Valid() && l.Allocation(x)
  {
    AdvanceAllocates(l, x);
    var y := l.Advance(x);
    var z := l.Advance(y);
    (x < y && z < y) || (y < x && y < z)
  }

  lemma CalmNeverReverses(l: Loop, x: real)
    requires l.Valid() && l.Allocation(x) && l.Calm()
    ensures !Reverses(l, x)
  {
    hide Loop.Advance, Margin, Representable;
    if x < l.Advance(x) {
      RiseThenNoFall(l, x);
    } else if l.Advance(x) < x {
      FallThenNoRise(l, x);
    }
  }

  lemma CalmUp(l: Loop, x: real, y: real)
    requires l.Valid() && l.Allocation(x) && l.Calm() && l.Over(x) && y <= Up(l, x)
    ensures !l.Under(y)
  {
    hide Representable, Margin;
    MarginNonnegative(l.rounding);
    UpStaysUp(l.a.scaleUpThreshold, l.a.scaleDownThreshold, l.a.scaleFactor, Margin(l.rounding), l.floor, x, y,
              l.demand);
  }

  lemma CalmDown(l: Loop, x: real, y: real)
    requires l.Valid() && l.Allocation(x) && l.Calm() && l.Under(x) && Down(l, x) <= y
    ensures !l.Over(y)
  {
    hide Representable, Margin;
    MarginNonnegative(l.rounding);
    DownStaysDown(l.a.scaleUpThreshold, l.a.scaleDownThreshold, l.a.scaleFactor, Margin(l.rounding), l.floor, x, y,
                  l.demand);
  }

  lemma RiseThenNoFall(l: Loop, x: real)
    requires l.Valid() && l.Allocation(x) && l.Calm() && x < l.Advance(x)
    ensures l.Allocation(l.Advance(x)) && l.Advance(x) <= l.Advance(l.Advance(x))
  {
    hide Loop.Advance, Loop.Calm, Loop.Over, Loop.Under, Up, Down;
    AdvanceAllocates(l, x);
    GrowthMeansOverload(l, x);
    CalmUp(l, x, l.Advance(x));
    if l.Advance(l.Advance(x)) < l.Advance(x) {
      ShrinkMeansIdle(l, l.Advance(x));
    }
  }

  lemma FallThenNoRise(l: Loop, x: real)
    requires l.Valid() && l.Allocation(x) && l.Calm() && l.Advance(x) < x
    ensures l.Allocation(l.Advance(x)) && l.Advance(l.Advance(x)) <= l.Advance(x)
  {
    hide Loop.Advance, Loop.Calm, Loop.Over, Loop.Under, Up, Down;
    AdvanceAllocates(l, x);
    ShrinkMeansIdle(l, x);
    CalmDown(l, x, l.Advance(x));
    if l.Advance(x) < l.Advance(l.Advance(x)) {
      GrowthMeansOverload(l, l.Advance(x));
    }
  }

  lemma MarginNonnegative(m: Rounding)
    ensures 0.0 <= Margin(m)
  {}

  /** No allocation of the loop takes a step back. */
  ghost predicate Forward(l: Loop)
    requires l.Valid()
  {
    forall x | l.Allocation(x) :: !Reverses(l, x)
  }

  lemma ForwardStep(l: Loop, x: real)
    requires l.Valid() && l.Allocation(x) && Forward(l)
    ensures l.Allocation(l.Advance(x))
    ensures x < l.Advance(x) ==> l.Advance(x) <= l.Advance(l.Advance(x))
    ensures l.Advance(x) < x ==> l.Advance(l.Advance(x)) <= l.Advance(x)
  {
    hide Loop.Advance, Representable;
    AdvanceAllocates(l, x);
    assert !Reverses(l, x);
  }

  // ----- The whole sequence of runs -----

  function Trajectory(l: Loop, x: real, n: nat): (y: real)
    requires l.Valid() && l.Allocation(x)
    ensures l.Allocation(y)
  {
    if n == 0 then x
    else
      AdvanceAllocates(l, Trajectory(l, x, n - 1));
      l.Advance(Trajectory(l, x, n - 1))
  }

  lemma TrajectoryNext(l: Loop, x: real, n: nat)
    requires l.Valid() && l.Allocation(x)
    ensures Trajectory(l, x, n + 1) == l.Advance(Trajectory(l, x, n))
  {}

  lemma {:induction false} KeepsRising(l: Loop, x: real, n: nat)
    requires l.Valid() && l.Allocation(x) && Forward(l) && x <= l.Advance(x)
    ensures Trajectory(l, x, n) <= Trajectory(l, x, n + 1)
  {
    hide Loop.Advance, Forward, Representable;
    TrajectoryNext(l, x, n);
    if n != 0 {
      KeepsRising(l, x, n - 1);
      TrajectoryNext(l, x, n - 1);
      if Trajectory(l, x, n - 1) < Trajectory(l, x, n) {
        ForwardStep(l, Trajectory(l, x, n - 1));
      }
    }
  }

  lemma {:induction false} KeepsFalling(l: Loop, x: real, n: nat)
    requires l.Valid() && l.Allocation(x) && Forward(l) && l.Advance(x) <= x
    ensures Trajectory(l, x, n + 1) <= Trajectory(l, x, n)
  {
    hide Loop.Advance, Forward, Representable;
    TrajectoryNext(l, x, n);
    if n != 0 {
      KeepsFalling(l, x, n - 1);
      TrajectoryNext(l, x, n - 1);
      if Trajectory(l, x, n) < Trajectory(l, x, n - 1) {
        ForwardStep(l, Trajectory(l, x, n - 1));
      }
    }
  }

  /** The least move of an allocation that moves without reaching a bound. */
  function Stride(l: Loop): real
    requires l.Valid()
  {
    match l.rounding
    case Exact => l.floor * (l.a.scaleFactor - 1.0) / l.a.scaleFactor
    case Printed(r) => Unit(r)
  }

  lemma MovesByStride(l: Loop, x: real)
    requires l.Valid() && l.Allocation(x)
    ensures 0.0 < Stride(l)
    ensures x < l.Advance(x) ==> Min(l.ceiling, x + Stride(l)) <= l.Advance(x)
    ensures l.Advance(x) < x ==> l.Advance(x) <= Max(l.floor, x - Stride(l))
  {
    hide Step;
    AdvanceAllocates(l, x);
    match l.rounding
    case Exact => ExactMove(l, x);
    case Printed(r) =>
      UnitOnGrid(r);
      GridSum(r, x, l.Advance(x));
      GridSum(r, l.Advance(x), x);
  }

  lemma ExactMove(l: Loop, x: real)
    requires l.Valid() && l.Allocation(x) && l.rounding.Exact?
    ensures 0.0 < Stride(l)
    ensures x < l.Advance(x) ==> Min(l.ceiling, x + Stride(l)) <= l.Advance(x)
    ensures l.Advance(x) < x ==> l.Advance(x) <= Max(l.floor, x - Stride(l))
  {
    hide Stride;
    ExactStride(l, x);
    StepDirection(l.a, x);
  }

  lemma ExactStride(l: Loop, x: real)
    requires l.Valid() && l.rounding.Exact? && l.floor <= x
    ensures 0.0 < Stride(l) && x + Stride(l) <= x * l.a.scaleFactor && x / l.a.scaleFactor <= x - Stride(l)
  {
    var f, floor, stride := l.a.scaleFactor, l.floor, Stride(l);
    var d := f - 1.0;
    assert stride * f == floor * (f - 1.0);
    assert 0.0 < floor * d;
    assert 0.0 < stride by { PositiveFactor(stride, f); }
    var q := x / f;
    assert q * f == x;
    var more := x - floor;
    assert 0.0 <= more * d;
    assert more * d == x * f - x - floor * (f - 1.0);
    var gap := x - stride - q;
    assert gap * f == x * f - stride * f - x;
    assert 0.0 <= gap by { NonnegativeFactor(gap, f); }
    assert 0.0 < stride * d;
    assert stride * d == stride * f - stride;
  }

  lemma PositiveFactor(x: real, f: real)
    requires 0.0 < f && 0.0 < x * f
    ensures 0.0 < x
  {}

  /** Under overload the target is the product with the factor, below the lower threshold the quotient. */
  lemma TargetOf(l: Loop, x: real)
    requires l.Valid() && l.Allocation(x)
    ensures l.Target(x) == if l.Over(x) then Min(l.ceiling, Multiplied(l.a, x))
                           else if l.Under(x) then Max(l.floor, Divided(l.a, x)) else x
    ensures Divided(l.a, x) <= x <= Multiplied(l.a, x)
  {
    hide Representable;
    DivideCompare(l.demand, x, l.a.scaleUpThreshold);
    DivideCompare(l.demand, x, l.a.scaleDownThreshold);
    Commute(l.a.scaleUpThreshold, x);
    Commute(l.a.scaleDownThreshold, x);
    FactorMoves(l.a, x);
  }

  lemma FactorMoves(a: Adjuster, x: real)
    requires a.Valid() && 0.0 <= x
    ensures Divided(a, x) <= x <= Multiplied(a, x)
  {
    StepDirection(a, x);
  }

  /** An allocation that grows is the rounded product with the factor, or the ceiling. */
  lemma RisesByFactor(l: Loop, x: real)
    requires l.Valid() && l.Allocation(x) && x < l.Advance(x)
    ensures l.Advance(x) == l.ceiling || Multiplied(l.a, x) - Margin(l.rounding) <= l.Advance(x)
  {
    hide Rounded, Representable, Margin, Loop.Target, Loop.Over, Loop.Under, Multiplied, Divided;
    GrowthMeansOverload(l, x);
    TargetOf(l, x);
    RoundedNear(l.rounding, Multiplied(l.a, x));
    RoundedBounds(l, l.ceiling, l.ceiling, l.ceiling);
  }

  /** An allocation that shrinks is the rounded quotient by the factor, or the floor. */
  lemma FallsByFactor(l: Loop, x: real)
    requires l.Valid() && l.Allocation(x) && l.Advance(x) < x
    ensures l.Advance(x) == l.floor || l.Advance(x) <= Divided(l.a, x) + Surplus(l.rounding)
  {
    hide Rounded, Representable, Margin, Surplus, Loop.Target, Upper, Lower, Multiplied, Divided;
    ShrinkMeansIdle(l, x);
    TargetOf(l, x);
    LowerBelowUpper(l.a, x);
    RoundedNear(l.rounding, Divided(l.a, x));
    RoundedBounds(l, l.floor, l.floor, l.floor);
  }

  /** Allocations that grow do so by the factor above the first amount, those that shrink towards the second. */
  function UpDrift(l: Loop): real
    requires l.Valid()
  {
    RiseDrift(l.a.scaleFactor, Margin(l.rounding))
  }

  function DownDrift(l: Loop): real
    requires l.Valid()
  {
    FallDrift(l.a.scaleFactor, Surplus(l.rounding))
  }

  /** Different allocations differ by the grain. */
  lemma GrainApart(l: Loop, x: real, y: real)
    requires l.Valid() && l.Allocation(x) && l.Allocation(y) && x < y
    ensures x + Grain(l.rounding) <= y
  {
    if l.rounding.Printed? {
      GridSum(l.rounding.resource, x, y);
    }
  }

  lemma GrainIsMarginAndSurplus(m: Rounding)
    ensures Grain(m) == Margin(m) + Surplus(m) && 0.0 <= Surplus(m) && 0.0 <= Margin(m)
  {}

  /** What grows is at least the drift, and multiplies above it or reaches the ceiling. */
  lemma GrowsAboveDrift(l: Loop, x: real)
    requires l.Valid() && l.Allocation(x) && x < l.Advance(x)
    ensures 0.0 <= UpDrift(l) <= x
    ensures l.Advance(x) == l.ceiling || Multiplied(l.a, x - UpDrift(l)) <= l.Advance(x) - UpDrift(l)
  {
    hide Representable, Loop.Advance, Margin, Surplus, Grain, RiseDrift, Loop.Over, Loop.Under;
    RisesByFactor(l, x);
    GrowsEnough(l, x);
    AdvanceAllocates(l, x);
    GrainApart(l, x, l.Advance(x));
    GrainIsMarginAndSurplus(l.rounding);
    RiseDriftBelow(l.a.scaleFactor, Margin(l.rounding), x);
    if l.Advance(x) != l.ceiling {
      RiseAboveDrift(l.a.scaleFactor, Margin(l.rounding), x, l.Advance(x));
    }
  }

  /** Rounding alone does not make an allocation grow. */
  lemma GrowsEnough(l: Loop, x: real)
    requires l.Valid() && l.Allocation(x) && x < l.Advance(x)
    ensures l.Advance(x) <= Multiplied(l.a, x) + Surplus(l.rounding)
  {
    hide Rounded, Representable, Margin, Surplus, Loop.Target, Loop.Over, Loop.Under, Multiplied, Divided;
    GrowthMeansOverload(l, x);
    TargetOf(l, x);
    RoundedNear(l.rounding, l.Target(x));
  }

  lemma RiseDriftBelow(f: real, e: real, x: real)
    requires 1.0 < f && 0.0 <= e && x + e <= x * f
    ensures 0.0 <= RiseDrift(f, e) <= x
  {
    DividesBelow(e, f - 1.0, x);
  }

  /** What shrinks is at least the drift, and divides above it or reaches the floor. */
  lemma ShrinksAboveDrift(l: Loop, x: real)
    requires l.Valid() && l.Allocation(x) && l.Advance(x) < x
    ensures 0.0 <= DownDrift(l) <= x
    ensures l.Advance(x) == l.floor || l.Advance(x) - DownDrift(l) <= Divided(l.a, x - DownDrift(l))
  {
    hide Representable, Loop.Advance, Margin, Surplus, Grain, FallDrift, Loop.Over, Loop.Under;
    FallsByFactor(l, x);
    ShrinksEnough(l, x);
    AdvanceAllocates(l, x);
    GrainApart(l, l.Advance(x), x);
    GrainIsMarginAndSurplus(l.rounding);
    FallDriftBelow(l.a.scaleFactor, Surplus(l.rounding), x);
    if l.Advance(x) != l.floor {
      FallAboveDrift(l.a.scaleFactor, Surplus(l.rounding), x, l.Advance(x));
    }
  }

  lemma ShrinksEnough(l: Loop, x: real)
    requires l.Valid() && l.Allocation(x) && l.Advance(x) < x
    ensures Divided(l.a, x) - Margin(l.rounding) <= l.Advance(x)
  {
    hide Rounded, Representable, Margin, Surplus, Loop.Target, Upper, Lower, Multiplied, Divided;
    ShrinkMeansIdle(l, x);
    TargetOf(l, x);
    LowerBelowUpper(l.a, x);
    RoundedNear(l.rounding, l.Target(x));
  }

  lemma FallDriftBelow(f: real, e: real, x: real)
    requires 1.0 < f && 0.0 <= e && x / f + e <= x
    ensures 0.0 <= FallDrift(f, e) <= x
  {
    var q := x / f;
    assert q * f == x;
    var rest := x - q - e;
    assert 0.0 <= rest * f;
    assert rest * f == x * (f - 1.0) - e * f;
    DividesBelow(e * f, f - 1.0, x);
  }

  /** The least that the first move up from any allocation leaves above the drift. */
  function Lift(l: Loop): real
    requires l.Valid()
  {
    Max(l.floor - UpDrift(l), 0.0) + Stride(l)
  }

  /** Where `n` moves up lead at least: the first gains the lift, the others multiply above the drift. */
  function Ascent(l: Loop, n: nat): real
    requires l.Valid()
  {
    if n == 0 then l.floor else UpDrift(l) + Scale(l.a.scaleFactor, Lift(l), n - 1)
  }

  /** At least what `n` moves up make of `x`, or the ceiling. */
  predicate Risen(l: Loop, x: real, n: nat, y: real)
    requires l.Valid()
  {
    Min(l.ceiling, x + Times(n, Stride(l))) <= y && Min(l.ceiling, Ascent(l, n)) <= y
  }

  /** At most what `n` moves down make of `x`, or the floor. */
  predicate Fallen(l: Loop, x: real, n: nat, y: real)
    requires l.Valid()
  {
    && y <= Max(l.floor, x - Times(n, Stride(l)))
    && (y <= l.floor || Scale(l.a.scaleFactor, y - DownDrift(l), n) <= x - DownDrift(l))
  }

  lemma NotMoved(l: Loop, x: real)
    requires l.Valid() && l.Allocation(x)
    ensures Risen(l, x, 0, x) && Fallen(l, x, 0, x)
  {
    hide Stride, Scale, DownDrift, Representable;
    TimesZero(Stride(l));
    ScaleNone(l.a.scaleFactor, x - DownDrift(l));
  }

  lemma RisenMore(l: Loop, x: real, n: nat, y: real)
    requires l.Valid() && l.Allocation(y) && Risen(l, x, n, y) && y < l.Advance(y)
    ensures Risen(l, x, n + 1, l.Advance(y))
  {
    hide Loop.Advance, Representable, Times, Stride, Ascent, UpDrift, Multiplied;
    AdvanceAllocates(l, y);
    MovesByStride(l, y);
    GrowsAboveDrift(l, y);
    TimesNext(n, Stride(l));
    AscendOnce(l, n, y, l.Advance(y));
  }

  lemma AscendOnce(l: Loop, n: nat, y: real, z: real)
    requires l.Valid() && l.Allocation(y) && y < z <= l.ceiling && UpDrift(l) <= y && Min(l.ceiling, Ascent(l, n)) <= y
    requires Min(l.ceiling, y + Stride(l)) <= z
    requires z == l.ceiling || Multiplied(l.a, y - UpDrift(l)) <= z - UpDrift(l)
    ensures Min(l.ceiling, Ascent(l, n + 1)) <= z
  {
    hide Representable, Stride, Scale, UpDrift;
    if n == 0 {
      ScaleNone(l.a.scaleFactor, Lift(l));
    } else {
      ScaleMore(l.a.scaleFactor, Lift(l), n - 1, y - UpDrift(l));
    }
  }

  lemma FallenMore(l: Loop, x: real, n: nat, y: real)
    requires l.Valid() && l.Allocation(y) && Fallen(l, x, n, y) && l.Advance(y) < y
    ensures Fallen(l, x, n + 1, l.Advance(y))
  {
    hide Loop.Advance, Representable, Times, Stride, DownDrift, Scale;
    AdvanceAllocates(l, y);
    MovesByStride(l, y);
    ShrinksAboveDrift(l, y);
    TimesNext(n, Stride(l));
    if l.floor < l.Advance(y) {
      ScaleLess(l.a.scaleFactor, n, y - DownDrift(l), l.Advance(y) - DownDrift(l));
    }
  }

  lemma {:induction false} RisesToFixpoint(l: Loop, x: real, n: nat)
    requires l.Valid() && l.Allocation(x) && Forward(l) && x <= l.Advance(x)
    ensures Trajectory(l, x, n + 1) == Trajectory(l, x, n) || Risen(l, x, n, Trajectory(l, x, n))
  {
    hide Loop.Advance, Forward, Representable, Risen;
    NotMoved(l, x);
    if n != 0 {
      TrajectoryNext(l, x, n);
      TrajectoryNext(l, x, n - 1);
      RisesToFixpoint(l, x, n - 1);
      KeepsRising(l, x, n - 1);
      var y := Trajectory(l, x, n - 1);
      if y < l.Advance(y) {
        RisenMore(l, x, n - 1, y);
      }
    }
  }

  lemma {:induction false} FallsToFixpoint(l: Loop, x: real, n: nat)
    requires l.Valid() && l.Allocation(x) && Forward(l) && l.Advance(x) <= x
    ensures Trajectory(l, x, n + 1) == Trajectory(l, x, n) || Fallen(l, x, n, Trajectory(l, x, n))
  {
    hide Loop.Advance, Forward, Representable, Fallen;
    NotMoved(l, x);
    if n != 0 {
      TrajectoryNext(l, x, n);
      TrajectoryNext(l, x, n - 1);
      FallsToFixpoint(l, x, n - 1);
      KeepsFalling(l, x, n - 1);
      var y := Trajectory(l, x, n - 1);
      if l.Advance(y) < y {
        FallenMore(l, x, n - 1, y);
      }
    }
  }

  function RoundsToSettle(l: Loop): int
    requires l.Valid() && 0.0 < Stride(l)
  {
    MovesToCover(l.ceiling - l.floor, Stride(l))
  }

  /** Where all moves down end: above the floor or the drift by less than this. */
  function Rest(l: Loop): real
    requires l.Valid()
  {
    Max(l.floor - DownDrift(l), 0.0) + Grain(l.rounding)
  }

  /** So many runs suffice: by the stride each, or by the factor, whichever way the allocation moves. */
  predicate Settles(l: Loop, n: nat)
    requires l.Valid() && 0.0 < Stride(l)
  {
    RoundsToSettle(l) <= n
    || (0 < n && l.ceiling <= Ascent(l, n - 1) && l.ceiling - DownDrift(l) < Scale(l.a.scaleFactor, Rest(l), n - 1))
  }

  /** The allocation never falls, or never rises. */
  ghost predicate OneWay(l: Loop, x: real)
    requires l.Valid() && l.Allocation(x)
  {
    (forall k: nat :: Trajectory(l, x, k) <= Trajectory(l, x, k + 1))
    || (forall k: nat :: Trajectory(l, x, k + 1) <= Trajectory(l, x, k))
  }

  /**
   When no allocation takes a step back, the allocation moves in one direction only, and is at a fixed point after an
   explicit number of runs, which grows with the logarithm of the ceiling to the base of the scale factor.
   */
  lemma ForwardSettles(l: Loop, x: real, n: nat)
    requires l.Valid() && l.Allocation(x) && Forward(l)
    ensures OneWay(l, x) && 0.0 < Stride(l)
    ensures Settles(l, n) ==> Trajectory(l, x, n + 1) == Trajectory(l, x, n)
  {
    hide Loop.Advance, Forward, Representable, Stride, Trajectory, Settles;
    MovesByStride(l, x);
    if x <= l.Advance(x) {
      forall k: nat ensures Trajectory(l, x, k) <= Trajectory(l, x, k + 1) {
        KeepsRising(l, x, k);
      }
      if Settles(l, n) {
        RiseSettles(l, x, n);
      }
    } else {
      forall k: nat ensures Trajectory(l, x, k + 1) <= Trajectory(l, x, k) {
        KeepsFalling(l, x, k);
      }
      if Settles(l, n) {
        FallSettles(l, x, n);
      }
    }
  }

  lemma RiseSettles(l: Loop, x: real, n: nat)
    requires l.Valid() && l.Allocation(x) && Forward(l) && x <= l.Advance(x) && 0.0 < Stride(l) && Settles(l, n)
    ensures Trajectory(l, x, n + 1) == Trajectory(l, x, n)
  {
    hide Loop.Advance, Forward, Representable, Stride, Trajectory, Ascent, Scale, DownDrift, Rest;
    RisesToFixpoint(l, x, n);
    KeepsRising(l, x, n);
    if RoundsToSettle(l) <= n {
      EnoughRounds(l.ceiling - l.floor, Stride(l), n);
    } else {
      RisesToFixpoint(l, x, n - 1);
      KeepsRising(l, x, n - 1);
      TrajectoryNext(l, x, n - 1);
      TrajectoryNext(l, x, n);
    }
  }

  lemma FallSettles(l: Loop, x: real, n: nat)
    requires l.Valid() && l.Allocation(x) && Forward(l) && l.Advance(x) <= x && 0.0 < Stride(l) && Settles(l, n)
    ensures Trajectory(l, x, n + 1) == Trajectory(l, x, n)
  {
    hide Loop.Advance, Forward, Representable, Stride, Trajectory, Ascent, Fallen;
    FallsToFixpoint(l, x, n);
    KeepsFalling(l, x, n);
    if RoundsToSettle(l) <= n {
      if Fallen(l, x, n, Trajectory(l, x, n)) {
        FallenByStride(l, x, n, Trajectory(l, x, n));
      }
    } else {
      FallsToFixpoint(l, x, n - 1);
      KeepsFalling(l, x, n - 1);
      TrajectoryNext(l, x, n - 1);
      TrajectoryNext(l, x, n);
      if Fallen(l, x, n - 1, Trajectory(l, x, n - 1)) {
        FallenByFactor(l, x, n - 1, Trajectory(l, x, n - 1));
      }
    }
  }

  lemma FallenByStride(l: Loop, x: real, n: nat, y: real)
    requires l.Valid() && l.Allocation(x) && 0.0 < Stride(l) && RoundsToSettle(l) <= n && Fallen(l, x, n, y)
    ensures y <= l.floor
  {
    hide Stride, Representable, Scale, DownDrift;
    EnoughRounds(l.ceiling - l.floor, Stride(l), n);
  }

  /** Less than the rest above the drift, an allocation takes at most one more step down. */
  lemma FallenByFactor(l: Loop, x: real, n: nat, y: real)
    requires l.Valid() && l.Allocation(x) && l.Allocation(y) && Fallen(l, x, n, y)
    requires l.ceiling - DownDrift(l) < Scale(l.a.scaleFactor, Rest(l), n)
    ensures l.Allocation(l.Advance(y))
    ensures l.Advance(y) <= y && l.Advance(l.Advance(y)) <= l.Advance(y) ==> l.Advance(l.Advance(y)) == l.Advance(y)
  {
    hide Loop.Advance, Representable, Stride, DownDrift, Scale, Times, Grain, Divided;
    var z := l.Advance(y);
    AdvanceAllocates(l, y);
    AdvanceAllocates(l, z);
    if Rest(l) <= y - DownDrift(l) {
      ScaleOrder(l.a.scaleFactor, Rest(l), y - DownDrift(l), n);
    }
    if l.floor < y {
      GrainApart(l, l.floor, y);
    }
    if z < y {
      GrainApart(l, z, y);
    }
    if l.Advance(z) < z {
      ShrinksAboveDrift(l, z);
    }
  }

  /** With calm thresholds the allocation moves in one direction only and settles. */
  lemma CalmSettles(l: Loop, x: real, n: nat)
    requires l.Valid() && l.Allocation(x) && l.Calm()
    ensures OneWay(l, x) && 0.0 < Stride(l)
    ensures Settles(l, n) ==> Trajectory(l, x, n + 1) == Trajectory(l, x, n)
  {
    hide Loop.Calm, Reverses, Representable, OneWay, Settles, Trajectory, Stride;
    forall y | l.Allocation(y) ensures !Reverses(l, y) {
      CalmNeverReverses(l, y);
    }
    ForwardSettles(l, x, n);
  }

  // ----- The exact condition for given bounds -----

  /** What a step up, or down, makes of an allocation. */
  function Raised(l: Loop, x: real): real {
    Rounded(l.rounding, Min(l.ceiling, Multiplied(l.a, x)))
  }

  function Lowered(l: Loop, x: real): real
    requires l.a.scaleFactor != 0.0
  {
    Rounded(l.rounding, Max(l.floor, Divided(l.a, x)))
  }

  /** Some whole amount lies strictly between. */
  predicate Apart(low: real, high: real) {
    (low.Floor + 1) as real < high
  }

  /**
   No demand is above the upper threshold of an allocation and below the lower threshold of what a step up makes of it;
   nor below its lower threshold and above the upper one of what a step down makes of it, if that can grow again.
   */
  predicate Steady(l: Loop, x: real)
    requires l.Valid()
  {
    && !Apart(Upper(l.a, x), Lower(l.a, Raised(l, x)))
    && (Lowered(l, x) < Raised(l, Lowered(l, x)) ==> !Apart(Upper(l.a, Lowered(l, x)), Lower(l.a, x)))
  }

  /** The loop under another demand, a whole amount. */
  function Demanding(l: Loop, demand: nat): (k: Loop)
    ensures l.Valid() ==> k.Valid()
    ensures forall x :: k.Allocation(x) <==> l.Allocation(x)
  {
    l.(demand := demand as real)
  }

  lemma AdvanceIs(l: Loop, x: real)
    requires l.Valid() && l.Allocation(x)
    ensures l.Advance(x) == if l.Over(x) then Raised(l, x) else if l.Under(x) then Lowered(l, x) else x
    ensures Lowered(l, x) <= x <= Raised(l, x)
    ensures l.Allocation(Raised(l, x)) && l.Allocation(Lowered(l, x))
  {
    hide Rounded, Representable, Loop.Target, Loop.Over, Loop.Under, Multiplied, Divided;
    TargetOf(l, x);
    RoundedBounds(l, x, x, x);
    RoundedBounds(l, l.floor, l.floor, l.floor);
    RoundedBounds(l, x, Min(l.ceiling, Multiplied(l.a, x)), l.ceiling);
    RoundedBounds(l, l.floor, Max(l.floor, Divided(l.a, x)), x);
  }

  /** One step, and where it leads, under a given demand. */
  lemma DemandingAdvances(l: Loop, demand: nat, x: real)
    requires l.Valid() && l.Allocation(x)
    ensures Demanding(l, demand).Advance(x) ==
            if Upper(l.a, x) < demand as real then Raised(l, x)
            else if demand as real < Lower(l.a, x) then Lowered(l, x) else x
    ensures Lowered(l, x) <= x <= Raised(l, x) && l.Allocation(Raised(l, x)) && l.Allocation(Lowered(l, x))
    ensures 0.0 <= Lower(l.a, x) < Upper(l.a, x)
  {
    hide Upper, Lower, Rounded, Representable, Loop.Advance, Multiplied, Divided;
    AdvanceIs(Demanding(l, demand), x);
    LowerBelowUpper(l.a, x);
  }

  lemma LowerBelowUpper(a: Adjuster, x: real)
    requires a.Valid() && 0.0 < x
    ensures 0.0 <= Lower(a, x) < Upper(a, x)
  {
    assert 0.0 < (a.scaleUpThreshold - a.scaleDownThreshold) * x;
  }

  lemma LowerMonotone(a: Adjuster, x: real, y: real)
    requires a.Valid() && x <= y
    ensures Lower(a, x) <= Lower(a, y)
  {
    assert 0.0 <= a.scaleDownThreshold * (y - x);
  }

  lemma SteadyStays(l: Loop, demand: nat, x: real)
    requires l.Valid() && l.Allocation(x) && Steady(l, x)
    ensures !Reverses(Demanding(l, demand), x)
  {
    hide Raised, Lowered, Representable, Loop.Advance, Upper, Lower, Demanding, Apart;
    WholeBetween(Upper(l.a, x), demand, Lower(l.a, Raised(l, x)));
    WholeBetween(Upper(l.a, Lowered(l, x)), demand, Lower(l.a, x));
    DemandingAdvances(l, demand, x);
    DemandingAdvances(l, demand, Raised(l, x));
    DemandingAdvances(l, demand, Lowered(l, x));
  }

  lemma WholeBetween(low: real, n: int, high: real)
    ensures low < n as real < high ==> Apart(low, high)
  {
    var f := low.Floor;
    assert f as real <= low;
    if low < n as real {
      assert f as real < n as real;
      assert f + 1 <= n;
    }
  }

  /** What a step up made is undone by a step down, rounding included. */
  lemma LowersBack(l: Loop, x: real)
    requires l.Valid() && l.Allocation(x)
    ensures Lowered(l, Raised(l, x)) <= x
  {
    hide Rounded, Representable, Multiplied, Divided;
    TargetOf(l, x);
    var up := Min(l.ceiling, Multiplied(l.a, x));
    RoundedNear(l.rounding, up);
    BackBelow(l.rounding, l.a, x, Raised(l, x));
    RoundedWithin(l, x, Max(l.floor, Divided(l.a, Raised(l, x))));
  }

  /** Below `x`, or by less than half a CPU unit above. */
  predicate HardlyAbove(m: Rounding, y: real, x: real) {
    y <= x || y < x + Surplus(m)
  }

  lemma BackBelow(m: Rounding, a: Adjuster, x: real, y: real)
    requires a.Valid() && y <= Multiplied(a, x) + Surplus(m)
    ensures HardlyAbove(m, Divided(a, y), x)
  {
    var f, q, g := a.scaleFactor, Divided(a, y), Surplus(m);
    assert q * f == y;
    var gap := x + g - q;
    var more := g * (f - 1.0);
    assert 0.0 <= more && (0.0 < g ==> 0.0 < more);
    assert more <= gap * f;
    NonnegativeFactor(gap, f);
    if 0.0 < g {
      PositiveFactor(gap, f);
    }
  }

  lemma RoundedWithin(l: Loop, x: real, y: real)
    requires l.Valid() && l.Allocation(x) && HardlyAbove(l.rounding, y, x)
    ensures Rounded(l.rounding, y) <= x
  {
    if l.rounding == Printed(Cpu) {
      var n := Trunc(InUnits(Cpu, x));
      assert x == FromUnits(Cpu, n);
      assert InUnits(Cpu, y) < n as real + 0.5;
      assert Round(Cpu, InUnits(Cpu, y)) <= n;
    } else if l.rounding == Printed(Mem) {
      SnapMonotone(Mem, y, x);
      SnapOnGrid(Mem, x);
    }
  }

  lemma UnsteadyFlaps(l: Loop, x: real) returns (demand: nat)
    requires l.Valid() && l.Allocation(x) && !Steady(l, x)
    ensures Reverses(Demanding(l, demand), x)
  {
    hide Raised, Lowered, Representable, Loop.Advance, Upper, Lower, Demanding;
    var high, low := Raised(l, x), Lowered(l, x);
    var y := if Apart(Upper(l.a, x), Lower(l.a, high)) then x else low;
    DemandingAdvances(l, 0, x);
    DemandingAdvances(l, 0, low);
    demand := (Upper(l.a, y)).Floor + 1;
    DemandingAdvances(l, demand, x);
    DemandingAdvances(l, demand, high);
    DemandingAdvances(l, demand, low);
    LowersBack(l, x);
    if high <= x {
      LowerMonotone(l.a, high, x);
    }
    if x <= low {
      LowerMonotone(l.a, x, low);
    }
  }

  /**
   Exactly when a loop with given bounds never takes a step back, whatever whole amount is demanded and wherever it
   starts, with the rounding of printing or without: when all its allocations are steady.
   */
  lemma FlapsExactly(l: Loop)
    requires l.Valid()
    ensures (forall demand: nat, x | l.Allocation(x) :: !Reverses(Demanding(l, demand), x)) <==>
            (forall x | l.Allocation(x) :: Steady(l, x))
  {
    hide Steady, Representable;
    if forall x | l.Allocation(x) :: Steady(l, x) {
      forall demand: nat, x | l.Allocation(x) ensures !Reverses(Demanding(l, demand), x) {
        SteadyStays(l, demand, x);
      }
    }
    if x :| l.Allocation(x) && !Steady(l, x) {
      var demand := UnsteadyFlaps(l, x);
    }
  }

  /** Under the exact condition every whole demand and start settles, in one direction. */
  lemma SteadySettles(l: Loop, demand: nat, x: real, n: nat)
    requires l.Valid() && l.Allocation(x) && forall y | l.Allocation(y) :: Steady(l, y)
    ensures var k := Demanding(l, demand);
            OneWay(k, x) && 0.0 < Stride(k) && (Settles(k, n) ==> Trajectory(k, x, n + 1) == Trajectory(k, x, n))
  {
    hide Steady, Representable, OneWay, Settles, Trajectory, Stride, Reverses;
    var k := Demanding(l, demand);
    forall y | k.Allocation(y) ensures !Reverses(k, y) {
      SteadyStays(l, demand, y);
    }
    ForwardSettles(k, x, n);
  }

  /** And it is exact: every whole demand and start moves in one direction only if all allocations are steady. */
  lemma OneWayExactly(l: Loop)
    requires l.Valid()
    ensures (forall demand: nat, x | l.Allocation(x) :: OneWay(Demanding(l, demand), x)) <==>
            (forall x | l.Allocation(x) :: Steady(l, x))
  {
    hide Steady, Representable, OneWay, Reverses;
    if forall x | l.Allocation(x) :: Steady(l, x) {
      forall demand: nat, x | l.Allocation(x) ensures OneWay(Demanding(l, demand), x) {
        SteadySettles(l, demand, x, 0);
      }
    }
    if x :| l.Allocation(x) && !Steady(l, x) {
      var demand := UnsteadyFlaps(l, x);
      ReversalIsNotOneWay(Demanding(l, demand), x);
    }
  }

  lemma ReversalIsNotOneWay(l: Loop, x: real)
    requires l.Valid() && l.Allocation(x) && Reverses(l, x)
    ensures !OneWay(l, x)
  {
    hide Loop.Advance, Representable;
    TrajectoryNext(l, x, 0);
    TrajectoryNext(l, x, 1);
    assert Trajectory(l, x, 0) == x && Trajectory(l, x, 0 + 1) == l.Advance(x);
    assert Trajectory(l, x, 1 + 1) == l.Advance(l.Advance(x));
  }

  // ----- When thresholds are too close -----

  /** With exact amounts, no setting of bounds, demand and start makes this adjuster take a step back. */
  ghost predicate NeverFlaps(a: Adjuster) {
    forall floor, ceiling, demand, x |
      Loop(a, Exact, floor, ceiling, demand).Valid() && Loop(a, Exact, floor, ceiling, demand).Allocation(x) ::
      !Reverses(Loop(a, Exact, floor, ceiling, demand), x)
  }

  /**
   For amounts that are not printed: flapping is excluded exactly when the lower threshold times the factor does not
   exceed the upper one.
   */
  lemma NeverFlapsExactly(a: Adjuster)
    requires a.Valid()
    ensures NeverFlaps(a) <==> a.scaleDownThreshold * a.scaleFactor <= a.scaleUpThreshold
  {
    if a.scaleDownThreshold * a.scaleFactor <= a.scaleUpThreshold {
      forall floor, ceiling, demand, x |
        Loop(a, Exact, floor, ceiling, demand).Valid() && Loop(a, Exact, floor, ceiling, demand).Allocation(x)
        ensures !Reverses(Loop(a, Exact, floor, ceiling, demand), x)
      {
        var l := Loop(a, Exact, floor, ceiling, demand);
        ExactCalm(l);
        CalmNeverReverses(l, x);
      }
    } else {
      var l := ExactTwoCycle(a);
      assert Reverses(l, 1.0);
      assert Loop(a, Exact, l.floor, l.ceiling, l.demand) == l;
    }
  }

  lemma ExactCalm(l: Loop)
    requires l.Valid() && l.rounding.Exact? && l.a.scaleDownThreshold * l.a.scaleFactor <= l.a.scaleUpThreshold
    ensures l.Calm()
  {
    var gap := l.a.scaleUpThreshold - l.a.scaleDownThreshold * l.a.scaleFactor;
    assert 0.0 <= l.floor * gap;
  }

  lemma ExactTwoCycle(a: Adjuster) returns (l: Loop)
    requires a.Valid() && a.scaleUpThreshold < a.scaleDownThreshold * a.scaleFactor
    ensures l.Valid() && l.a == a && l.rounding == Exact && l.Allocation(1.0) && l.Allocation(a.scaleFactor)
    ensures l.Advance(1.0) == a.scaleFactor && l.Advance(a.scaleFactor) == 1.0
    ensures Reverses(l, 1.0)
  {
    var f := a.scaleFactor;
    var demand := (a.scaleUpThreshold + a.scaleDownThreshold * f) / 2.0;
    l := Loop(a, Exact, 1.0, f, demand);
    DivideCompare(demand, f, a.scaleDownThreshold);
    Commute(f, a.scaleDownThreshold);
    assert demand / 1.0 == demand;
    assert f / f == 1.0;
    assert demand / f < a.scaleDownThreshold;
  }

  // ----- The program flaps -----

  /** By how much the condition fails. */
  function Excess(a: Adjuster): real {
    a.scaleDownThreshold * a.scaleFactor - a.scaleUpThreshold
  }

  /** From so many printable units on, a step up leads below the lower threshold. */
  function EnoughUnits(a: Adjuster): int
    requires 0.0 < Excess(a)
  {
    MovesToCover(1.0 + a.scaleDownThreshold, Excess(a))
  }

  /** The adjuster with another global ceiling for a resource. */
  function WithCeiling(r: Resource, a: Adjuster, text: string): Adjuster {
    match r
    case Cpu => a.(maxCPUs := text)
    case Mem => a.(maxMemory := text)
  }

  /** A profile with this baseline for a resource and no ceiling of its own. */
  function WithBaseline(r: Resource, text: string): Profile {
    match r
    case Cpu => Profile(text, "2g", ["*"], "", "")
    case Mem => Profile("1", text, ["*"], "", "")
  }

  /** A run that was granted and used these amounts of a resource. */
  function RunOf(r: Resource, granted: int, used: int): MetricsRecord {
    match r
    case Cpu => MetricsRecord("job", "profile", granted, 0, used, 0)
    case Mem => MetricsRecord("job", "profile", 0, granted, 0, used)
  }

  /**
   When the lower threshold times the factor exceeds the upper one, the program itself flaps: for either resource and
   every baseline from some size on there is a ceiling and a constant demand, all quantities printable, for which each
   adjustment by the one run before takes back the previous one, forever.
   */
  lemma TwoCycle(r: Resource, a: Adjuster, n: int) returns (low: int, high: int, used: nat)
    requires a.Valid() && a.historyWindow == 1 && a.scaleUpThreshold < a.scaleDownThreshold * a.scaleFactor
    requires EnoughUnits(a) <= n
    ensures low as real == FromUnits(r, n) && low < high
    ensures var p := WithBaseline(r, Format(r, low as real));
            var b := WithCeiling(r, a, Format(r, high as real));
            && b.Valid()
            && Parse(r, Chosen(r, b, p, [RunOf(r, low, used)])) == high as real
            && Parse(r, Chosen(r, b, p, [RunOf(r, high, used)])) == low as real
  {
    hide Parse, Format, Chosen, Loop.Advance, Upper, Lower, Snap, OnGrid, FromUnits, Multiplied, Unit, EnoughUnits;
    var m;
    m, used := CyclePoints(r, a, n);
    var x, y := FromUnits(r, n), FromUnits(r, m);
    low, high := Trunc(x), Trunc(y);
    UnitsOf(r, n);
    UnitsOf(r, m);
    FormatParse(r, x);
    FormatParse(r, y);
    var p, b := WithBaseline(r, Format(r, x)), WithCeiling(r, a, Format(r, y));
    assert Baseline(r, p) == x && Ceiling(r, b, p) == y;
    var l := Loop(b, Printed(r), x, y, used as real);
    assert Upper(b, x) == Upper(a, x) && Lower(b, y) == Lower(a, y) && Multiplied(b, x) == Multiplied(a, x) by {
      SameNumbers(r, a, Format(r, y));
    }
    SingleRecordAdvances(r, b, p, RunOf(r, low, used));
    SingleRecordAdvances(r, b, p, RunOf(r, high, used));
    CycleAdvances(l, x, y);
  }

  lemma SameNumbers(r: Resource, a: Adjuster, text: string)
    ensures var b := WithCeiling(r, a, text);
            forall x :: Upper(b, x) == Upper(a, x) && Lower(b, x) == Lower(a, x) && Multiplied(b, x) == Multiplied(a, x)
  {}

  /** Printable points between which a whole demand drives an allocation up and down. */
  lemma CyclePoints(r: Resource, a: Adjuster, n: int) returns (m: int, demand: nat)
    requires a.Valid() && 0.0 < Excess(a) && EnoughUnits(a) <= n
    ensures var x, y := FromUnits(r, n), FromUnits(r, m);
            && 0.0 < x < y <= Multiplied(a, x)
            && Upper(a, x) < demand as real < Lower(a, y)
  {
    var up, down, f, unit := a.scaleUpThreshold, a.scaleDownThreshold, a.scaleFactor, Unit(r);
    m := EnoughExcess(a, n);
    var x, y := FromUnits(r, n), FromUnits(r, m);
    InScale(r, a, n, m);
    hide Upper, Lower, Multiplied, EnoughUnits, Excess;
    LowerBelowUpper(a, x);
    demand := Upper(a, x).Floor + 1;
    if y <= x {
      LowerMonotone(a, y, x);
    }
  }

  lemma EnoughExcess(a: Adjuster, n: int) returns (m: int)
    requires a.Valid() && 0.0 < Excess(a) && EnoughUnits(a) <= n
    ensures 0 < n && m as real <= Multiplied(a, n as real)
    ensures Upper(a, n as real) + 1.0 < Lower(a, m as real)
  {
    hide Upper, Lower, Excess, Multiplied, Times;
    NonnegativeQuotient(1.0 + a.scaleDownThreshold, Excess(a));
    EnoughRounds(1.0 + a.scaleDownThreshold, Excess(a), n);
    m := WholeBelow(Multiplied(a, n as real));
    ExcessOf(a, n);
    PositiveThreshold(a);
    LowerLoses(a, Multiplied(a, n as real), m as real);
  }

  lemma WholeBelow(x: real) returns (m: int)
    ensures m as real <= x < m as real + 1.0
  {
    m := x.Floor;
  }

  lemma ExcessOf(a: Adjuster, n: nat)
    ensures Times(n, Excess(a)) == Lower(a, Multiplied(a, n as real)) - Upper(a, n as real)
  {}

  lemma PositiveThreshold(a: Adjuster)
    requires a.Valid() && 0.0 < Excess(a)
    ensures 0.0 < a.scaleDownThreshold
  {
    PositiveFactor(a.scaleDownThreshold, a.scaleFactor);
  }

  lemma LowerLoses(a: Adjuster, x: real, m: real)
    requires 0.0 < a.scaleDownThreshold && x < m + 1.0
    ensures Lower(a, x) - a.scaleDownThreshold < Lower(a, m)
  {
    var t, rest := a.scaleDownThreshold, m + 1.0 - x;
    var gap := t * rest;
    assert 0.0 < gap;
    assert gap == t * m + t - t * x;
  }

  /** Whole units are an amount at least as large as their number. */
  lemma InScale(r: Resource, a: Adjuster, n: int, m: int)
    requires a.Valid() && 0 < n && m as real <= Multiplied(a, n as real)
    requires Upper(a, n as real) + 1.0 < Lower(a, m as real)
    ensures var x, y := FromUnits(r, n), FromUnits(r, m);
            0.0 < x && y <= Multiplied(a, x) && Upper(a, x) + 1.0 < Lower(a, y)
  {
    var u, up, down, f := Unit(r), a.scaleUpThreshold, a.scaleDownThreshold, a.scaleFactor;
    var i, j := n as real, m as real;
    UnitsAreMultiples(r, n);
    UnitsAreMultiples(r, m);
    hide FromUnits, Unit;
    MultiplyMonotone(j, i * f, u);
    var gap := down * j - up * i;
    MultiplyMonotone(1.0, u, gap);
    assert u * gap == down * (u * j) - up * (u * i);
  }

  lemma UnitsAreMultiples(r: Resource, n: int)
    ensures FromUnits(r, n) == Unit(r) * n as real && 1.0 <= Unit(r)
  {}

  lemma CycleAdvances(l: Loop, x: real, y: real)
    requires l.Valid() && l.rounding.Printed? && l.floor == x && l.ceiling == y && x < y <= Multiplied(l.a, x)
    requires l.Over(x) && l.Under(y)
    ensures l.Advance(x) == y && l.Advance(y) == x
  {
    hide Snap, OnGrid, Loop.Advance, Multiplied, Upper, Lower;
    AdvanceIs(l, x);
    AdvanceIs(l, y);
    LowerBelowUpper(l.a, y);
    QuotientBelow(l.a, x, y);
    SnapOnGrid(l.rounding.resource, x);
    SnapOnGrid(l.rounding.resource, y);
  }

  lemma QuotientBelow(a: Adjuster, x: real, y: real)
    requires a.Valid() && y <= Multiplied(a, x)
    ensures Divided(a, y) <= x
  {
    var q := Divided(a, y);
    assert q * a.scaleFactor == y;
    NonnegativeFactor(x - q, a.scaleFactor);
  }

  // ----- The condition for exact amounts is not enough -----

  const NARROW: Adjuster := Adjuster(0.8, 0.615, 1.3, 1, "4", "8g")
  const NARROW_PROFILE: Profile := Profile("1.02", "2g", ["*"], "", "")

  /**
   Thresholds that never flap with exact amounts, and a constant demand of 0.817 CPUs under which the program allocates
   1.33 CPUs after a run with 1.02, and 1.02 after one with 1.33.
   */
  lemma PrintingFlaps()
    ensures NARROW.Valid() && NeverFlaps(NARROW)
    ensures Chosen(Cpu, NARROW, NARROW_PROFILE, [RunOf(Cpu, 1_020_000_000, 817_000_000)]) == "1.33"
    ensures Chosen(Cpu, NARROW, NARROW_PROFILE, [RunOf(Cpu, 1_330_000_000, 817_000_000)]) == "1.02"
    ensures ParseCPUs("1.33") == Ok(1_330_000_000) && ParseCPUs("1.02") == Ok(1_020_000_000)
  {
    hide NeverFlaps, Chosen, FormatCPU, ParseCPUs;
    NeverFlapsExactly(NARROW);
    NarrowNumerals();
    NarrowStep(1_020_000_000, 1_326_000_000.0);
    NarrowStep(1_330_000_000, 1_330_000_000.0 / 1.3);
  }

  lemma NarrowNumerals()
    ensures FormatCPU(1_326_000_000.0) == "1.33" && ParseCPUs("1.33") == Ok(1_330_000_000)
    ensures FormatCPU(1_330_000_000.0 / 1.3) == "1.02" && ParseCPUs("1.02") == Ok(1_020_000_000)
    ensures ParseCPUToNano("1.02") == 1_020_000_000.0 && ParseCPUToNano("4") == 4_000_000_000.0
  {
    NarrowPrinted();
    hide FormatCPU, ParseCPUs, ParseCPUToNano;
    var x, y := 1_326_000_000.0, 1_330_000_000.0 / 1.3;
    assert HalfEven(132.6) == 133 && HalfEven(InUnits(Cpu, y)) == 102;
    PrintedIsEnforced(Cpu, x);
    PrintedIsEnforced(Cpu, y);
    FormatParseCPU(y);
    FormatParseCPU(4_000_000_000.0);
    TruncInt(400);
  }

  lemma NarrowPrinted()
    ensures FormatCPU(1_326_000_000.0) == "1.33" && FormatCPU(1_330_000_000.0 / 1.3) == "1.02"
    ensures FormatCPU(4_000_000_000.0) == "4"
  {
    hide TrimNumeral, Fixed2;
    assert Fixed2(1_326_000_000.0 / 1_000_000_000.0) == "1.33" by { TwoDecimals(1.326, 133, "33"); }
    assert Fixed2(1_330_000_000.0 / 1.3 / 1_000_000_000.0) == "1.02" by {
      TwoDecimals(1_330_000_000.0 / 1.3 / 1_000_000_000.0, 102, "02");
    }
    TrimsNothing();
  }

  lemma TwoDecimals(x: real, cents: nat, decimals: string)
    requires 0.0 <= x && HalfEven(x * 100.0) == cents && 100 <= cents < 200
    requires decimals == [DigitChar(cents / 10 % 10), DigitChar(cents % 10)]
    ensures Fixed2(x) == "1." + decimals
  {
    assert Digits(1) == "1";
  }

  lemma TrimsNothing()
    ensures TrimNumeral("1.33") == "1.33" && TrimNumeral("1.02") == "1.02"
  {}

  /** The allocation before printing, after one run with the given allocation. */
  lemma NarrowStep(granted: int, next: real)
    requires (granted, next) in {(1_020_000_000, 1_326_000_000.0), (1_330_000_000, 1_330_000_000.0 / 1.3)}
    ensures Chosen(Cpu, NARROW, NARROW_PROFILE, [RunOf(Cpu, granted, 817_000_000)]) == FormatCPU(next)
  {
    hide FormatCPU, Average, ParseCPUToNano, ParseCPUs;
    NarrowNumerals();
    var h := [RunOf(Cpu, granted, 817_000_000)];
    var s := Samples(Cpu, h);
    assert s == [Sample(granted, 817_000_000)];
    SingleAverage(s);
    ChosenFull(Cpu, NARROW, NARROW_PROFILE, h);
  }
}
