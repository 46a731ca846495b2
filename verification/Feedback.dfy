/**
 The closed loop of one resource of one job: an allocation is granted, used and recorded, and its record drives the
 next allocation. Convergence under sustained load and under sustained idleness, with the rounding of printing.
 */
module Feedback {
  import opened Decimal
  import opened Quantities
  import opened Configuration
  import opened MetricsStore
  import opened Adjustment

  // ----- Rounds -----

  /** One resource of a job: how it is adjusted, and between which bounds. */
  datatype Lane = Lane(resource: Resource, a: Adjuster, floor: real, ceiling: real) {

    /** By how much one step up from the floor raises it. */
    function FirstStep(): real {
      floor * (a.scaleFactor - 1.0)
    }

    /**
     The setting in which the loop can move: printable bounds in order, and one step up from the floor worth at least
     one printable unit.
     */
    predicate Movable() {
      a.Valid() && 0.0 < floor <= ceiling && OnGrid(resource, floor) && OnGrid(resource, ceiling)
      && Unit(resource) <= FirstStep()
    }

    /** An allocation the loop can have made. */
    predicate Possible(x: real) {
      floor <= x <= ceiling && OnGrid(resource, x)
    }

    /** What the next run is granted after runs `s`, newest first: the floor until the window is full. */
    function Grant(s: seq<Sample>): int
      requires a.Valid()
    {
      if |s| < a.historyWindow then Trunc(floor)
      else Trunc(Snap(resource, Next(a, floor, ceiling, s[..a.historyWindow])))
    }

    /** The whole units in one step up from the floor. */
    function Rise(): real {
      FromUnits(resource, InUnits(resource, FirstStep()).Floor)
    }

    function Span(): real {
      ceiling - floor
    }

    /** What rounding down makes of steps up in the long run: allocations grow by the factor above this amount. */
    function UpDrift(): real
      requires a.scaleFactor != 1.0
    {
      RiseDrift(a.scaleFactor, Slack(resource))
    }

    /** What rounding up makes of steps down: allocations shrink by the factor towards this amount. */
    function DownDrift(): real
      requires a.scaleFactor != 1.0
    {
      FallDrift(a.scaleFactor, Gain(resource))
    }

    /** The newest allocation; the floor before any run. */
    function Newest(s: seq<Sample>): real {
      if s == [] then floor else s[0].granted as real
    }

    /** Runs needed before a window holds only new runs and the `known` ones recorded last before them. */
    function Warmup(known: nat): nat {
      if known < a.historyWindow then a.historyWindow - known else 0
    }
  }

  /** The runs after further runs that used the amounts `used`, one after the other, newest first. */
  function Rounds(l: Lane, s: seq<Sample>, used: seq<int>): (r: seq<Sample>)
    requires l.a.Valid()
    ensures |r| == |s| + |used|
  {
    if used == [] then s
    else
      var before := Rounds(l, s, used[..|used| - 1]);
      [Sample(l.Grant(before), used[|used| - 1])] + before
  }

  /** The i-th newest run was granted from a history that had all but at most `lag` of the runs recorded before it. */
  ghost predicate GrantedAt(l: Lane, s: seq<Sample>, all: seq<Sample>, i: nat, lag: nat)
    requires l.a.Valid() && i < |all|
  {
    exists k :: i < k <= i + 1 + lag && k <= |all| - |s| && all[i].granted == l.Grant(all[k..])
  }

  /**
   Runs recorded after `s`, newest first. Runs of a job may overlap: a run that is recorded now was granted when up to
   `lag` of the runs recorded before it were not yet there.
   */
  ghost predicate Grown(l: Lane, s: seq<Sample>, all: seq<Sample>, lag: nat)
    requires l.a.Valid()
  {
    && |s| <= |all| && all[|all| - |s|..] == s
    && forall i: nat | i < |all| - |s| :: GrantedAt(l, s, all, i, lag)
  }

  lemma GrownEarlier(l: Lane, s: seq<Sample>, all: seq<Sample>, lag: nat, k: nat)
    requires l.a.Valid() && Grown(l, s, all, lag) && k <= |all| - |s|
    ensures Grown(l, s, all[k..], lag)
  {
    hide Lane.Grant;
    var part := all[k..];
    forall i: nat | i < |part| - |s| ensures GrantedAt(l, s, part, i, lag) {
      assert GrantedAt(l, s, all, k + i, lag);
      var j :| k + i < j <= k + i + 1 + lag && j <= |all| - |s| && all[k + i].granted == l.Grant(all[j..]);
      assert part[j - k..] == all[j..];
    }
  }

  /** One run after the other: nothing is missing from the history. */
  lemma {:induction false} RoundsGrow(l: Lane, s: seq<Sample>, used: seq<int>)
    requires l.a.Valid()
    ensures Grown(l, s, Rounds(l, s, used), 0)
  {
    hide Lane.Grant;
    if used != [] {
      var before, all := Rounds(l, s, used[..|used| - 1]), Rounds(l, s, used);
      RoundsGrow(l, s, used[..|used| - 1]);
      assert all[1..] == before;
      forall i: nat | i < |all| - |s| ensures GrantedAt(l, s, all, i, 0) {
        if i != 0 {
          assert GrantedAt(l, s, before, i - 1, 0);
          assert all[i + 1..] == before[i..];
        }
      }
    }
  }

  // ----- The program's allocations are the lane's grants -----

  function LaneOf(r: Resource, a: Adjuster, p: Profile): Lane {
    Lane(r, a, Baseline(r, p), Ceiling(r, a, p))
  }

  /** The allocation that is chosen from a history, printed and parsed, is what the lane grants. */
  lemma ChosenIsGrant(r: Resource, a: Adjuster, p: Profile, h: seq<MetricsRecord>)
    requires a.Valid()
    ensures Trunc(Parse(r, Chosen(r, a, p, Limit(h, a.historyWindow)))) == LaneOf(r, a, p).Grant(Samples(r, h))
  {
    hide Parse, Format, Ceiling, Next, Snap, Chosen;
    var window := Limit(h, a.historyWindow);
    if |h| < a.historyWindow {
      ShortHistory(r, a, p, window);
    } else {
      assert Samples(r, window) == Samples(r, h)[..a.historyWindow];
      ChosenFull(r, a, p, window);
      FormatParse(r, Next(a, Baseline(r, p), Ceiling(r, a, p), Samples(r, window)));
    }
  }

  // ----- Arithmetic -----

  function Min(x: real, y: real): real {
    if x < y then x else y
  }

  function Max(x: real, y: real): real {
    if x < y then y else x
  }

  function Power(x: real, n: nat): real {
    if n == 0 then 1.0 else x * Power(x, n - 1)
  }

  /** Where multiplying by `f` and losing `e` stands still. */
  function RiseDrift(f: real, e: real): real
    requires f != 1.0
  {
    e / (f - 1.0)
  }

  /** Where dividing by `f` and gaining `e` stands still. */
  function FallDrift(f: real, e: real): real
    requires f != 1.0
  {
    e * f / (f - 1.0)
  }

  /** Above the drift, a step up that loses `e` still multiplies. */
  lemma RiseAboveDrift(f: real, e: real, x: real, y: real)
    requires 1.0 < f && x * f - e <= y
    ensures var d := RiseDrift(f, e); (x - d) * f <= y - d
  {
    var d := RiseDrift(f, e);
    assert d * (f - 1.0) == e;
    assert (x - d) * f == x * f - d * (f - 1.0) - d;
  }

  /** Above the drift, a step down that gains `e` still divides. */
  lemma FallAboveDrift(f: real, e: real, x: real, y: real)
    requires 1.0 < f && y <= x / f + e
    ensures var c := FallDrift(f, e); y - c <= (x - c) / f
  {
    var c, q := FallDrift(f, e), x / f;
    assert c * (f - 1.0) == e * f;
    assert q * f == x;
    var gap := q + e - y;
    assert 0.0 <= gap * f;
    assert gap * f == x + e * f - y * f;
    QuotientAtLeast(x - c, f, y - c);
  }

  lemma QuotientAtLeast(x: real, f: real, y: real)
    requires 0.0 < f
    ensures y * f <= x ==> y <= x / f
  {
    var q := x / f;
    assert q * f == x;
    if y * f <= x {
      assert 0.0 <= (q - y) * f;
      NonnegativeFactor(q - y, f);
    }
  }

  lemma AtLeastSelf(x: real, f: real)
    requires 0.0 <= x && 1.0 <= f
    ensures x <= f * x && x <= x * f
  {
    var more := f - 1.0;
    assert 0.0 <= more * x;
  }

  /** An amount multiplied `k` times. */
  function Scale(g: real, x: real, k: nat): real {
    x * Power(g, k)
  }

  lemma ScaleNone(g: real, x: real)
    ensures Scale(g, x, 0) == x
  {}

  lemma {:induction false} ScaleNext(g: real, x: real, k: nat)
    requires 1.0 <= g && 0.0 < x
    ensures Scale(g, x, k + 1) == Scale(g, x, k) * g
    ensures 0.0 < x <= Scale(g, x, k) <= Scale(g, x, k + 1)
  {
    if k != 0 {
      ScaleNext(g, x, k - 1);
    }
    var p := Power(g, k);
    assert Power(g, k + 1) == g * p;
    AtLeastSelf(x * p, g);
  }

  lemma ScaleOrder(g: real, x: real, y: real, k: nat)
    requires 1.0 <= g && x <= y
    ensures Scale(g, x, k) <= Scale(g, y, k) && (x < y ==> Scale(g, x, k) < Scale(g, y, k))
  {
    PowerPositive(g, k);
    MultiplyMonotone(x, y, Power(g, k));
  }

  /** Dividing once more makes up for multiplying once more. */
  lemma ScaleLess(g: real, k: nat, x: real, y: real)
    requires 1.0 <= g && y <= x / g
    ensures Scale(g, y, k + 1) <= Scale(g, x, k)
  {
    var q, p := x / g, Power(g, k);
    PowerPositive(g, k);
    assert q * g == x;
    MultiplyMonotone(y, q, g);
    MultiplyMonotone(y * g, x, p);
    assert y * (g * p) == y * g * p;
  }

  lemma {:induction false} PowerPositive(g: real, n: nat)
    requires 0.0 < g
    ensures 0.0 < Power(g, n)
  {
    if n != 0 {
      PowerPositive(g, n - 1);
    }
  }

  /** Multiplying once more what is at least so often multiplied. */
  lemma ScaleMore(g: real, b: real, k: nat, x: real)
    requires 1.0 <= g && Scale(g, b, k) <= x
    ensures Scale(g, b, k + 1) <= x * g
  {
    var p := b * Power(g, k);
    assert b * (g * Power(g, k)) == p * g;
    MultiplyMonotone(p, x, g);
  }

  function Times(n: nat, x: real): real {
    n as real * x
  }

  lemma TimesZero(x: real)
    ensures Times(0, x) == 0.0
  {}

  lemma TimesNext(n: nat, x: real)
    ensures Times(n + 1, x) == Times(n, x) + x
  {
    OneMoreTimes(n, x);
  }

  /** Enough moves of `rise` to cover a distance. */
  function MovesToCover(distance: real, rise: real): int
    requires 0.0 < rise
  {
    (distance / rise).Floor + 1
  }

  lemma EnoughRounds(distance: real, rise: real, n: int)
    requires 0.0 < rise && MovesToCover(distance, rise) <= n
    ensures 0 <= n ==> distance <= Times(n, rise)
  {
    var q := distance / rise;
    assert q * rise == distance;
    assert q <= n as real;
    var more := n as real - q;
    assert 0.0 <= more * rise;
    assert more * rise == n as real * rise - q * rise;
  }

  lemma NonnegativeQuotient(x: real, n: real)
    requires 0.0 <= x && 0.0 < n
    ensures 0.0 <= x / n
  {}

  lemma NonnegativeFactor(x: real, f: real)
    requires 0.0 < f && 0.0 <= x * f
    ensures 0.0 <= x
  {}

  // ----- The grid -----

  lemma GridSum(r: Resource, x: real, y: real)
    requires OnGrid(r, x) && OnGrid(r, y)
    ensures OnGrid(r, x + y) && OnGrid(r, x - y)
    ensures x < y ==> x + Unit(r) <= y
  {
    var m, n := Trunc(InUnits(r, x)), Trunc(InUnits(r, y));
    TruncInt(m + n);
    TruncInt(m - n);
    assert InUnits(r, x + y) == (m + n) as real;
    assert InUnits(r, x - y) == (m - n) as real;
  }

  lemma UnitOnGrid(r: Resource)
    ensures OnGrid(r, Unit(r)) && 0.0 < Unit(r)
  {
    UnitsOf(r, 1);
  }

  lemma WholeUnits(r: Resource, x: real)
    requires Unit(r) <= x
    ensures var w := FromUnits(r, InUnits(r, x).Floor); OnGrid(r, w) && Unit(r) <= w <= x
  {
    UnitsOf(r, InUnits(r, x).Floor);
  }

  lemma RiseIsPositive(l: Lane)
    requires l.Movable()
    ensures OnGrid(l.resource, l.Rise()) && 0.0 < Unit(l.resource) <= l.Rise() <= l.FirstStep()
  {
    hide OnGrid, InUnits, FromUnits, Unit, Lane.FirstStep;
    UnitOnGrid(l.resource);
    WholeUnits(l.resource, l.FirstStep());
  }

  /** Snapping stays between printable bounds. */
  lemma SnapBetween(r: Resource, low: real, x: real, high: real)
    requires low <= x <= high && OnGrid(r, low) && OnGrid(r, high)
    ensures low <= Snap(r, x) <= high && OnGrid(r, Snap(r, x))
  {
    hide Snap, OnGrid;
    SnapMonotone(r, low, x);
    SnapMonotone(r, x, high);
    SnapOnGrid(r, low);
    SnapOnGrid(r, high);
    SnapOnGrid(r, x);
  }

  // ----- One round -----

  lemma GrantValue(l: Lane, s: seq<Sample>)
    requires l.Movable()
    ensures |s| < l.a.historyWindow ==> l.Grant(s) as real == l.floor
    ensures l.a.historyWindow <= |s| ==>
              l.Grant(s) as real == Snap(l.resource, Next(l.a, l.floor, l.ceiling, s[..l.a.historyWindow]))
  {
    hide Snap, Next, OnGrid;
    SnapOnGrid(l.resource, l.floor);
    if l.a.historyWindow <= |s| {
      SnapOnGrid(l.resource, Next(l.a, l.floor, l.ceiling, s[..l.a.historyWindow]));
    }
  }

  function Multiplied(a: Adjuster, x: real): real {
    x * a.scaleFactor
  }

  function Divided(a: Adjuster, x: real): real
    requires a.scaleFactor != 0.0
  {
    x / a.scaleFactor
  }

  lemma NextUp(a: Adjuster, floor: real, ceiling: real, s: seq<Sample>)
    requires a.Valid() && s != [] && AllAbove(s, a.scaleUpThreshold) && 0.0 <= floor <= Last(s, floor)
    ensures var up := Multiplied(a, Last(s, floor));
            Last(s, floor) <= up && Next(a, floor, ceiling, s) == Min(ceiling, up)
  {
    hide Average, AllAbove, Last;
    AverageBounds(s, a.scaleUpThreshold);
    StepDirection(a, Last(s, floor));
  }

  lemma NextDown(a: Adjuster, floor: real, ceiling: real, s: seq<Sample>)
    requires a.Valid() && s != [] && AllBelow(s, a.scaleDownThreshold) && 0.0 <= floor <= Last(s, floor) <= ceiling
    ensures var down := Divided(a, Last(s, floor));
            down <= Last(s, floor) && Next(a, floor, ceiling, s) == Max(floor, down)
  {
    hide Average, AllBelow, Last;
    AverageBounds(s, a.scaleDownThreshold);
    StepDirection(a, Last(s, floor));
  }

  /** Above the threshold throughout the window, a round is a printed step up. */
  lemma HotStep(l: Lane, s: seq<Sample>)
    requires l.Movable() && l.a.historyWindow <= |s|
    requires AllAbove(s[..l.a.historyWindow], l.a.scaleUpThreshold) && l.Possible(l.Newest(s))
    ensures l.Grant(s) as real == Snap(l.resource, Min(l.ceiling, Multiplied(l.a, l.Newest(s))))
  {
    hide Snap, OnGrid, Lane.FirstStep, Lane.Grant, Next, AllAbove, Multiplied;
    GrantValue(l, s);
    assert Last(s[..l.a.historyWindow], l.floor) == l.Newest(s);
    NextUp(l.a, l.floor, l.ceiling, s[..l.a.historyWindow]);
  }

  /** Such a round climbs by the rise, and by the factor above the drift, or reaches the ceiling. */
  lemma HotRound(l: Lane, s: seq<Sample>)
    requires l.Movable() && l.a.historyWindow <= |s|
    requires AllAbove(s[..l.a.historyWindow], l.a.scaleUpThreshold) && l.Possible(l.Newest(s))
    ensures var x := l.Grant(s) as real;
            && l.Possible(x) && Min(l.ceiling, l.Newest(s) + l.Rise()) <= x
            && (l.ceiling <= x || Multiplied(l.a, l.Newest(s) - l.UpDrift()) <= x - l.UpDrift())
  {
    hide Snap, OnGrid, Lane.Rise, Lane.FirstStep, Lane.Grant, Lane.Newest, AllAbove, Lane.UpDrift, Multiplied;
    HotStep(l, s);
    SnapAboveRise(l, l.Newest(s));
    SnapAboveDrift(l, l.Newest(s));
  }

  lemma SnapAboveRise(l: Lane, last: real)
    requires l.Movable() && l.Possible(last)
    ensures var x := Snap(l.resource, Min(l.ceiling, Multiplied(l.a, last)));
            l.Possible(x) && Min(l.ceiling, last + l.Rise()) <= x
  {
    hide Snap, OnGrid, Lane.Rise, Lane.FirstStep, Multiplied;
    StepUp(l, last);
    RiseIsPositive(l);
    GridSum(l.resource, last, l.Rise());
    SnapBetween(l.resource, Min(l.ceiling, last + l.Rise()), Min(l.ceiling, Multiplied(l.a, last)), l.ceiling);
  }

  lemma SnapAboveDrift(l: Lane, last: real)
    requires l.Movable() && l.Possible(last)
    ensures var x := Snap(l.resource, Min(l.ceiling, Multiplied(l.a, last)));
            l.ceiling <= x || Multiplied(l.a, last - l.UpDrift()) <= x - l.UpDrift()
  {
    hide Snap, OnGrid, Slack, Lane.FirstStep, RiseDrift;
    SnapNear(l.resource, Multiplied(l.a, last));
    SnapOnGrid(l.resource, l.ceiling);
    if Multiplied(l.a, last) < l.ceiling {
      RiseAboveDrift(l.a.scaleFactor, Slack(l.resource), last, Snap(l.resource, Multiplied(l.a, last)));
    }
  }

  lemma SnapBelowDrift(l: Lane, last: real)
    requires l.Movable() && l.Possible(last)
    ensures var x := Snap(l.resource, Max(l.floor, Divided(l.a, last)));
            x <= l.floor || x - l.DownDrift() <= Divided(l.a, last - l.DownDrift())
  {
    hide Snap, OnGrid, Gain, Lane.FirstStep, FallDrift;
    SnapNear(l.resource, Divided(l.a, last));
    SnapOnGrid(l.resource, l.floor);
    if l.floor < Divided(l.a, last) {
      FallAboveDrift(l.a.scaleFactor, Gain(l.resource), last, Snap(l.resource, Divided(l.a, last)));
    }
  }

  /** Where the loop can move, both drifts are below the floor. */
  lemma DriftsBelowFloor(l: Lane)
    requires l.Movable()
    ensures 0.0 <= l.UpDrift() <= l.floor && 0.0 <= l.DownDrift() <= l.floor
  {
    var f, floor := l.a.scaleFactor, l.floor;
    var more := f - 1.0;
    UnitBelowFloor(l);
    DividesBelow(Slack(l.resource), more, floor);
    if f <= 2.0 {
      assert Gain(l.resource) * f <= Unit(l.resource);
    } else {
      MultiplyMonotone(Unit(l.resource), floor, more);
      assert Gain(l.resource) * f <= Unit(l.resource) * more;
    }
    DividesBelow(Gain(l.resource) * f, more, floor);
  }

  lemma UnitBelowFloor(l: Lane)
    requires l.Movable()
    ensures Unit(l.resource) <= l.floor
  {
    hide Lane.FirstStep;
    ZeroOnGrid(l.resource);
    GridSum(l.resource, 0.0, l.floor);
  }

  lemma ZeroOnGrid(r: Resource)
    ensures OnGrid(r, 0.0)
  {}

  lemma DividesBelow(x: real, n: real, y: real)
    requires 0.0 <= x <= y * n && 0.0 < n
    ensures 0.0 <= x / n <= y
  {
    var q := x / n;
    assert q * n == x;
    NonnegativeFactor(q, n);
    assert 0.0 <= (y - q) * n;
    NonnegativeFactor(y - q, n);
  }

  lemma StepUp(l: Lane, last: real)
    requires 1.0 < l.a.scaleFactor && l.floor <= last
    ensures last + l.FirstStep() <= Multiplied(l.a, last)
  {
    var f, floor, more := l.a.scaleFactor, l.floor, last - l.floor;
    assert 0.0 <= more * (f - 1.0);
    assert more * (f - 1.0) == last * (f - 1.0) - floor * (f - 1.0);
  }

  /** Every overloaded round with a full window raises an allocation below the ceiling, and keeps the ceiling. */
  lemma OverloadRaises(l: Lane, s: seq<Sample>)
    requires l.Movable() && l.a.historyWindow <= |s|
    requires AllAbove(s[..l.a.historyWindow], l.a.scaleUpThreshold) && l.Possible(l.Newest(s))
    ensures var x := l.Grant(s) as real;
            if l.Newest(s) < l.ceiling then l.Newest(s) < x <= l.ceiling else x == l.ceiling
  {
    hide OnGrid, Lane.Rise, Lane.FirstStep, Lane.Grant, Lane.Newest, Lane.UpDrift, Multiplied;
    HotRound(l, s);
    RiseIsPositive(l);
  }

  /** Below the lower threshold throughout the window, a round is a printed step down. */
  lemma ColdStep(l: Lane, s: seq<Sample>)
    requires l.Movable() && l.a.historyWindow <= |s|
    requires AllBelow(s[..l.a.historyWindow], l.a.scaleDownThreshold) && l.Possible(l.Newest(s))
    ensures l.Grant(s) as real == Snap(l.resource, Max(l.floor, Divided(l.a, l.Newest(s))))
  {
    hide Snap, OnGrid, Lane.FirstStep, Lane.Grant, Next, AllBelow, Divided;
    GrantValue(l, s);
    assert Last(s[..l.a.historyWindow], l.floor) == l.Newest(s);
    NextDown(l.a, l.floor, l.ceiling, s[..l.a.historyWindow]);
  }

  /** Such a round descends by a unit, and by the factor above the drift, or reaches the floor. */
  lemma ColdRound(l: Lane, s: seq<Sample>)
    requires l.Movable() && l.a.historyWindow <= |s|
    requires AllBelow(s[..l.a.historyWindow], l.a.scaleDownThreshold) && l.Possible(l.Newest(s))
    ensures var x := l.Grant(s) as real;
            && l.Possible(x) && x <= Max(l.floor, l.Newest(s) - Unit(l.resource))
            && (x <= l.floor || x - l.DownDrift() <= Divided(l.a, l.Newest(s) - l.DownDrift()))
  {
    hide Snap, OnGrid, Lane.FirstStep, Lane.Grant, Lane.Newest, AllBelow, Unit, Lane.DownDrift, Divided;
    ColdStep(l, s);
    SnapBelowUnit(l, l.Newest(s));
    SnapBelowDrift(l, l.Newest(s));
  }

  lemma SnapBelowUnit(l: Lane, last: real)
    requires l.Movable() && l.Possible(last)
    ensures var x := Snap(l.resource, Max(l.floor, Divided(l.a, last)));
            l.Possible(x) && x <= Max(l.floor, last - Unit(l.resource))
  {
    hide Snap, OnGrid, Lane.FirstStep, Unit, Divided;
    UnitOnGrid(l.resource);
    DividedBelow(l.a, last);
    if l.floor < last {
      GridSum(l.resource, l.floor, last);
      StepDown(l, last);
      GridSum(l.resource, last, Unit(l.resource));
    }
    SnapBetween(l.resource, l.floor, Max(l.floor, Divided(l.a, last)), Max(l.floor, last - Unit(l.resource)));
  }

  lemma DividedBelow(a: Adjuster, x: real)
    requires a.Valid() && 0.0 <= x
    ensures Divided(a, x) <= x
  {
    StepDirection(a, x);
  }

  lemma StepDown(l: Lane, last: real)
    requires 1.0 < l.a.scaleFactor && Unit(l.resource) <= l.FirstStep() && l.floor + Unit(l.resource) <= last
    ensures Divided(l.a, last) <= last - Unit(l.resource)
  {
    hide Unit;
    var f, u, floor := l.a.scaleFactor, Unit(l.resource), l.floor;
    var more := last - (floor + u);
    assert 0.0 <= more * (f - 1.0);
    assert more * (f - 1.0) == last * (f - 1.0) - floor * (f - 1.0) - u * (f - 1.0);
    var q := last / f;
    assert q * f == last;
    var gap := last - u - q;
    assert 0.0 <= gap * f;
    assert 0.0 <= gap by { NonnegativeFactor(gap, f); }
  }

  // ----- Sustained load -----

  /** `n` divided by one more than the lag: so many of `n` runs each see the effect of the one before. */
  function Generations(n: nat, lag: nat): nat {
    if n <= lag then 0 else 1 + Generations(n - lag - 1, lag)
  }

  lemma {:induction false} GenerationsOrder(n: nat, m: nat, lag: nat)
    requires n <= m
    ensures Generations(n, lag) <= Generations(m, lag)
  {
    if lag < n {
      GenerationsOrder(n - lag - 1, m - lag - 1, lag);
    }
  }

  lemma GenerationsOneMore(n: nat, k: nat, lag: nat)
    requires n <= k + 1 + lag
    ensures Generations(n, lag) <= Generations(k, lag) + 1
  {
    if lag < n {
      GenerationsOrder(n - lag - 1, k, lag);
    }
  }

  /** Of `n` recorded runs, how many move the allocation for certain: those past the warm-up count. */
  function Moves(l: Lane, known: nat, n: nat, lag: nat): nat {
    if n < l.Warmup(known) then 0 else Generations(n - l.Warmup(known), lag)
  }

  lemma MovesOneMore(l: Lane, known: nat, n: nat, k: nat, lag: nat)
    requires n <= k + 1 + lag
    ensures k + known < l.a.historyWindow ==> Moves(l, known, n, lag) == 0
    ensures Moves(l, known, n, lag) <= Moves(l, known, k, lag) + 1
  {
    var w := l.Warmup(known);
    if w <= n && w <= k {
      GenerationsOneMore(n - w, k - w, lag);
    }
  }

  lemma NoMoves(l: Lane, known: nat, lag: nat)
    ensures Moves(l, known, 0, lag) == 0
  {}

  /** The runs recorded after `s`, and the `known` ones recorded last before them. */
  function Recent(s: seq<Sample>, all: seq<Sample>, known: nat): seq<Sample> {
    if known <= |s| <= |all| then all[..|all| - |s| + known] else all
  }

  lemma RecentEarlier(s: seq<Sample>, all: seq<Sample>, known: nat, k: nat, w: nat)
    requires known <= |s| <= |all| && k <= |all| - |s|
    ensures forall x | x in Recent(s, all[k..], known) :: x in Recent(s, all, known)
    ensures w <= |all| - |s| + known ==> forall x | x in all[..w] :: x in Recent(s, all, known)
  {
    assert Recent(s, all[k..], known) == Recent(s, all, known)[k..];
    if w <= |all| - |s| + known {
      assert all[..w] == Recent(s, all, known)[..w];
    }
  }

  /** What all recent runs are, those of an earlier history are, and those of a window of new and known runs. */
  lemma RecentAlike(l: Lane, s: seq<Sample>, all: seq<Sample>, known: nat, k: nat)
    requires known <= |s| <= |all| && k <= |all| - |s| && 0 < l.a.historyWindow
    ensures AllAbove(Recent(s, all, known), l.a.scaleUpThreshold) ==>
              AllAbove(Recent(s, all[k..], known), l.a.scaleUpThreshold)
              && (l.a.historyWindow <= |all| - k - |s| + known ==>
                    AllAbove(all[k..][..l.a.historyWindow], l.a.scaleUpThreshold))
    ensures AllBelow(Recent(s, all, known), l.a.scaleDownThreshold) ==>
              AllBelow(Recent(s, all[k..], known), l.a.scaleDownThreshold)
              && (l.a.historyWindow <= |all| - k - |s| + known ==>
                    AllBelow(all[k..][..l.a.historyWindow], l.a.scaleDownThreshold))
  {
    hide Recent, Utilisation;
    RecentEarlier(s, all, known, k, 0);
    RecentEarlier(s, all[k..], known, 0, l.a.historyWindow);
    assert all[k..][0..] == all[k..];
  }

  /** Whatever the history, what is granted is a possible allocation. */
  lemma GrantPossible(l: Lane, s: seq<Sample>)
    requires l.Movable()
    ensures l.Possible(l.Grant(s) as real)
  {
    hide Snap, OnGrid, Lane.FirstStep, Lane.Grant, Step, Average;
    GrantValue(l, s);
    if l.a.historyWindow <= |s| {
      SnapBetween(l.resource, l.floor, Next(l.a, l.floor, l.ceiling, s[..l.a.historyWindow]), l.ceiling);
    }
  }

  /** Where the moves start: from the newest allocation, unless runs that are not known about may still change it. */
  predicate Settled(l: Lane, s: seq<Sample>, known: nat) {
    known < l.a.historyWindow || l.Possible(l.Newest(s))
  }

  /** The floor raised by the rise `k` times. */
  function Raise(l: Lane, k: nat): real {
    l.floor + Times(k, l.Rise())
  }

  lemma RaiseNext(l: Lane, k: nat)
    requires l.Movable()
    ensures Raise(l, 0) == l.floor && Raise(l, k) < Raise(l, k + 1) == Raise(l, k) + l.Rise()
  {
    hide Lane.Rise, OnGrid, Lane.FirstStep;
    RiseIsPositive(l);
    TimesZero(l.Rise());
    TimesNext(k, l.Rise());
  }

  /** What `k` climbs make of the floor by the factor: the first gains the rise, the others multiply above the drift. */
  function Climb(l: Lane, k: nat): real
    requires l.a.scaleFactor != 1.0
  {
    if k == 0 then l.floor
    else l.UpDrift() + Scale(l.a.scaleFactor, l.floor + l.Rise() - l.UpDrift(), k - 1)
  }

  lemma ClimbNext(l: Lane, k: nat)
    requires l.Movable()
    ensures Climb(l, 0) == l.floor && Climb(l, 1) == l.floor + l.Rise() && Climb(l, k) <= Climb(l, k + 1)
  {
    hide Lane.Rise, Lane.UpDrift, OnGrid, Lane.FirstStep, Scale;
    DriftsBelowFloor(l);
    RiseIsPositive(l);
    var f, b := l.a.scaleFactor, l.floor + l.Rise() - l.UpDrift();
    ScaleNone(f, b);
    if k != 0 {
      ScaleNext(f, b, k - 1);
    }
  }

  /** At least what `k` climbs make of the floor. */
  predicate Climbed(l: Lane, k: nat, x: real)
    requires l.a.scaleFactor != 1.0
  {
    Min(l.ceiling, Raise(l, k)) <= x && Min(l.ceiling, Climb(l, k)) <= x
  }

  lemma ClimbedNone(l: Lane, x: real)
    requires l.Movable() && l.floor <= x
    ensures Climbed(l, 0, x)
  {
    hide Lane.Rise, OnGrid, Lane.FirstStep, Raise, Climb;
    RaiseNext(l, 0);
    ClimbNext(l, 0);
  }

  lemma ClimbedMore(l: Lane, k: nat, x: real, y: real)
    requires l.Movable() && Climbed(l, k, x) && l.Possible(x) && Min(l.ceiling, x + l.Rise()) <= y
    requires l.ceiling <= y || Multiplied(l.a, x - l.UpDrift()) <= y - l.UpDrift()
    ensures Climbed(l, k + 1, y)
  {
    hide Lane.Rise, OnGrid, Lane.FirstStep, Raise, Scale, Lane.UpDrift, Climb, Multiplied;
    RaiseNext(l, k);
    ClimbNext(l, k);
    if k != 0 && x < l.ceiling && y < l.ceiling {
      ClimbMore(l, k, x);
    }
    RiseIsPositive(l);
  }

  lemma ClimbMore(l: Lane, k: nat, x: real)
    requires l.Movable() && 0 < k && Climb(l, k) <= x
    ensures Climb(l, k + 1) <= l.UpDrift() + Multiplied(l.a, x - l.UpDrift())
  {
    hide Lane.Rise, OnGrid, Lane.FirstStep, Scale, Lane.UpDrift;
    ScaleMore(l.a.scaleFactor, l.floor + l.Rise() - l.UpDrift(), k - 1, x - l.UpDrift());
  }

  lemma {:induction false} ClimbedFewer(l: Lane, j: nat, k: nat, x: real)
    requires l.Movable() && j <= k && Climbed(l, k, x)
    ensures Climbed(l, j, x)
    decreases k - j
  {
    if j < k {
      hide Lane.Rise, OnGrid, Lane.FirstStep, Raise, Climb;
      RaiseNext(l, k - 1);
      ClimbNext(l, k - 1);
      ClimbedFewer(l, j, k - 1, x);
    }
  }

  /** The newest allocation has climbed as often as the runs recorded after `s` count; before any, nothing is said. */
  predicate ClimbedTo(l: Lane, s: seq<Sample>, all: seq<Sample>, known: nat, lag: nat)
    requires l.a.scaleFactor != 1.0 && |s| <= |all|
  {
    |s| < |all| || l.Possible(l.Newest(s)) ==>
      l.Possible(l.Newest(all)) && Climbed(l, Moves(l, known, |all| - |s|, lag), l.Newest(all))
  }

  /** A run granted from `before`, recorded when there are `n` runs after `s`. */
  lemma ClimbOnce(l: Lane, s: seq<Sample>, before: seq<Sample>, known: nat, n: nat, lag: nat)
    requires l.Movable() && known <= |s| <= |before| && n <= |before| - |s| + 1 + lag && Settled(l, s, known)
    requires l.a.historyWindow <= |before| - |s| + known ==>
               AllAbove(before[..l.a.historyWindow], l.a.scaleUpThreshold)
    requires before == s || |s| < |before|
    requires ClimbedTo(l, s, before, known, lag)
    ensures var x := l.Grant(before) as real; l.Possible(x) && Climbed(l, Moves(l, known, n, lag), x)
  {
    hide OnGrid, Lane.Rise, Lane.FirstStep, Lane.Grant, AllAbove, Lane.UpDrift, Climbed, Moves, Multiplied;
    var k := |before| - |s|;
    MovesOneMore(l, known, n, k, lag);
    GrantPossible(l, before);
    if l.a.historyWindow <= k + known {
      HotRound(l, before);
      ClimbedMore(l, Moves(l, known, k, lag), l.Newest(before), l.Grant(before) as real);
      ClimbedFewer(l, Moves(l, known, n, lag), Moves(l, known, k, lag) + 1, l.Grant(before) as real);
    } else {
      ClimbedNone(l, l.Grant(before) as real);
    }
  }

  /** The history from which the newest run was granted. */
  lemma GrantedFrom(l: Lane, s: seq<Sample>, all: seq<Sample>, lag: nat) returns (k: nat)
    requires l.a.Valid() && Grown(l, s, all, lag) && |s| < |all|
    ensures 0 < k <= 1 + lag && k <= |all| - |s| && all[0].granted == l.Grant(all[k..])
    ensures Grown(l, s, all[k..], lag) && (|all[k..]| == |s| ==> all[k..] == s)
  {
    hide Lane.Grant;
    assert GrantedAt(l, s, all, 0, lag);
    k :| 0 < k <= 1 + lag && k <= |all| - |s| && all[0].granted == l.Grant(all[k..]);
    GrownEarlier(l, s, all, lag, k);
  }

  lemma GrownSize(l: Lane, s: seq<Sample>, all: seq<Sample>, lag: nat)
    requires l.a.Valid() && Grown(l, s, all, lag)
    ensures |s| <= |all| && (|s| == |all| ==> all == s)
  {}

  /** Under sustained overload each counted run climbs by at least the rise, and by the factor above the drift. */
  lemma {:induction false} OverloadClimbs(l: Lane, s: seq<Sample>, all: seq<Sample>, known: nat, lag: nat)
    requires l.Movable() && known <= |s| && Settled(l, s, known) && Grown(l, s, all, lag)
    requires AllAbove(Recent(s, all, known), l.a.scaleUpThreshold)
    ensures |s| <= |all| && ClimbedTo(l, s, all, known, lag)
    decreases |all|
  {
    hide OnGrid, Lane.Rise, Lane.FirstStep, Lane.Grant, AllAbove, Climbed, Moves, Recent, Grown, Settled,
      Lane.Possible;
    GrownSize(l, s, all, lag);
    if |all| == |s| {
      NoMoves(l, known, lag);
      if l.Possible(l.Newest(s)) {
        PossibleBounds(l, l.Newest(s));
        ClimbedNone(l, l.Newest(all));
      }
    } else {
      var k := GrantedFrom(l, s, all, lag);
      RecentAlike(l, s, all, known, k);
      OverloadClimbs(l, s, all[k..], known, lag);
      ClimbOnce(l, s, all[k..], known, |all| - |s|, lag);
    }
  }

  lemma PossibleBounds(l: Lane, x: real)
    requires l.Possible(x)
    ensures l.floor <= x <= l.ceiling
  {}

  /** How many climbs of the rise suffice to reach the ceiling. */
  function RoundsToCeiling(l: Lane): int
    requires l.Movable()
  {
    RiseIsPositive(l);
    MovesToCover(l.Span(), l.Rise())
  }

  /** So many climbs reach the ceiling: by the rise each, or by the factor. */
  predicate ReachesCeiling(l: Lane, k: nat)
    requires l.Movable()
  {
    RoundsToCeiling(l) <= k || l.ceiling <= Climb(l, k)
  }

  lemma ClimbedOut(l: Lane, k: nat, x: real)
    requires l.Movable() && ReachesCeiling(l, k) && Climbed(l, k, x)
    ensures l.ceiling <= x
  {
    hide OnGrid, Lane.Rise, Lane.FirstStep, Times, MovesToCover, Climb;
    RiseIsPositive(l);
    if RoundsToCeiling(l) <= k {
      EnoughRounds(l.Span(), l.Rise(), k);
    }
  }

  /**
   Sustained overload: the ceiling is reached within an explicit number of recorded runs, and every later run is
   granted the ceiling, whatever was recorded before. The number grows with the logarithm, to the base of the scale
   factor, of the ceiling in printable units. Runs may overlap; a greater lag only takes proportionally more of them.
   The first window of runs only replaces what is not known to be above the threshold.
   */
  lemma OverloadReachesCeiling(l: Lane, s: seq<Sample>, all: seq<Sample>, known: nat, lag: nat)
    requires l.Movable() && known <= |s| && Settled(l, s, known) && Grown(l, s, all, lag)
    requires AllAbove(Recent(s, all, known), l.a.scaleUpThreshold)
    requires l.Warmup(known) <= |all| - |s| && ReachesCeiling(l, Moves(l, known, |all| - |s|, lag))
    ensures l.Newest(all) == l.ceiling && l.Grant(all) as real == l.ceiling
  {
    hide OnGrid, Lane.Rise, Lane.FirstStep, Lane.Grant, Climbed, ReachesCeiling, Moves, Recent;
    OverloadClimbs(l, s, all, known, lag);
    ClimbedOut(l, Moves(l, known, |all| - |s|, lag), l.Newest(all));
    RecentEarlier(s, all, known, 0, l.a.historyWindow);
    OverloadRaises(l, all);
  }

  // ----- Sustained idleness -----

  /** The greatest allocation after `k` descents from `start`. */
  predicate Descended(l: Lane, k: nat, start: real, x: real)
    requires l.a.scaleFactor != 1.0
  {
    && x <= Max(l.floor, start - Times(k, Unit(l.resource)))
    && (x <= l.floor || Scale(l.a.scaleFactor, x - l.DownDrift(), k) <= start - l.DownDrift())
  }

  lemma DescendedNone(l: Lane, start: real, x: real)
    requires l.a.scaleFactor != 1.0 && x <= start
    ensures Descended(l, 0, start, x)
  {
    hide Unit, Lane.DownDrift, Scale;
    TimesZero(Unit(l.resource));
    ScaleNone(l.a.scaleFactor, x - l.DownDrift());
  }

  lemma DescendedFloor(l: Lane, k: nat, start: real)
    requires l.a.scaleFactor != 1.0
    ensures Descended(l, k, start, l.floor)
  {
    hide Unit, Scale, Times, Lane.DownDrift;
  }

  lemma DescendedMore(l: Lane, k: nat, start: real, x: real, y: real)
    requires l.Movable() && Descended(l, k, start, x) && l.Possible(x) && y <= Max(l.floor, x - Unit(l.resource))
    requires y <= l.floor || y - l.DownDrift() <= Divided(l.a, x - l.DownDrift())
    ensures Descended(l, k + 1, start, y)
  {
    hide Unit, OnGrid, Lane.FirstStep, Lane.DownDrift, Times, Scale, Lane.Possible;
    UnitOnGrid(l.resource);
    TimesNext(k, Unit(l.resource));
    if l.floor < y {
      ScaleLess(l.a.scaleFactor, k, x - l.DownDrift(), y - l.DownDrift());
    }
  }

  lemma {:induction false} DescendedFewer(l: Lane, j: nat, k: nat, start: real, x: real)
    requires l.Movable() && j <= k && Descended(l, k, start, x)
    ensures Descended(l, j, start, x)
    decreases k - j
  {
    if j < k {
      hide Unit, OnGrid, Lane.FirstStep, Times, Scale, Lane.UpDrift, Lane.DownDrift;
      UnitOnGrid(l.resource);
      TimesNext(k - 1, Unit(l.resource));
      if l.floor < x {
        DriftsBelowFloor(l);
        ScaleNext(l.a.scaleFactor, x - l.DownDrift(), k - 1);
      }
      DescendedFewer(l, j, k - 1, start, x);
    }
  }

  /** The most an allocation can be before the counted runs. */
  function StartsFrom(l: Lane, s: seq<Sample>, known: nat): real {
    if known == |s| || l.a.historyWindow <= known then l.Newest(s) else l.ceiling
  }

  /** The newest allocation has descended as often as the runs recorded after `s` count; before any, nothing is said. */
  predicate DescendedTo(l: Lane, s: seq<Sample>, all: seq<Sample>, known: nat, lag: nat)
    requires l.a.scaleFactor != 1.0 && |s| <= |all|
  {
    |s| < |all| || l.Possible(l.Newest(s)) ==>
      l.Possible(l.Newest(all))
      && Descended(l, Moves(l, known, |all| - |s|, lag), StartsFrom(l, s, known), l.Newest(all))
  }

  lemma DescendOnce(l: Lane, s: seq<Sample>, before: seq<Sample>, known: nat, n: nat, lag: nat)
    requires l.Movable() && known <= |s| <= |before| && n <= |before| - |s| + 1 + lag && Settled(l, s, known)
    requires l.a.historyWindow <= |before| - |s| + known ==>
               AllBelow(before[..l.a.historyWindow], l.a.scaleDownThreshold)
    requires before == s || |s| < |before|
    requires DescendedTo(l, s, before, known, lag)
    ensures var x := l.Grant(before) as real;
            l.Possible(x) && Descended(l, Moves(l, known, n, lag), StartsFrom(l, s, known), x)
  {
    hide OnGrid, Lane.FirstStep, Lane.Grant, AllBelow, Lane.DownDrift, Descended, Moves, Unit, Divided;
    var k, x, start := |before| - |s|, l.Grant(before) as real, StartsFrom(l, s, known);
    MovesOneMore(l, known, n, k, lag);
    GrantPossible(l, before);
    if l.a.historyWindow <= k + known {
      ColdRound(l, before);
      DescendedMore(l, Moves(l, known, k, lag), start, l.Newest(before), x);
      DescendedFewer(l, Moves(l, known, n, lag), Moves(l, known, k, lag) + 1, start, x);
    } else if known == |s| {
      GrantValue(l, before);
      DescendedFloor(l, Moves(l, known, n, lag), start);
    } else {
      DescendedNone(l, start, x);
    }
  }

  /** Under sustained idleness each counted run gives up at least a unit, and divides by the factor above the drift. */
  lemma {:induction false} IdlenessDescends(l: Lane, s: seq<Sample>, all: seq<Sample>, known: nat, lag: nat)
    requires l.Movable() && known <= |s| && Settled(l, s, known) && Grown(l, s, all, lag)
    requires AllBelow(Recent(s, all, known), l.a.scaleDownThreshold)
    ensures |s| <= |all| && DescendedTo(l, s, all, known, lag)
    decreases |all|
  {
    hide OnGrid, Lane.FirstStep, Lane.Grant, AllBelow, Descended, Moves, Recent, Grown, Settled,
      Lane.Possible, Unit;
    GrownSize(l, s, all, lag);
    if |all| == |s| {
      NoMoves(l, known, lag);
      if l.Possible(l.Newest(s)) {
        PossibleBounds(l, l.Newest(s));
        DescendedNone(l, StartsFrom(l, s, known), l.Newest(all));
      }
    } else {
      var k := GrantedFrom(l, s, all, lag);
      RecentAlike(l, s, all, known, k);
      IdlenessDescends(l, s, all[k..], known, lag);
      DescendOnce(l, s, all[k..], known, |all| - |s|, lag);
    }
  }

  /** So many descents reach the floor: by a unit each, or by the factor to less than a unit above it. */
  predicate ReachesFloor(l: Lane, start: real, k: nat)
    requires l.Movable()
  {
    var c, unit := l.DownDrift(), Unit(l.resource);
    start - l.floor <= Times(k, unit) || start - c < Scale(l.a.scaleFactor, l.floor + unit - c, k)
  }

  lemma DescendedOut(l: Lane, k: nat, start: real, x: real)
    requires l.Movable() && ReachesFloor(l, start, k) && Descended(l, k, start, x) && l.Possible(x)
    ensures x <= l.floor
  {
    hide OnGrid, Lane.FirstStep, Times, Unit, Lane.DownDrift, Scale;
    if l.floor < x {
      GridSum(l.resource, l.floor, x);
      ScaleOrder(l.a.scaleFactor, l.floor + Unit(l.resource) - l.DownDrift(), x - l.DownDrift(), k);
    }
  }

  /**
   Sustained idleness: the baseline is reached within an explicit number of recorded runs, and every later run is
   granted the baseline, whatever was recorded before. The number grows with the logarithm, to the base of the scale
   factor, of the allocation over the baseline.
   */
  lemma IdlenessReachesBaseline(l: Lane, s: seq<Sample>, all: seq<Sample>, known: nat, lag: nat)
    requires l.Movable() && known <= |s| && Settled(l, s, known) && Grown(l, s, all, lag)
    requires AllBelow(Recent(s, all, known), l.a.scaleDownThreshold)
    requires l.Warmup(known) <= |all| - |s|
    requires ReachesFloor(l, StartsFrom(l, s, known), Moves(l, known, |all| - |s|, lag))
    ensures l.Newest(all) == l.floor && l.Grant(all) as real == l.floor
  {
    hide OnGrid, Lane.FirstStep, Lane.Grant, Descended, ReachesFloor, Moves, Unit, Lane.DownDrift, Recent, Divided;
    IdlenessDescends(l, s, all, known, lag);
    DescendedOut(l, Moves(l, known, |all| - |s|, lag), StartsFrom(l, s, known), l.Newest(all));
    RecentEarlier(s, all, known, 0, l.a.historyWindow);
    ColdRound(l, all);
    UnitOnGrid(l.resource);
  }
}
