/**
 The adaptive adjustment: from a baseline profile and the history of a job to the next allocation.
 CPU and memory follow the same rule on their own columns, with their own printers and parsers.
 */
module Adjustment {
  import opened Wrappers
  import opened Decimal
  import opened Quantities
  import opened Configuration
  import opened MetricsStore

  datatype Adjuster = Adjuster(
    scaleUpThreshold: real,
    scaleDownThreshold: real,
    scaleFactor: real,
    historyWindow: int,
    maxCPUs: string,
    maxMemory: string
  ) {
    /** What validation guarantees of the adaptive section. */
    predicate Valid() {
      0.0 <= scaleDownThreshold < scaleUpThreshold && 1.0 < scaleFactor && 0 < historyWindow
    }
  }

  datatype Adjusted = Adjusted(cpus: string, memory: string)

  // ----- The rule for one resource -----

  /** What a record says about one resource. */
  datatype Sample = Sample(granted: int, used: int)

  function SampleOf(r: Resource, m: MetricsRecord): Sample {
    match r
    case Cpu => Sample(m.cpuAllocated, m.cpuUsed)
    case Mem => Sample(m.memAllocated, m.memPeak)
  }

  function Samples(r: Resource, history: seq<MetricsRecord>): (s: seq<Sample>)
    ensures |s| == |history|
  {
    seq(|history|, i requires 0 <= i < |history| => SampleOf(r, history[i]))
  }

  function Utilisation(s: Sample): real {
    if 0 < s.granted then s.used as real / s.granted as real else 0.0
  }

  function UtilisationSum(samples: seq<Sample>): real {
    if samples == [] then 0.0
    else UtilisationSum(samples[..|samples| - 1]) + Utilisation(samples[|samples| - 1])
  }

  function Average(samples: seq<Sample>): real
    requires samples != []
  {
    UtilisationSum(samples) / |samples| as real
  }

  function BaselineText(r: Resource, p: Profile): string {
    match r
    case Cpu => p.cpus
    case Mem => p.memory
  }

  function Baseline(r: Resource, p: Profile): real {
    Parse(r, BaselineText(r, p))
  }

  /** The profile's own ceiling counts only when it is lower than the global one. */
  function Ceiling(r: Resource, a: Adjuster, p: Profile): real {
    var global := Parse(r, match r case Cpu => a.maxCPUs case Mem => a.maxMemory);
    var own := match r case Cpu => p.maxCPUs case Mem => p.maxMemory;
    if own != "" && Parse(r, own) < global then Parse(r, own) else global
  }

  /** One step up, one step down, or none. */
  function Step(a: Adjuster, utilisation: real, last: real): real
    requires a.scaleFactor != 0.0
  {
    if utilisation > a.scaleUpThreshold then last * a.scaleFactor
    else if utilisation < a.scaleDownThreshold then last / a.scaleFactor
    else last
  }

  /** The ceiling wins over the floor. */
  function Clamp(x: real, floor: real, ceiling: real): real {
    var raised := if x < floor then floor else x;
    if raised > ceiling then ceiling else raised
  }

  function Last(samples: seq<Sample>, floor: real): real
    requires samples != []
  {
    if samples[0].granted == 0 then floor else samples[0].granted as real
  }

  function Next(a: Adjuster, floor: real, ceiling: real, samples: seq<Sample>): real
    requires samples != [] && a.scaleFactor != 0.0
  {
    Clamp(Step(a, Average(samples), Last(samples, floor)), floor, ceiling)
  }

  /** The allocation string chosen for a resource; the baseline verbatim while the history is too short. */
  function Chosen(r: Resource, a: Adjuster, p: Profile, history: seq<MetricsRecord>): string
    requires |history| < a.historyWindow || (history != [] && a.scaleFactor != 0.0)
  {
    if |history| < a.historyWindow then BaselineText(r, p)
    else Format(r, Next(a, Baseline(r, p), Ceiling(r, a, p), Samples(r, history)))
  }

  // ----- The program -----

  /**
   Without a full window the baseline is returned; otherwise the history must not be empty, which is what keeps
   the program from indexing out of range.
   */
  method Adjust(a: Adjuster, baseline: Profile, history: seq<MetricsRecord>) returns (result: Adjusted)
    requires |history| < a.historyWindow || (history != [] && a.scaleFactor != 0.0)
    ensures result == Adjusted(Chosen(Cpu, a, baseline, history), Chosen(Mem, a, baseline, history))
  {
    if |history| < a.historyWindow {
      return Adjusted(baseline.cpus, baseline.memory);
    }
    hide UtilisationSum, ParseCPUToNano, ParseMemToBytes, FormatCPU, FormatMemory, Ceiling, Average, Step, Clamp;
    var cpuUtil, memUtil := AverageUtilisation(history);

    var baselineCPU := ParseCPUToNano(baseline.cpus);
    var baselineMem := ParseMemToBytes(baseline.memory);
    var lastCPU := history[0].cpuAllocated as real;
    var lastMem := history[0].memAllocated as real;
    if lastCPU == 0.0 {
      lastCPU := baselineCPU;
    }
    if lastMem == 0.0 {
      lastMem := baselineMem;
    }
    var maxCPU, maxMem := EffectiveCeilings(a, baseline);
    var newCPU, newMem := ScaleBoth(a, cpuUtil, memUtil, lastCPU, lastMem);
    newCPU, newMem := ClampBoth(newCPU, newMem, baselineCPU, baselineMem, maxCPU, maxMem);
    result := Adjusted(FormatCPU(newCPU), FormatMemory(newMem));
  }

  method AverageUtilisation(history: seq<MetricsRecord>) returns (cpu: real, mem: real)
    requires history != []
    ensures cpu == Average(Samples(Cpu, history)) && mem == Average(Samples(Mem, history))
  {
    var cpuSum, memSum := 0.0, 0.0;
    for i := 0 to |history|
      invariant cpuSum == UtilisationSum(Samples(Cpu, history)[..i])
      invariant memSum == UtilisationSum(Samples(Mem, history)[..i])
    {
      var m := history[i];
      if m.cpuAllocated > 0 {
        cpuSum := cpuSum + m.cpuUsed as real / m.cpuAllocated as real;
      }
      if m.memAllocated > 0 {
        memSum := memSum + m.memPeak as real / m.memAllocated as real;
      }
      SumOneMore(Samples(Cpu, history), i);
      SumOneMore(Samples(Mem, history), i);
    }
    assert Samples(Cpu, history)[..|history|] == Samples(Cpu, history);
    assert Samples(Mem, history)[..|history|] == Samples(Mem, history);
    cpu, mem := cpuSum / |history| as real, memSum / |history| as real;
  }

  lemma SumOneMore(samples: seq<Sample>, i: nat)
    requires i < |samples|
    ensures UtilisationSum(samples[..i + 1]) == UtilisationSum(samples[..i]) + Utilisation(samples[i])
  {
    assert samples[..i + 1][..i] == samples[..i];
  }

  method EffectiveCeilings(a: Adjuster, p: Profile) returns (cpu: real, mem: real)
    ensures cpu == Ceiling(Cpu, a, p) && mem == Ceiling(Mem, a, p)
  {
    cpu := ParseCPUToNano(a.maxCPUs);
    mem := ParseMemToBytes(a.maxMemory);
    if p.maxCPUs != "" {
      var own := ParseCPUToNano(p.maxCPUs);
      if own < cpu {
        cpu := own;
      }
    }
    if p.maxMemory != "" {
      var own := ParseMemToBytes(p.maxMemory);
      if own < mem {
        mem := own;
      }
    }
  }

  method ScaleBoth(a: Adjuster, cpuUtil: real, memUtil: real, lastCPU: real, lastMem: real)
    returns (newCPU: real, newMem: real)
    requires a.scaleFactor != 0.0
    ensures newCPU == Step(a, cpuUtil, lastCPU) && newMem == Step(a, memUtil, lastMem)
  {
    newCPU, newMem := lastCPU, lastMem;
    if cpuUtil > a.scaleUpThreshold {
      newCPU := lastCPU * a.scaleFactor;
    } else if cpuUtil < a.scaleDownThreshold {
      newCPU := lastCPU / a.scaleFactor;
    }
    if memUtil > a.scaleUpThreshold {
      newMem := lastMem * a.scaleFactor;
    } else if memUtil < a.scaleDownThreshold {
      newMem := lastMem / a.scaleFactor;
    }
  }

  method ClampBoth(cpu: real, mem: real, minCPU: real, minMem: real, maxCPU: real, maxMem: real)
    returns (newCPU: real, newMem: real)
    ensures newCPU == Clamp(cpu, minCPU, maxCPU) && newMem == Clamp(mem, minMem, maxMem)
  {
    newCPU, newMem := cpu, mem;
    if newCPU < minCPU {
      newCPU := minCPU;
    }
    if newMem < minMem {
      newMem := minMem;
    }
    if newCPU > maxCPU {
      newCPU := maxCPU;
    }
    if newMem > maxMem {
      newMem := maxMem;
    }
  }

  // ----- Averages -----

  ghost predicate AllAbove(samples: seq<Sample>, t: real) {
    forall s | s in samples :: Utilisation(s) > t
  }

  ghost predicate AllBelow(samples: seq<Sample>, t: real) {
    forall s | s in samples :: Utilisation(s) < t
  }

  lemma {:induction false} SumBounds(samples: seq<Sample>, t: real)
    ensures samples != [] && AllAbove(samples, t) ==> UtilisationSum(samples) > |samples| as real * t
    ensures samples != [] && AllBelow(samples, t) ==> UtilisationSum(samples) < |samples| as real * t
  {
    hide Utilisation;
    if samples != [] {
      var front, last := samples[..|samples| - 1], samples[|samples| - 1];
      SumBounds(front, t);
      assert last in samples && forall s | s in front :: s in samples;
      OneMoreTimes(|front|, t);
    }
  }

  lemma OneMoreTimes(n: nat, t: real)
    ensures (n + 1) as real * t == n as real * t + t
  {}

  lemma DivideCompare(x: real, n: real, t: real)
    requires 0.0 < n
    ensures x > n * t <==> x / n > t
    ensures x < n * t <==> x / n < t
  {
    var q := x / n;
    assert q * n == x;
  }

  lemma AverageBounds(samples: seq<Sample>, t: real)
    requires samples != []
    ensures AllAbove(samples, t) ==> Average(samples) > t
    ensures AllBelow(samples, t) ==> Average(samples) < t
  {
    hide UtilisationSum;
    SumBounds(samples, t);
    DivideCompare(UtilisationSum(samples), |samples| as real, t);
  }

  /** Use per allocation; records without an allocation count as unused. */
  lemma UtilisationExactly(s: Sample, u: real)
    ensures u == Utilisation(s) <==> if 0 < s.granted then u * s.granted as real == s.used as real else u == 0.0
  {
    if 0 < s.granted {
      var n, v := s.granted as real, Utilisation(s);
      assert v * n == s.used as real;
      assert u * n == v * n ==> (u - v) * n == 0.0;
    }
  }

  /** The average of one record is its utilisation. */
  lemma SingleAverage(s: seq<Sample>)
    requires |s| == 1
    ensures Average(s) == Utilisation(s[0])
  {
    assert UtilisationSum(s[..0]) == 0.0;
  }

  /** A further record adds its utilisation to the sum: every record counts the same. */
  lemma AverageOneMore(s: seq<Sample>, x: Sample)
    requires s != []
    ensures (|s| + 1) as real * Average(s + [x]) == |s| as real * Average(s) + Utilisation(x)
  {
    hide UtilisationSum, Utilisation;
    var t := s + [x];
    assert t[..|s| + 1] == t && t[..|s|] == s;
    SumOneMore(t, |s|);
    Undivide(UtilisationSum(s), |s|);
    Undivide(UtilisationSum(t), |t|);
  }

  lemma Undivide(x: real, n: nat)
    requires 0 < n
    ensures n as real * (x / n as real) == x
  {}

  /**
   The adjustment of one resource, case by case: a step up, a step down or none from the newest allocation, which is the
   baseline when none was recorded, and then the bounds, of which the ceiling wins.
   */
  lemma AdjustedByCases(r: Resource, a: Adjuster, p: Profile, h: seq<MetricsRecord>, wanted: real)
    requires a.Valid() && FullWindow(a, h)
    requires var u, newest := Average(Samples(r, h)), if r.Cpu? then h[0].cpuAllocated else h[0].memAllocated;
             var last := if newest == 0 then Parse(r, if r.Cpu? then p.cpus else p.memory) else newest as real;
             if u > a.scaleUpThreshold then wanted == last * a.scaleFactor
             else if u < a.scaleDownThreshold then wanted * a.scaleFactor == last
             else wanted == last
    ensures var y, ceiling := Parse(r, Chosen(r, a, p, h)), Ceiling(r, a, p);
            var floor := Parse(r, if r.Cpu? then p.cpus else p.memory);
            && (ceiling <= floor || ceiling <= wanted ==> y == Snap(r, ceiling))
            && (floor < ceiling && wanted <= floor ==> y == Snap(r, floor))
            && (floor <= wanted <= ceiling ==> y == Snap(r, wanted))
  {
    hide Format, Parse, Ceiling, Snap, Average, Chosen, Next;
    var s := Samples(r, h);
    assert s[0] == SampleOf(r, h[0]);
    NextByCases(a, Baseline(r, p), Ceiling(r, a, p), s, wanted);
    ChosenFull(r, a, p, h);
    FormatParse(r, Next(a, Baseline(r, p), Ceiling(r, a, p), s));
  }

  lemma NextByCases(a: Adjuster, floor: real, ceiling: real, s: seq<Sample>, wanted: real)
    requires a.Valid() && s != []
    requires var u, last := Average(s), if s[0].granted == 0 then floor else s[0].granted as real;
             if u > a.scaleUpThreshold then wanted == last * a.scaleFactor
             else if u < a.scaleDownThreshold then wanted * a.scaleFactor == last
             else wanted == last
    ensures var y := Next(a, floor, ceiling, s);
            && (ceiling <= floor || ceiling <= wanted ==> y == ceiling)
            && (floor < ceiling && wanted <= floor ==> y == floor)
            && (floor <= wanted <= ceiling ==> y == wanted)
  {
    hide Average;
    StepIs(a, Average(s), Last(s, floor), wanted);
    hide Step;
  }

  lemma StepIs(a: Adjuster, u: real, last: real, wanted: real)
    requires a.Valid()
    requires if u > a.scaleUpThreshold then wanted == last * a.scaleFactor
             else if u < a.scaleDownThreshold then wanted * a.scaleFactor == last
             else wanted == last
    ensures Step(a, u, last) == wanted
  {
    SameQuotient(wanted, last, a.scaleFactor);
  }

  lemma SameQuotient(x: real, y: real, f: real)
    requires 0.0 < f
    ensures x * f == y ==> x == y / f
  {
    var q := y / f;
    assert q * f == y;
    assert (x - q) * f == x * f - q * f;
  }

  const WINDOW: Adjuster := Adjuster(0.8, 0.3, 1.5, 3, "16", "32g")
  const STEADY: Profile := Profile("4", "2g", ["*"], "", "")

  /** A run of the profile that used these hundredths of its CPUs and of its memory. */
  function RunUsing(cpu: int, mem: int): MetricsRecord {
    MetricsRecord("job", "steady", 4_000_000_000, 2_000_000_000, cpu * 40_000_000, mem * 20_000_000)
  }

  /**
   Older records count: after 90, 10 and 10 percent of the CPUs, newest first, the allocation stays at 4 CPUs, and after
   10, 100 and 160 percent of two billion bytes the memory grows to three.
   */
  lemma OlderRecordsCount()
    ensures var h := [RunUsing(90, 10), RunUsing(10, 100), RunUsing(10, 160)];
            WINDOW.Valid() && FullWindow(WINDOW, h)
            && Chosen(Cpu, WINDOW, STEADY, h) == "4" && Chosen(Mem, WINDOW, STEADY, h) == "3000000000"
  {
    SteadyAverages();
    SteadyQuantities();
    SteadyStrings();
    hide Average, UtilisationSum, ParseCPUToNano, ParseMemToBytes, FormatCPU, FormatMemory;
    var h := [RunUsing(90, 10), RunUsing(10, 100), RunUsing(10, 160)];
    ChosenFull(Cpu, WINDOW, STEADY, h);
    ChosenFull(Mem, WINDOW, STEADY, h);
  }

  // ----- Monotonicity and separation -----

  /** Same allocations, and at least as much used in every record, for this resource. */
  predicate UsesMore(r: Resource, h: seq<MetricsRecord>, k: seq<MetricsRecord>) {
    |h| == |k| && forall i | 0 <= i < |h| ::
      SampleOf(r, h[i]).granted == SampleOf(r, k[i]).granted && SampleOf(r, h[i]).used <= SampleOf(r, k[i]).used
  }

  lemma UtilisationMonotone(s: Sample, t: Sample)
    requires s.granted == t.granted && s.used <= t.used
    ensures Utilisation(s) <= Utilisation(t)
  {
    if 0 < s.granted {
      DivideMonotone(s.used as real, t.used as real, s.granted as real);
    }
  }

  lemma DivideMonotone(x: real, y: real, n: real)
    requires x <= y && 0.0 < n
    ensures x / n <= y / n
  {
    DivideCompare(x, n, y / n);
    DivideCompare(y, n, y / n);
  }

  lemma MultiplyMonotone(x: real, y: real, n: real)
    requires x <= y && 0.0 < n
    ensures x * n <= y * n && (x < y ==> x * n < y * n)
  {}

  lemma {:induction false} SumMonotone(s: seq<Sample>, t: seq<Sample>)
    requires |s| == |t| && forall i | 0 <= i < |s| :: s[i].granted == t[i].granted && s[i].used <= t[i].used
    ensures UtilisationSum(s) <= UtilisationSum(t)
  {
    if s != [] {
      SumMonotone(s[..|s| - 1], t[..|t| - 1]);
      UtilisationMonotone(s[|s| - 1], t[|t| - 1]);
    }
  }

  lemma StepMonotone(a: Adjuster, u: real, v: real, last: real)
    requires a.Valid() && u <= v && 0.0 <= last
    ensures Step(a, u, last) <= Step(a, v, last)
  {
    StepDirection(a, last);
  }

  /** With a factor above one, steps up do not lower and steps down do not raise a nonnegative amount. */
  lemma StepDirection(a: Adjuster, last: real)
    requires 1.0 < a.scaleFactor && 0.0 <= last
    ensures 0.0 <= last / a.scaleFactor <= last <= last * a.scaleFactor
  {
    var q := last / a.scaleFactor;
    assert q * a.scaleFactor == last;
    assert last * (a.scaleFactor - 1.0) >= 0.0;
    if q < 0.0 {
      MultiplyMonotone(q, 0.0, a.scaleFactor);
    } else {
      assert q * (a.scaleFactor - 1.0) >= 0.0;
    }
  }

  /** With a negative newest allocation, a step up lowers it further. */
  lemma StepAntitone(a: Adjuster, u: real, v: real, last: real)
    requires a.Valid() && u <= v && last < 0.0
    ensures Step(a, v, last) <= Step(a, u, last) < 0.0
  {
    var opposite := -last;
    StepDirection(a, opposite);
    assert opposite * a.scaleFactor == -(last * a.scaleFactor);
    var q := last / a.scaleFactor;
    assert q * a.scaleFactor == last;
    assert opposite / a.scaleFactor == -q;
    NegativeStep(a, u, last);
  }

  lemma NextMonotone(a: Adjuster, floor: real, ceiling: real, s: seq<Sample>, t: seq<Sample>)
    requires a.Valid() && s != [] && |s| == |t|
    requires forall i | 0 <= i < |s| :: s[i].granted == t[i].granted && s[i].used <= t[i].used
    ensures Last(s, floor) == Last(t, floor)
    ensures 0.0 <= Last(s, floor) || 0.0 <= floor ==> Next(a, floor, ceiling, s) <= Next(a, floor, ceiling, t)
    ensures Last(s, floor) < 0.0 ==> Next(a, floor, ceiling, t) <= Next(a, floor, ceiling, s)
  {
    hide UtilisationSum;
    SumMonotone(s, t);
    DivideMonotone(UtilisationSum(s), UtilisationSum(t), |s| as real);
    var last := Last(s, floor);
    if 0.0 <= last {
      StepMonotone(a, Average(s), Average(t), last);
    } else {
      StepAntitone(a, Average(s), Average(t), last);
    }
  }

  lemma NegativeStep(a: Adjuster, u: real, last: real)
    requires a.Valid() && last < 0.0
    ensures Step(a, u, last) < 0.0
  {
    MultiplyMonotone(last, 0.0, a.scaleFactor);
    if 0.0 <= last / a.scaleFactor {
      MultiplyMonotone(0.0, last / a.scaleFactor, a.scaleFactor);
    }
  }

  /** The allocation from which the next one of a full window is scaled. */
  function Newest(r: Resource, p: Profile, h: seq<MetricsRecord>): real
    requires h != []
  {
    Last(Samples(r, h), Baseline(r, p))
  }

  /**
   More use of a resource never lowers its next allocation, through averaging, thresholds, clamps and printing,
   whatever the columns of the other resource say. This is so unless the newest allocation is negative, as only a
   negative quantity string can make it: then it is the other way round.
   */
  lemma AdjustMonotone(r: Resource, a: Adjuster, p: Profile, h: seq<MetricsRecord>, k: seq<MetricsRecord>)
    requires a.Valid() && UsesMore(r, h, k)
    ensures var x, y := Parse(r, Chosen(r, a, p, h)), Parse(r, Chosen(r, a, p, k));
            && (|h| < a.historyWindow || 0.0 <= Newest(r, p, h) || 0.0 <= Baseline(r, p) ==> x <= y)
            && (|h| < a.historyWindow || Newest(r, p, h) < 0.0 ==> y <= x)
  {
    hide Format, Parse, Next, Snap, Ceiling, Last;
    if a.historyWindow <= |h| {
      var floor, ceiling := Baseline(r, p), Ceiling(r, a, p);
      var x, y := Next(a, floor, ceiling, Samples(r, h)), Next(a, floor, ceiling, Samples(r, k));
      FormatParse(r, x);
      FormatParse(r, y);
      NextMonotone(a, floor, ceiling, Samples(r, h), Samples(r, k));
      if Newest(r, p, h) < 0.0 {
        SnapMonotone(r, y, x);
      }
      if 0.0 <= Newest(r, p, h) || 0.0 <= floor {
        SnapMonotone(r, x, y);
      }
    }
  }

  /** The next allocation of a resource depends on the history only through its own columns. */
  lemma AdjustSeparable(r: Resource, a: Adjuster, p: Profile, h: seq<MetricsRecord>, k: seq<MetricsRecord>)
    requires a.Valid() && |h| == |k| && forall i | 0 <= i < |h| :: SampleOf(r, h[i]) == SampleOf(r, k[i])
    ensures Chosen(r, a, p, h) == Chosen(r, a, p, k)
  {
    assert Samples(r, h) == Samples(r, k);
  }

  // ----- Bounds -----

  /** The effective ceiling is the lower one of the global ceiling and the profile's own, when it has one. */
  lemma CeilingIsLower(r: Resource, a: Adjuster, p: Profile)
    ensures var global := Parse(r, match r case Cpu => a.maxCPUs case Mem => a.maxMemory);
            var own := match r case Cpu => p.maxCPUs case Mem => p.maxMemory;
            && Ceiling(r, a, p) <= global && (own != "" ==> Ceiling(r, a, p) <= Parse(r, own))
            && (Ceiling(r, a, p) == global || (own != "" && Ceiling(r, a, p) == Parse(r, own)))
  {
    hide Parse;
  }

  /** A full window, and therefore not empty. */
  predicate FullWindow(a: Adjuster, h: seq<MetricsRecord>) {
    a.historyWindow <= |h| && h != []
  }

  /**
   When allocations stay within bounds: floor and ceiling in order, the floor printable exactly, and printing the
   ceiling not rounding it up. For memory this says that the floor is a whole number of bytes.
   */
  predicate BoundsFit(r: Resource, a: Adjuster, p: Profile) {
    var floor, ceiling := Baseline(r, p), Ceiling(r, a, p);
    floor <= ceiling && floor <= Snap(r, floor) && Snap(r, ceiling) <= ceiling
  }

  predicate Within(r: Resource, a: Adjuster, p: Profile, x: real) {
    Baseline(r, p) <= x <= Ceiling(r, a, p)
  }

  lemma NextWithin(r: Resource, a: Adjuster, p: Profile, h: seq<MetricsRecord>)
    requires a.Valid() && FullWindow(a, h) && Baseline(r, p) <= Ceiling(r, a, p)
    ensures var x := Next(a, Baseline(r, p), Ceiling(r, a, p), Samples(r, h));
            Within(r, a, p, x) && Parse(r, Chosen(r, a, p, h)) == Snap(r, x)
  {
    hide Parse, Format, Ceiling, Snap, Average, Baseline, Step;
    FormatParse(r, Next(a, Baseline(r, p), Ceiling(r, a, p), Samples(r, h)));
  }

  /** The chosen allocation stays between floor and ceiling for every history exactly when the bounds fit. */
  lemma BoundsExact(r: Resource, a: Adjuster, p: Profile)
    requires a.Valid()
    ensures BoundsFit(r, a, p) <==> forall h | FullWindow(a, h) :: Within(r, a, p, Parse(r, Chosen(r, a, p, h)))
  {
    if BoundsFit(r, a, p) {
      forall h | FullWindow(a, h) ensures Within(r, a, p, Parse(r, Chosen(r, a, p, h))) {
        FitsWithin(r, a, p, h);
      }
    }
    if forall h | FullWindow(a, h) :: Within(r, a, p, Parse(r, Chosen(r, a, p, h))) {
      WithinFits(r, a, p);
    }
  }

  lemma FitsWithin(r: Resource, a: Adjuster, p: Profile, h: seq<MetricsRecord>)
    requires a.Valid() && BoundsFit(r, a, p) && FullWindow(a, h)
    ensures Within(r, a, p, Parse(r, Chosen(r, a, p, h)))
  {
    hide Parse, Format, Snap, Ceiling, Baseline, Chosen, Next;
    NextWithin(r, a, p, h);
    var x := Next(a, Baseline(r, p), Ceiling(r, a, p), Samples(r, h));
    SnapMonotone(r, Baseline(r, p), x);
    SnapMonotone(r, x, Ceiling(r, a, p));
  }

  lemma WithinFits(r: Resource, a: Adjuster, p: Profile)
    requires a.Valid()
    requires forall h | FullWindow(a, h) :: Within(r, a, p, Parse(r, Chosen(r, a, p, h)))
    ensures BoundsFit(r, a, p)
  {
    hide Parse, Format, Snap, Ceiling, Baseline, Chosen, Next;
    var idle := IdleHistory(r, a, p);
    var hot := HotHistory(r, a, p);
    assert Within(r, a, p, Parse(r, Chosen(r, a, p, hot)));
    assert Within(r, a, p, Parse(r, Chosen(r, a, p, idle)));
    FormatParse(r, Next(a, Baseline(r, p), Ceiling(r, a, p), Samples(r, hot)));
    FormatParse(r, Next(a, Baseline(r, p), Ceiling(r, a, p), Samples(r, idle)));
    ChosenFull(r, a, p, idle);
    ChosenFull(r, a, p, hot);
  }

  lemma ChosenFull(r: Resource, a: Adjuster, p: Profile, h: seq<MetricsRecord>)
    requires a.Valid() && FullWindow(a, h)
    ensures Chosen(r, a, p, h) == Format(r, Next(a, Baseline(r, p), Ceiling(r, a, p), Samples(r, h)))
  {}

  function Repeated(n: nat, m: MetricsRecord): (h: seq<MetricsRecord>)
    ensures |h| == n && forall i | 0 <= i < n :: h[i] == m
  {
    seq(n, _ => m)
  }

  /** A window of records with allocations below the floor: the floor, or the ceiling when it is lower. */
  lemma IdleHistory(r: Resource, a: Adjuster, p: Profile) returns (h: seq<MetricsRecord>)
    requires a.Valid()
    ensures FullWindow(a, h)
    ensures Next(a, Baseline(r, p), Ceiling(r, a, p), Samples(r, h)) ==
            if Baseline(r, p) <= Ceiling(r, a, p) then Baseline(r, p) else Ceiling(r, a, p)
  {
    hide Baseline, Ceiling, UtilisationSum;
    var n := LowAllocation(a, Baseline(r, p));
    h := NegativeHistory(r, a, n);
  }

  /** Allocations below zero count as unused. */
  lemma NegativeHistory(r: Resource, a: Adjuster, n: int) returns (h: seq<MetricsRecord>)
    requires a.Valid() && n < 0
    ensures FullWindow(a, h)
    ensures Average(Samples(r, h)) == 0.0 && forall floor :: Last(Samples(r, h), floor) == n as real
  {
    hide UtilisationSum;
    h := Repeated(a.historyWindow, MetricsRecord("", "", n, n, 0, 0));
    var s := Samples(r, h);
    assert forall x | x in s :: x == Sample(n, 0);
    UnusedSum(s);
  }

  lemma {:induction false} UnusedSum(s: seq<Sample>)
    requires forall x | x in s :: Utilisation(x) == 0.0
    ensures UtilisationSum(s) == 0.0
  {
    if s != [] {
      assert s[|s| - 1] in s && forall x | x in s[..|s| - 1] :: x in s;
      UnusedSum(s[..|s| - 1]);
    }
  }

  /** An allocation so low that a step without use still ends below the floor. */
  lemma LowAllocation(a: Adjuster, floor: real) returns (n: int)
    requires a.Valid()
    ensures n < 0 && Step(a, 0.0, n as real) <= floor
  {
    var low := if floor < 0.0 then floor * a.scaleFactor else floor;
    n := if 0.0 <= low then -1 else low.Floor - 1;
    if 0.0 <= floor {
      NegativeStep(a, 0.0, n as real);
    } else {
      StaysBelow(a.scaleFactor, floor, n as real);
    }
  }

  lemma StaysBelow(f: real, floor: real, x: real)
    requires 1.0 < f && floor < 0.0 && x <= floor * f
    ensures x <= floor && x / f <= floor
  {
    assert 0.0 <= (-floor) * (f - 1.0);
    var q := x / f;
    assert q * f == x;
    if floor < q {
      MultiplyMonotone(floor, q, f);
    }
  }

  /** A window of records that used more than a large allocation: the ceiling. */
  lemma HotHistory(r: Resource, a: Adjuster, p: Profile) returns (h: seq<MetricsRecord>)
    requires a.Valid()
    ensures FullWindow(a, h)
    ensures Next(a, Baseline(r, p), Ceiling(r, a, p), Samples(r, h)) == Ceiling(r, a, p)
  {
    hide Baseline, Ceiling, UtilisationSum, Utilisation;
    var ceiling := Ceiling(r, a, p);
    var n := if ceiling <= 0.0 then 1 else ceiling.Floor + 1;
    var k := a.scaleUpThreshold.Floor + 1;
    h := Repeated(a.historyWindow, MetricsRecord("", "", n, n, n * k, n * k));
    var s := Samples(r, h);
    ManyfoldUse(n, k, a.scaleUpThreshold);
    assert forall x | x in s :: x == Sample(n, n * k);
    AverageBounds(s, a.scaleUpThreshold);
    StepDirection(a, n as real);
  }

  lemma ManyfoldUse(n: int, k: int, t: real)
    requires 0 < n && t < k as real
    ensures Utilisation(Sample(n, n * k)) > t
  {
    var used, share := (n * k) as real, k as real;
    assert used == n as real * share;
    TimesCompare(n as real, share, t);
    DivideCompare(used, n as real, t);
  }

  lemma TimesCompare(n: real, k: real, t: real)
    requires 0.0 < n && t < k
    ensures n * t < n * k
  {}

  // ----- What the runner enforces -----

  /** Bounds that survive printing and both parsers, for every history, also before the window is full. */
  predicate EnforceableBounds(r: Resource, a: Adjuster, p: Profile) {
    OnGrid(r, Baseline(r, p)) && BoundsFit(r, a, p)
  }

  lemma EnforcedWithin(r: Resource, a: Adjuster, p: Profile, h: seq<MetricsRecord>)
    requires a.Valid() && EnforceableBounds(r, a, p)
    ensures var limit := Enforced(r, Chosen(r, a, p, h)); limit.Ok? ==> Within(r, a, p, limit.value as real)
  {
    hide Parse, Format, Snap, Ceiling, Chosen, Next, Enforced, OnGrid;
    var text := Chosen(r, a, p, h);
    EnforcedIsParsed(r, text);
    if |h| < a.historyWindow {
      ShortHistory(r, a, p, h);
      SnapOnGrid(r, Baseline(r, p));
    } else {
      FitsWithin(r, a, p, h);
      ChosenFull(r, a, p, h);
      FormatParse(r, Next(a, Baseline(r, p), Ceiling(r, a, p), Samples(r, h)));
      SnapOnGrid(r, Next(a, Baseline(r, p), Ceiling(r, a, p), Samples(r, h)));
    }
  }

  lemma EnforcedIsParsed(r: Resource, text: string)
    ensures Enforced(r, text).Ok? ==> Enforced(r, text).value == Trunc(Parse(r, text))
  {
    hide ParseCPUs, ParseMemory, ParseCPUToNano, ParseMemToBytes;
    ParsersAgree(text);
  }

  lemma ShortHistory(r: Resource, a: Adjuster, p: Profile, h: seq<MetricsRecord>)
    requires |h| < a.historyWindow
    ensures Chosen(r, a, p, h) == BaselineText(r, p)
  {}

  /**
   The runner accepts the adjusted memory of every history exactly when floor and ceiling are at least ten bytes, or
   the ceiling is at most minus ten. A ceiling that is not configured counts as zero, so every adjusted memory is then
   refused.
   */
  lemma MemoryAcceptedExactly(a: Adjuster, p: Profile)
    requires a.Valid()
    requires InInt64(Baseline(Mem, p)) && InInt64(Ceiling(Mem, a, p))
    ensures (10.0 <= Baseline(Mem, p) && 10.0 <= Ceiling(Mem, a, p)) || Ceiling(Mem, a, p) <= -10.0 <==>
            forall h | FullWindow(a, h) :: Enforced(Mem, Chosen(Mem, a, p, h)).Ok?
  {
    hide Parse, Format, Ceiling, Baseline, Chosen, Next, Enforced;
    var floor, ceiling := Baseline(Mem, p), Ceiling(Mem, a, p);
    if (10.0 <= floor && 10.0 <= ceiling) || ceiling <= -10.0 {
      forall h | FullWindow(a, h) ensures Enforced(Mem, Chosen(Mem, a, p, h)).Ok? {
        ChosenFull(Mem, a, p, h);
        NextBetween(a, floor, ceiling, Samples(Mem, h));
        AcceptedMemory(Next(a, floor, ceiling, Samples(Mem, h)));
      }
    }
    if forall h | FullWindow(a, h) :: Enforced(Mem, Chosen(Mem, a, p, h)).Ok? {
      AcceptedBounds(a, p);
    }
  }

  /** What fits in 64 bits after truncation. */
  predicate InInt64(x: real) {
    INT64_MIN as real <= x <= INT64_MAX as real
  }

  lemma AcceptedBounds(a: Adjuster, p: Profile)
    requires a.Valid() && InInt64(Baseline(Mem, p)) && InInt64(Ceiling(Mem, a, p))
    requires forall h | FullWindow(a, h) :: Enforced(Mem, Chosen(Mem, a, p, h)).Ok?
    ensures (10.0 <= Baseline(Mem, p) && 10.0 <= Ceiling(Mem, a, p)) || Ceiling(Mem, a, p) <= -10.0
  {
    hide Parse, Format, Ceiling, Baseline, Chosen, Next, Enforced, Samples;
    var floor, ceiling := Baseline(Mem, p), Ceiling(Mem, a, p);
    var idle := IdleHistory(Mem, a, p);
    var hot := HotHistory(Mem, a, p);
    var tiny := NegativeHistory(Mem, a, -1);
    ChosenFull(Mem, a, p, idle);
    ChosenFull(Mem, a, p, hot);
    ChosenFull(Mem, a, p, tiny);
    assert Enforced(Mem, Chosen(Mem, a, p, hot)).Ok?;
    assert Enforced(Mem, Chosen(Mem, a, p, idle)).Ok?;
    assert Enforced(Mem, Chosen(Mem, a, p, tiny)).Ok?;
    AcceptedMemory(ceiling);
    if floor <= ceiling {
      AcceptedMemory(floor);
      if floor < -1.0 && 0.0 <= ceiling {
        TinyNext(a, floor, ceiling, Samples(Mem, tiny));
        AcceptedMemory(Next(a, floor, ceiling, Samples(Mem, tiny)));
      }
    }
  }

  lemma TinyNext(a: Adjuster, floor: real, ceiling: real, s: seq<Sample>)
    requires a.Valid() && s != [] && Average(s) == 0.0 && Last(s, floor) == -1.0 && floor < -1.0 && 0.0 <= ceiling
    ensures -1.0 <= Next(a, floor, ceiling, s) <= 0.0
  {
    hide Average;
    StepDirection(a, 1.0);
    var q := -1.0 / a.scaleFactor;
    assert q * a.scaleFactor == -1.0;
    assert 1.0 / a.scaleFactor == -q;
  }

  lemma NextBetween(a: Adjuster, floor: real, ceiling: real, samples: seq<Sample>)
    requires samples != [] && a.scaleFactor != 0.0
    ensures var x := Next(a, floor, ceiling, samples); (floor <= x || ceiling == x) && x <= ceiling
  {
    hide Step, Average;
  }

  lemma AcceptedMemory(x: real)
    requires InInt64(x)
    ensures Enforced(Mem, Format(Mem, x)).Ok? <==> 10.0 <= x || x <= -10.0
  {
    hide ParseMemory, FormatMemory;
    FormatParseMemory(x);
  }

  /** An accepted limit that is not zero, which Docker would read as no limit. */
  predicate Limiting(limit: Result<int>) {
    limit.Ok? && 0 < limit.value
  }

  /**
   The runner passes on a positive CPU limit for every history exactly when neither the floor nor the ceiling prints as
   zero or less. A ceiling that is not configured counts as zero, which is passed on as no limit.
   */
  lemma CPULimitedExactly(a: Adjuster, p: Profile)
    requires a.Valid()
    ensures (0.0 < Snap(Cpu, Baseline(Cpu, p)) && 0.0 < Snap(Cpu, Ceiling(Cpu, a, p))) <==>
            forall h | FullWindow(a, h) :: Limiting(Enforced(Cpu, Chosen(Cpu, a, p, h)))
  {
    hide Parse, Format, Ceiling, Baseline, Chosen, Next, Enforced, Snap;
    var floor, ceiling := Baseline(Cpu, p), Ceiling(Cpu, a, p);
    if 0.0 < Snap(Cpu, floor) && 0.0 < Snap(Cpu, ceiling) {
      forall h | FullWindow(a, h) ensures Limiting(Enforced(Cpu, Chosen(Cpu, a, p, h))) {
        NextBetween(a, floor, ceiling, Samples(Cpu, h));
        PrintedCPU(a, p, h);
        SnapMonotone(Cpu, if floor <= ceiling then floor else ceiling, Next(a, floor, ceiling, Samples(Cpu, h)));
      }
    }
    if forall h | FullWindow(a, h) :: Limiting(Enforced(Cpu, Chosen(Cpu, a, p, h))) {
      var idle := IdleHistory(Cpu, a, p);
      var hot := HotHistory(Cpu, a, p);
      PrintedCPU(a, p, idle);
      PrintedCPU(a, p, hot);
      assert Limiting(Enforced(Cpu, Chosen(Cpu, a, p, hot)));
      assert Limiting(Enforced(Cpu, Chosen(Cpu, a, p, idle)));
      if ceiling < floor {
        SnapMonotone(Cpu, ceiling, floor);
      }
    }
  }

  lemma PrintedCPU(a: Adjuster, p: Profile, h: seq<MetricsRecord>)
    requires a.Valid() && FullWindow(a, h)
    ensures var x := Snap(Cpu, Next(a, Baseline(Cpu, p), Ceiling(Cpu, a, p), Samples(Cpu, h)));
            Enforced(Cpu, Chosen(Cpu, a, p, h)) == Ok(Trunc(x)) && Trunc(x) as real == x
  {
    hide Parse, Format, Ceiling, Baseline, Next, Enforced, Snap;
    ChosenFull(Cpu, a, p, h);
    var x := Next(a, Baseline(Cpu, p), Ceiling(Cpu, a, p), Samples(Cpu, h));
    PrintedIsEnforced(Cpu, x);
    SnapOnGrid(Cpu, x);
  }

  // ----- A ceiling that printing exceeds -----

  const FINE: Adjuster := Adjuster(0.8, 0.3, 1.5, 1, "4", "8g")
  const FINE_PROFILE: Profile := Profile("1", "2g", ["*"], "1.016", "")
  const FINE_RUN: MetricsRecord :=
    MetricsRecord("job", "fine", 1_000_000_000, 2_147_483_648, 900_000_000, 1_500_000_000)

  /** A profile limited to 1.016 CPUs gets 1.02 after one run that used 90 percent of one CPU. */
  lemma RoundingBreaksCeiling()
    ensures FINE.Valid() && FullWindow(FINE, [FINE_RUN])
    ensures Ceiling(Cpu, FINE, FINE_PROFILE) == 1_016_000_000.0
    ensures Chosen(Cpu, FINE, FINE_PROFILE, [FINE_RUN]) == "1.02"
    ensures Enforced(Cpu, Chosen(Cpu, FINE, FINE_PROFILE, [FINE_RUN])) == Ok(1_020_000_000)
  {
    hide Parse, Ceiling, Baseline, Average, Enforced;
    var s := Samples(Cpu, [FINE_RUN]);
    assert s == [Sample(1_000_000_000, 900_000_000)];
    SingleAverage(s);
    FineQuantities();
    var x := Next(FINE, 1_000_000_000.0, 1_016_000_000.0, s);
    assert x == 1_016_000_000.0;
    assert FormatCPU(1_016_000_000.0) == "1.02";
    PrintedIsEnforced(Cpu, x);
    assert HalfEven(101.6) == 102;
  }

  lemma FineQuantities()
    ensures Baseline(Cpu, FINE_PROFILE) == 1_000_000_000.0 && Ceiling(Cpu, FINE, FINE_PROFILE) == 1_016_000_000.0
  {
    hide ParseFloat;
    FineNumerals();
  }

  lemma FineNumerals()
    ensures ParseFloat("1") == Some(1.0) && ParseFloat("4") == Some(4.0) && ParseFloat("1.016") == Some(1.016)
  {
    hide ParseUnsigned;
    assert "1"[..0] == "" && "4"[..0] == "" && "016"[..2] == "01" && "01"[..1] == "0" && "0"[..0] == "";
    assert NatOf("01") == 1;
    ParseDigits("1");
    ParseDigits("4");
    ParsePointed("1", "016");
    assert Pow10(3) == 1000;
    assert "1" + "." + "016" == "1.016";
  }

  lemma SteadyAverages()
    ensures var h := [RunUsing(90, 10), RunUsing(10, 100), RunUsing(10, 160)];
            0.3 < Average(Samples(Cpu, h)) < 0.8 < Average(Samples(Mem, h))
  {
    SteadyAverage(Cpu, 0.9, 0.1, 0.1);
    SteadyAverage(Mem, 0.1, 1.0, 1.6);
  }

  lemma SteadyAverage(r: Resource, x: real, y: real, z: real)
    requires if r.Cpu? then (x, y, z) == (0.9, 0.1, 0.1) else (x, y, z) == (0.1, 1.0, 1.6)
    ensures 3.0 * Average(Samples(r, [RunUsing(90, 10), RunUsing(10, 100), RunUsing(10, 160)])) == x + y + z
  {
    hide Average;
    var h := [RunUsing(90, 10), RunUsing(10, 100), RunUsing(10, 160)];
    var a, b, c := SampleOf(r, h[0]), SampleOf(r, h[1]), SampleOf(r, h[2]);
    assert Samples(r, h) == [a, b] + [c] && [a, b] == [a] + [b];
    SingleAverage([a]);
    AverageOneMore([a], b);
    AverageOneMore([a, b], c);
    assert Utilisation(a) == x && Utilisation(b) == y && Utilisation(c) == z;
  }

  lemma SteadyQuantities()
    ensures Baseline(Cpu, STEADY) == 4_000_000_000.0 && Ceiling(Cpu, WINDOW, STEADY) == 16_000_000_000.0
    ensures Baseline(Mem, STEADY) == 2_147_483_648.0 && Ceiling(Mem, WINDOW, STEADY) == 34_359_738_368.0
  {
    hide ParseFloat, ParseMemToBytes, ParseMemory;
    SteadyNumerals();
    SuffixedNumeral("2", 2.0, 'g');
    SuffixedNumeral("32", 32.0, 'g');
    assert "2" + "g" == "2g" && "32" + "g" == "32g";
  }

  lemma SteadyNumerals()
    ensures ParseFloat("4") == Some(4.0) && ParseFloat("16") == Some(16.0)
    ensures ParseFloat("2") == Some(2.0) && ParseFloat("32") == Some(32.0)
  {
    hide ParseUnsigned;
    assert "4"[..0] == "" && "16"[..1] == "1" && "1"[..0] == "" && "2"[..0] == "" && "32"[..1] == "3" && "3"[..0] == "";
    assert NatOf("1") == 1 && NatOf("3") == 3;
    ParseDigits("4");
    ParseDigits("16");
    ParseDigits("2");
    ParseDigits("32");
  }

  lemma SteadyStrings()
    ensures FormatCPU(4_000_000_000.0) == "4" && FormatMemory(3_000_000_000.0) == "3000000000"
  {
    FormatMemoryExactly(3_000_000_000.0);
    ThreeBillion();
  }

  lemma ThreeBillion()
    ensures Itoa(3_000_000_000) == "3000000000"
  {
    assert Digits(3) == "3";
    assert Digits(300) == "300";
    assert Digits(30_000) == "30000";
    assert Digits(3_000_000) == "3000000";
    assert Digits(300_000_000) == "300000000";
  }
}
