/** The adaptive settings and profiles of the repository's own configuration file meet the conditions of the results. */
module ShippedConfiguration {
  import opened Decimal
  import opened Quantities
  import opened Configuration
  import opened Adjustment
  import opened Feedback
  import opened Flapping

  const ADJUSTER := Adjuster(0.8, 0.3, 1.5, 1, "16", "32g")
  const HIGH_CPU := Profile("4", "8g", ["high-cpu*"], "8", "16g")
  const LOW_CPU := Profile("1", "2g", ["low-cpu*"], "", "")

  lemma Cpus(n: nat)
    ensures ParseCPUToNano(Itoa(n)) == FromUnits(Cpu, n * 100)
  {
    hide Itoa, ParseFloat;
    ParseItoa(n);
  }

  lemma Gibibytes(n: nat)
    ensures ParseMemToBytes(Itoa(n) + "g") == FromUnits(Mem, n * 1_073_741_824)
  {
    hide ParseMemToBytes, ParseMemory, Itoa;
    SuffixedMemory(n, 'g');
  }

  lemma Numerals()
    ensures Itoa(1) == "1" && Itoa(2) == "2" && Itoa(4) == "4" && Itoa(8) == "8" && Itoa(16) == "16" && Itoa(32) == "32"
  {
    assert Digits(1) == "1" && Digits(3) == "3";
  }

  lemma ShippedQuantities()
    ensures ParseCPUToNano("1") == 1_000_000_000.0 && ParseCPUToNano("4") == 4_000_000_000.0
    ensures ParseCPUToNano("8") == 8_000_000_000.0 && ParseCPUToNano("16") == 16_000_000_000.0
    ensures ParseMemToBytes("2g") == 2_147_483_648.0 && ParseMemToBytes("8g") == 8_589_934_592.0
    ensures ParseMemToBytes("16g") == 17_179_869_184.0 && ParseMemToBytes("32g") == 34_359_738_368.0
  {
    hide ParseCPUToNano, ParseMemToBytes, Itoa;
    Numerals();
    Cpus(1);
    Cpus(4);
    Cpus(8);
    Cpus(16);
    Gibibytes(2);
    Gibibytes(8);
    Gibibytes(16);
    Gibibytes(32);
    assert "2" + "g" == "2g" && "8" + "g" == "8g" && "16" + "g" == "16g" && "32" + "g" == "32g";
  }

  lemma Bounds(r: Resource, p: Profile)
    requires p == HIGH_CPU || p == LOW_CPU
    ensures var floor, ceiling := Baseline(r, p), Ceiling(r, ADJUSTER, p);
            Unit(r) * 100.0 <= floor <= ceiling && OnGrid(r, floor) && OnGrid(r, ceiling)
  {
    hide ParseCPUToNano, ParseMemToBytes;
    ShippedQuantities();
    UnitsOf(r, 100);
    UnitsOf(r, 400);
    UnitsOf(r, 800);
    UnitsOf(r, 1600);
  }

  /**
   With the shipped configuration both resources of both profiles can move, keep enforceable bounds, and never flap
   under constant demand, also with the rounding of printed quantities.
   */
  lemma ShippedConfigurationFits(r: Resource, p: Profile, demand: real)
    requires (p == HIGH_CPU || p == LOW_CPU) && 0.0 <= demand
    ensures LaneOf(r, ADJUSTER, p).Movable() && EnforceableBounds(r, ADJUSTER, p) && NeverFlaps(ADJUSTER)
    ensures var l := Loop(ADJUSTER, Printed(r), Baseline(r, p), Ceiling(r, ADJUSTER, p), demand); l.Valid() && l.Calm()
  {
    hide Baseline, Ceiling, OnGrid;
    Bounds(r, p);
    NeverFlapsExactly(ADJUSTER);
    SnapOnGrid(r, Baseline(r, p));
    SnapOnGrid(r, Ceiling(r, ADJUSTER, p));
  }

  // ----- Seven runs suffice -----

  lemma SevenPowers()
    ensures Power(1.5, 6) == 11.390625 && Power(1.5, 7) == 17.0859375
  {
    assert Power(1.5, 2) == 2.25;
    assert Power(1.5, 4) == 5.0625;
  }

  /** With the shipped configuration seven moves climb from any floor to its ceiling, and seven lead back down. */
  lemma SevenRunsSuffice(r: Resource, p: Profile)
    requires p == HIGH_CPU || p == LOW_CPU
    ensures var l := LaneOf(r, ADJUSTER, p);
            l.Movable() && ReachesCeiling(l, 7) && ReachesFloor(l, l.ceiling, 7)
  {
    hide OnGrid, Baseline, Ceiling, RoundsToCeiling, Times, Power, Lane.Rise, Unit, Slack, Gain, Loop.Valid, Loop.Calm;
    var l := LaneOf(r, ADJUSTER, p);
    ShippedConfigurationFits(r, p, 0.0);
    ShippedSpan(r, p);
    SevenPowers();
    RiseIsMost(l);
  }

  /** A step up is at least its amount less a printable unit. */
  lemma RiseIsMost(l: Lane)
    ensures l.FirstStep() - Unit(l.resource) <= l.Rise()
  {
    var y := InUnits(l.resource, l.FirstStep());
    assert y - 1.0 <= y.Floor as real;
  }

  lemma ShippedSpan(r: Resource, p: Profile)
    requires p == HIGH_CPU || p == LOW_CPU
    ensures var floor, ceiling := Baseline(r, p), Ceiling(r, ADJUSTER, p);
            0.0 < 100.0 * Unit(r) <= floor && ceiling <= 16.0 * floor
    ensures 0.0 <= 200.0 * Slack(r) <= Baseline(r, p)
    ensures 0.0 <= 200.0 * Gain(r) <= Baseline(r, p)
  {
    hide ParseCPUToNano, ParseMemToBytes;
    ShippedQuantities();
  }
}
