/**
 What every step keeps about allocations: which rows each runner's strings were chosen from, and that the row of a
 completed run carries what its runner was granted.
 */
module Grants {
  import opened Decimal
  import opened Quantities
  import opened Configuration
  import opened MetricsStore
  import opened Adjustment
  import opened RunnerStore
  import opened Provisioning
  import opened ScalerModel
  import opened Conservation

  /** The classifier's choice for the job, or the default profile for a placeholder of reconciliation. */
  ghost predicate RoutedName(c: Setup, jobName: string, profile: string) {
    profile in c.Profiles()
    && (profile == c.classifier.Classify(jobName)
        || (jobName == "unknown-reconcile" && profile == c.settings.defaultProfile))
  }

  /** The strings for a container: chosen from the rows there were when its history was read, else the baseline. */
  function GrantedStrings(c: Setup, s: State, jobName: string, p: Profile, id: ContainerID): Adjusted
    requires c.Valid()
  {
    if id in s.basis && s.basis[id] <= |s.rows| then Effective(c, s.rows[..s.basis[id]], jobName, p, true)
    else Adjusted(p.cpus, p.memory)
  }

  ghost predicate RunnerGranted(c: Setup, s: State, base: nat, r: Runner)
    requires c.Valid()
  {
    && r.containerID in s.fleet.created && RoutedName(c, r.jobName, r.profile)
    && (r.containerID in s.basis ==> base <= s.basis[r.containerID] <= |s.rows|)
    && Adjusted(r.cpus, r.memory) == GrantedStrings(c, s, r.jobName, c.Profiles()[r.profile], r.containerID)
  }

  /** The k-th row of the run allots what its container was granted from rows recorded before. */
  ghost predicate RowGranted(c: Setup, s: State, base: nat, k: nat)
    requires c.Valid() && k < |s.sources| && base + k < |s.rows|
  {
    var m, id := s.rows[base + k].record, s.sources[k].id;
    && id in s.fleet.created && RoutedName(c, m.jobName, m.profile)
    && (id in s.basis ==> base <= s.basis[id] <= base + k)
    && var e := GrantedStrings(c, s, m.jobName, c.Profiles()[m.profile], id);
       m.cpuAllocated == Trunc(ParseCPUToNano(e.cpus)) && m.memAllocated == Trunc(ParseMemToBytes(e.memory))
  }

  ghost predicate GrantsOk(c: Setup, s: State, base: nat)
    requires c.Valid()
  {
    && |s.rows| == base + |s.sources|
    && (forall n | n in s.Runners() :: RunnerGranted(c, s, base, s.Runners()[n]))
    && (forall k: nat | k < |s.sources| :: RowGranted(c, s, base, k))
  }

  /** A runner about to be started in the next container has the strings granted for it. */
  ghost predicate NextGranted(c: Setup, s: State, base: nat, r: Runner)
    requires c.Valid()
  {
    && RoutedName(c, r.jobName, r.profile)
    && (s.fleet.nextId in s.basis ==> base <= s.basis[s.fleet.nextId] <= |s.rows|)
    && Adjusted(r.cpus, r.memory) == GrantedStrings(c, s, r.jobName, c.Profiles()[r.profile], s.fleet.nextId)
  }

  lemma LaunchGrants(c: Setup, s: State, o: Outcome, r: Runner, base: nat)
    requires c.Valid() && GrantsOk(c, s, base) && NextGranted(c, s, base, r)
    ensures GrantsOk(c, Launch(s, o, r), base)
  {
    hide RunnerGranted, RowGranted, NextGranted;
    var t := Launch(s, o, r);
    LaunchedKeep(c, s, o, r, base);
    forall n | n in t.Runners() ensures RunnerGranted(c, t, base, t.Runners()[n]) {
      if o.Running? && n == r.name {
        LaunchedNext(c, s, o, r, base);
        assert t.Runners()[n] == r.(containerID := s.fleet.nextId, containerIP := o.ip, status := Idle);
      } else {
        assert n in s.Runners() && t.Runners()[n] == s.Runners()[n];
        assert RunnerGranted(c, s, base, s.Runners()[n]);
      }
    }
  }

  lemma LaunchedKeep(c: Setup, s: State, o: Outcome, r: Runner, base: nat)
    requires c.Valid() && |s.rows| == base + |s.sources|
    ensures var t := Launch(s, o, r);
            && (forall x :: RunnerGranted(c, s, base, x) ==> RunnerGranted(c, t, base, x))
            && (forall k: nat | k < |s.sources| :: RowGranted(c, s, base, k) ==> RowGranted(c, t, base, k))
  {
    hide RoutedName, Effective, ParseCPUToNano, ParseMemToBytes;
  }

  lemma LaunchedNext(c: Setup, s: State, o: Outcome, r: Runner, base: nat)
    requires c.Valid() && NextGranted(c, s, base, r) && o.Running?
    ensures RunnerGranted(c, Launch(s, o, r), base,
                          r.(containerID := s.fleet.nextId, containerIP := o.ip, status := Idle))
  {
    hide RoutedName, Effective;
  }

  /** Reading the history touches nothing that was granted before. */
  lemma ConsultedGrants(c: Setup, s: State, historyOk: bool, base: nat)
    requires c.Valid() && FleetOk(s.fleet) && GrantsOk(c, s, base)
    ensures GrantsOk(c, Consulted(c, s, historyOk), base)
  {
    hide RoutedName, Effective, ParseCPUToNano, ParseMemToBytes;
    var t := Consulted(c, s, historyOk);
    assert t.Runners() == s.Runners();
    assert s.fleet.nextId !in s.fleet.created;
    forall n | n in t.Runners() ensures RunnerGranted(c, t, base, t.Runners()[n]) {
      assert RunnerGranted(c, s, base, s.Runners()[n]);
    }
    forall k: nat | k < |t.sources| ensures RowGranted(c, t, base, k) {
      assert RowGranted(c, s, base, k);
    }
  }

  lemma ConsultedNext(c: Setup, s: State, r: Runner, historyOk: bool, base: nat)
    requires c.Valid() && base <= |s.rows| && RoutedName(c, r.jobName, r.profile)
    requires Adjusted(r.cpus, r.memory) == Effective(c, s.rows, r.jobName, c.Profiles()[r.profile], historyOk)
    ensures NextGranted(c, Consulted(c, s, historyOk), base, r)
  {
    hide RoutedName, Chosen, History;
    assert s.rows[..|s.rows|] == s.rows;
  }

  /** Runners may change status or go; what they were granted stays. */
  predicate SameGrants(s: State, t: State) {
    && t.rows == s.rows && t.sources == s.sources && t.basis == s.basis && t.fleet.created == s.fleet.created
    && (forall n | n in t.Runners() ::
          n in s.Runners() && t.Runners()[n] == s.Runners()[n].(status := t.Runners()[n].status))
  }

  lemma GrantsStay(c: Setup, s: State, t: State, base: nat)
    requires c.Valid() && GrantsOk(c, s, base) && SameGrants(s, t)
    ensures GrantsOk(c, t, base)
  {
    hide RoutedName, Effective, ParseCPUToNano, ParseMemToBytes;
    forall n | n in t.Runners() ensures RunnerGranted(c, t, base, t.Runners()[n]) {
      assert RunnerGranted(c, s, base, s.Runners()[n]);
    }
    forall k: nat | k < |t.sources| ensures RowGranted(c, t, base, k) {
      assert RowGranted(c, s, base, k);
    }
  }

  /** The row of a completed run carries what its runner was granted; earlier grants are from the same rows. */
  lemma RecordGrants(c: Setup, s: State, name: string, displayName: string, a: CompletionAnswer, base: nat)
    requires c.Valid() && GrantsOk(c, s, base) && name in s.Runners()
    ensures GrantsOk(c, RecordRun(c, s, s.Runners()[name], displayName, a), base)
  {
    hide RoutedName, Effective, ParseCPUToNano, ParseMemToBytes;
    var t := RecordRun(c, s, s.Runners()[name], displayName, a);
    assert t.Runners() == s.Runners();
    assert s.rows <= t.rows && forall n: nat | n <= |s.rows| :: t.rows[..n] == s.rows[..n];
    forall n | n in t.Runners() ensures RunnerGranted(c, t, base, t.Runners()[n]) {
      assert RunnerGranted(c, s, base, s.Runners()[n]);
    }
    forall k: nat | k < |t.sources| ensures RowGranted(c, t, base, k) {
      if k < |s.sources| {
        assert RowGranted(c, s, base, k);
      } else {
        assert RunnerGranted(c, s, base, s.Runners()[name]);
      }
    }
  }
}
