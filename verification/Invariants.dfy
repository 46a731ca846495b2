/**
 What holds in every reachable state of the scaler: conservation, routing, resource limits, and records that agree
 with what was enforced. One chain of inductions carries them through messages and whole runs.
 */
module Invariants {
  import opened Wrappers
  import opened Decimal
  import opened Strings
  import opened Quantities
  import opened Configuration
  import opened Classification
  import opened MetricsStore
  import opened Adjustment
  import opened RunnerStore
  import opened Provisioning
  import opened ScalerModel
  import opened Conservation
  import opened Grants

  // ----- Routing -----

  ghost predicate Placeholder(c: Setup, jobName: string, jobID: string, profile: string) {
    jobName == "unknown-reconcile" && profile == c.settings.defaultProfile
    && exists i: nat :: jobID == "reconcile-" + Itoa(i)
  }

  /** The profile is the classifier's choice for the job, or this is a placeholder of reconciliation. */
  ghost predicate RoutedJob(c: Setup, jobName: string, jobID: string, profile: string) {
    profile in c.Profiles()
    && (profile == c.classifier.Classify(jobName) || Placeholder(c, jobName, jobID, profile))
  }

  ghost predicate Routing(c: Setup, s: State) {
    && (forall j | j in s.pending ::
          s.pending[j].jobID == j && s.pending[j].profile == c.classifier.Classify(s.pending[j].displayName))
    && (forall n | n in s.Runners() ::
          var r := s.Runners()[n];
          n == RunnerName(r.profile, r.jobID) && RoutedJob(c, r.jobName, r.jobID, r.profile))
  }

  // ----- Limits -----

  /**
   With adaptive scaling, a limit lies between the profile's baseline and its effective ceiling whenever these bounds
   can be enforced; without, it is the baseline.
   */
  ghost predicate LimitOk(c: Setup, r: Resource, p: Profile, limit: int)
    requires c.Valid()
  {
    if c.settings.adaptive.enabled then
      AdjusterValid(c);
      EnforceableBounds(r, c.Scaling(), p) ==> Within(r, c.Scaling(), p, limit as real)
    else
      limit == Trunc(Baseline(r, p))
  }

  ghost predicate ContainerOk(c: Setup, profile: string, k: Container)
    requires c.Valid()
  {
    profile in c.Profiles()
    && LimitOk(c, Cpu, c.Profiles()[profile], k.nanoCPUs) && LimitOk(c, Mem, c.Profiles()[profile], k.memory)
  }

  /** Every container the scaler ever created was created for a profile, within that profile's limits. */
  ghost predicate LimitsOk(c: Setup, s: State)
    requires c.Valid()
  {
    forall id | id in s.fleet.created && id !in s.fleet.foreign ::
      id in s.origin && ContainerOk(c, s.origin[id].profile, s.fleet.created[id])
  }

  // ----- Records -----

  /** The quantity strings stand for the limits of the container. */
  predicate Describes(cpus: string, memory: string, k: Container) {
    k.nanoCPUs == Trunc(ParseCPUToNano(cpus)) && k.memory == Trunc(ParseMemToBytes(memory))
  }

  /** A row whose job name and profile are those that the source container was created for, and whose allocation is. */
  predicate RowAgrees(s: State, row: Row, source: Source) {
    var m, id := row.record, source.id;
    && id in s.fleet.created && id in s.origin && s.origin[id] == Origin(m.profile, m.jobName)
    && m.cpuAllocated == s.fleet.created[id].nanoCPUs && m.memAllocated == s.fleet.created[id].memory
  }

  /** Of the rows, the first `base` were there before; each later one records its source container's limits. */
  ghost predicate RecordsOk(s: State, base: nat) {
    && |s.rows| == base + |s.sources|
    && (forall k | 0 <= k < |s.sources| :: RowAgrees(s, s.rows[base + k], s.sources[k]))
    && (forall n | n in s.Runners() :: RunnerAgrees(s, s.Runners()[n]))
  }

  /** A runner whose job name, profile and quantity strings are those of its container. */
  predicate RunnerAgrees(s: State, r: Runner) {
    r.containerID in s.fleet.created && r.containerID in s.origin
    && s.origin[r.containerID] == Origin(r.profile, r.jobName)
    && Describes(r.cpus, r.memory, s.fleet.created[r.containerID])
  }

  ghost predicate Inv(c: Setup, s: State, base: nat)
    requires c.Valid()
  {
    Sound(s) && Routing(c, s) && LimitsOk(c, s) && RecordsOk(s, base) && GrantsOk(c, s, base)
  }

  // ----- A provisioning attempt -----

  /** The outcome's container carries the limits that the record describes. */
  predicate Enforces(o: Outcome, r: Runner) {
    o.Refused? || Describes(r.cpus, r.memory, o.container)
  }

  lemma OutcomeEnforces(f: Fleet, name: string, e: Adjusted, a: StartAnswer)
    ensures var o := StartOutcome(f, name, e.cpus, e.memory, a);
            o.Refused? ||
            (Enforced(Cpu, e.cpus) == Ok(o.container.nanoCPUs) && Enforced(Mem, e.memory) == Ok(o.container.memory)
             && Describes(e.cpus, e.memory, o.container))
  {
    hide NameTaken, ParseCPUs, ParseMemory, ParseCPUToNano, ParseMemToBytes;
    ParsersAgree(e.cpus);
    ParsersAgree(e.memory);
  }

  /** What `Effective` chooses is enforced within the limits of the profile. */
  lemma EffectiveWithin(c: Setup, rows: seq<Row>, displayName: string, p: Profile, historyOk: bool)
    requires c.Valid()
    ensures var e := Effective(c, rows, displayName, p, historyOk);
            && (Enforced(Cpu, e.cpus).Ok? ==> LimitOk(c, Cpu, p, Enforced(Cpu, e.cpus).value))
            && (Enforced(Mem, e.memory).Ok? ==> LimitOk(c, Mem, p, Enforced(Mem, e.memory).value))
  {
    hide Enforced, Chosen, LimitOk, History;
    if c.settings.adaptive.enabled && historyOk {
      AdjusterValid(c);
      AdjustedWithin(c, Cpu, p, History(rows, displayName, c.Scaling().historyWindow));
      AdjustedWithin(c, Mem, p, History(rows, displayName, c.Scaling().historyWindow));
    } else {
      BaselineWithin(c, Cpu, p);
      BaselineWithin(c, Mem, p);
    }
  }

  lemma AdjustedWithin(c: Setup, r: Resource, p: Profile, h: seq<MetricsRecord>)
    requires c.Valid() && c.settings.adaptive.enabled
    ensures c.Scaling().Valid()
    ensures var limit := Enforced(r, Chosen(r, c.Scaling(), p, h)); limit.Ok? ==> LimitOk(c, r, p, limit.value)
  {
    AdjusterValid(c);
    hide Enforced, Chosen, EnforceableBounds, Within;
    if EnforceableBounds(r, c.Scaling(), p) {
      EnforcedWithin(r, c.Scaling(), p, h);
    }
  }

  lemma BaselineWithin(c: Setup, r: Resource, p: Profile)
    requires c.Valid()
    ensures var limit := Enforced(r, BaselineText(r, p)); limit.Ok? ==> LimitOk(c, r, p, limit.value)
  {
    if c.settings.adaptive.enabled {
      AdjusterValid(c);
      AdjustedWithin(c, r, p, []);
      ShortHistory(r, c.Scaling(), p, []);
    } else {
      EnforcedIsParsed(r, BaselineText(r, p));
    }
  }

  ghost predicate Job(c: Setup, job: PendingJob) {
    RoutedJob(c, job.displayName, job.jobID, job.profile)
  }

  lemma LaunchRouting(c: Setup, s: State, o: Outcome, job: PendingJob, e: Adjusted)
    requires Routing(c, s) && Job(c, job)
    ensures Routing(c, Launch(s, o, NewRunner(job.displayName, job.jobID, job.profile, e)))
  {
    hide RoutedJob, Classifier.Classify, RunnerName;
    var t := Launch(s, o, NewRunner(job.displayName, job.jobID, job.profile, e));
    forall n | n in t.Runners() ensures
        var r := t.Runners()[n];
        n == RunnerName(r.profile, r.jobID) && RoutedJob(c, r.jobName, r.jobID, r.profile)
    {
      if !(o.Running? && n == RunnerName(job.profile, job.jobID)) {
        assert n in s.Runners();
      }
    }
  }

  lemma LaunchLimits(c: Setup, s: State, o: Outcome, r: Runner)
    requires c.Valid() && FleetOk(s.fleet) && LimitsOk(c, s)
    requires o.Refused? || ContainerOk(c, r.profile, o.container)
    ensures LimitsOk(c, Launch(s, o, r))
  {
    hide ContainerOk;
  }

  lemma LaunchRecords(s: State, o: Outcome, r: Runner, base: nat)
    requires FleetOk(s.fleet) && RecordsOk(s, base) && Enforces(o, r)
    ensures RecordsOk(Launch(s, o, r), base)
  {
    hide Describes;
    var t := Launch(s, o, r);
    forall k | 0 <= k < |s.sources| ensures RowAgrees(t, t.rows[base + k], t.sources[k]) {
      assert RowAgrees(s, s.rows[base + k], s.sources[k]);
    }
    forall n | n in t.Runners() ensures RunnerAgrees(t, t.Runners()[n]) {
      if !(o.Running? && n == r.name) {
        assert n in s.Runners();
      }
    }
  }

  lemma LaunchInv(c: Setup, s: State, o: Outcome, job: PendingJob, e: Adjusted, base: nat)
    requires c.Valid() && Inv(c, s, base) && Job(c, job)
    requires Allowed(s.fleet, o, RunnerName(job.profile, job.jobID))
    requires o.Refused? || (ContainerOk(c, job.profile, o.container) && Describes(e.cpus, e.memory, o.container))
    requires NextGranted(c, s, base, NewRunner(job.displayName, job.jobID, job.profile, e))
    ensures Inv(c, Launch(s, o, NewRunner(job.displayName, job.jobID, job.profile, e)), base)
  {
    hide FleetOk, TrackedOk, Accounted, StopsOk, ViewsOk, NoneCompleted, Allowed, Routing, LimitsOk, RecordsOk,
      ContainerOk, Describes, Launch, RunnerName, Job, GrantsOk, NextGranted;
    var r := NewRunner(job.displayName, job.jobID, job.profile, e);
    LaunchKeeps(s, o, r);
    LaunchRouting(c, s, o, job, e);
    LaunchLimits(c, s, o, r);
    LaunchRecords(s, o, r, base);
    LaunchGrants(c, s, o, r, base);
  }

  /** States that differ only in the pending map and the log. */
  predicate SameButPending(s: State, t: State) {
    s.tracker == t.tracker && s.fleet == t.fleet && s.rows == t.rows && s.sources == t.sources && s.origin == t.origin
    && s.basis == t.basis
  }

  ghost predicate PendingOk(c: Setup, pending: map<string, PendingJob>) {
    forall j | j in pending ::
      pending[j].jobID == j && pending[j].profile == c.classifier.Classify(pending[j].displayName)
  }

  lemma PendingChange(c: Setup, s: State, t: State, base: nat)
    requires c.Valid() && Inv(c, s, base) && SameButPending(s, t) && PendingOk(c, t.pending)
    ensures Inv(c, t, base)
  {
    hide Core, Classifier.Classify, RoutedJob, ContainerOk, Describes, Routing, RecordsOk, GrantsOk;
    assert t.Runners() == s.Runners();
    SameWorldKeeps(s, t);
    PendingRouting(c, s, t);
    PendingRecords(s, t, base);
    GrantsStay(c, s, t, base);
  }

  lemma ConsultedKeeps(c: Setup, s: State, historyOk: bool, base: nat)
    requires c.Valid() && Inv(c, s, base)
    ensures Inv(c, Consulted(c, s, historyOk), base)
  {
    hide FleetOk, TrackedOk, Accounted, StopsOk, ViewsOk, ContainerOk, RoutedJob, RunnerName, Classifier.Classify,
      Describes, GrantsOk;
    var t := Consulted(c, s, historyOk);
    assert t.Runners() == s.Runners();
    SameWorldKeeps(s, t);
    ConsultedGrants(c, s, historyOk, base);
    forall k | 0 <= k < |t.sources| ensures RowAgrees(t, t.rows[base + k], t.sources[k]) {
      assert RowAgrees(s, s.rows[base + k], s.sources[k]);
    }
  }

  lemma PendingRouting(c: Setup, s: State, t: State)
    requires Routing(c, s) && SameButPending(s, t) && PendingOk(c, t.pending)
    ensures Routing(c, t)
  {
    hide Classifier.Classify, RoutedJob, RunnerName;
    assert t.Runners() == s.Runners();
  }

  lemma PendingRecords(s: State, t: State, base: nat)
    requires RecordsOk(s, base) && SameButPending(s, t)
    ensures RecordsOk(t, base)
  {
    hide Describes;
    assert t.Runners() == s.Runners();
    forall k | 0 <= k < |t.sources| ensures RowAgrees(t, t.rows[base + k], t.sources[k]) {
      assert RowAgrees(s, s.rows[base + k], s.sources[k]);
    }
  }

  lemma ProvisionKeeps(c: Setup, s: State, job: PendingJob, a: ProvisionAnswer, base: nat)
    requires c.Valid() && Inv(c, s, base) && Job(c, job)
    ensures Inv(c, Provision(c, s, job, a), base)
  {
    hide Inv, Allowed, ContainerOk, Describes, StartOutcome, Launch, RunnerName, Effective, LimitOk, Consulted,
      NextGranted;
    var name := RunnerName(job.profile, job.jobID);
    var s1 := s.(log := s.log + [Requested(name)]);
    LogKeeps(c, s, s.log + [Requested(name)], base);
    if a.jitOk {
      var p := c.Profiles()[job.profile];
      var e := Effective(c, s.rows, job.displayName, p, a.historyOk);
      var o := StartOutcome(s.fleet, name, e.cpus, e.memory, a.start);
      OutcomeAllowed(s.fleet, name, e.cpus, e.memory, a.start);
      OutcomeEnforces(s.fleet, name, e, a.start);
      EffectiveWithin(c, s.rows, job.displayName, p, a.historyOk);
      if !o.Refused? {
        ContainerOkFrom(c, job.profile, o.container);
      }
      ConsultedKeeps(c, s1, a.historyOk, base);
      JobGranted(c, s1, job, e, a.historyOk, base);
      assert Consulted(c, s1, a.historyOk).fleet == s.fleet by { ConsultedSame(c, s1, a.historyOk); }
      LaunchInv(c, Consulted(c, s1, a.historyOk), o, job, e, base);
    }
  }

  lemma ConsultedSame(c: Setup, s: State, historyOk: bool)
    ensures Consulted(c, s, historyOk).fleet == s.fleet
  {}

  lemma JobGranted(c: Setup, s: State, job: PendingJob, e: Adjusted, historyOk: bool, base: nat)
    requires c.Valid() && Inv(c, s, base) && Job(c, job)
    requires e == Effective(c, s.rows, job.displayName, c.Profiles()[job.profile], historyOk)
    ensures NextGranted(c, Consulted(c, s, historyOk), base, NewRunner(job.displayName, job.jobID, job.profile, e))
  {
    hide Sound, Routing, LimitsOk, Classifier.Classify, Effective, NextGranted, RunnerName, Consulted;
    ConsultedNext(c, s, NewRunner(job.displayName, job.jobID, job.profile, e), historyOk, base);
  }

  lemma ContainerOkFrom(c: Setup, profile: string, k: Container)
    requires c.Valid() && profile in c.Profiles()
    requires LimitOk(c, Cpu, c.Profiles()[profile], k.nanoCPUs) && LimitOk(c, Mem, c.Profiles()[profile], k.memory)
    ensures ContainerOk(c, profile, k)
  {}

  lemma LogKeeps(c: Setup, s: State, log: seq<Effect>, base: nat)
    requires c.Valid() && Inv(c, s, base)
    ensures Inv(c, s.(log := log), base)
  {
    PendingChange(c, s, s.(log := log), base);
  }

  // ----- Handlers -----

  /** The invariant apart from the runners' status. */
  ghost predicate Books(c: Setup, s: State, base: nat)
    requires c.Valid()
  {
    Core(s) && Routing(c, s) && LimitsOk(c, s) && RecordsOk(s, base) && GrantsOk(c, s, base)
  }

  lemma MarkedBooks(c: Setup, s: State, name: string, status: Status, base: nat)
    requires c.Valid() && Books(c, s, base)
    requires name in s.Runners() ==> Rank(s.Runners()[name].status) <= Rank(status)
    ensures Books(c, Marked(s, name, status), base)
  {
    hide Core, Routing, RecordsOk, ContainerOk, GrantsOk;
    MarkedKeeps(s, name, status);
    MarkedRest(c, s, name, status, base);
    GrantsStay(c, s, Marked(s, name, status), base);
  }

  lemma MarkedRest(c: Setup, s: State, name: string, status: Status, base: nat)
    requires Routing(c, s) && RecordsOk(s, base)
    ensures Routing(c, Marked(s, name, status)) && RecordsOk(Marked(s, name, status), base)
  {
    hide RoutedJob, Describes, RunnerName, Classifier.Classify;
    var t := Marked(s, name, status);
    forall k | 0 <= k < |t.sources| ensures RowAgrees(t, t.rows[base + k], t.sources[k]) {
      assert RowAgrees(s, s.rows[base + k], s.sources[k]);
    }
    assert forall n | n in t.Runners() ::
        n in s.Runners() && t.Runners()[n] == s.Runners()[n].(status := t.Runners()[n].status);
  }

  lemma RetireBooks(c: Setup, s: State, name: string, id: ContainerID, a: StopAnswer, base: nat)
    requires c.Valid() && Books(c, s, base) && Present(s.Runners(), name, id)
    ensures Books(c, Retire(s, name, id, a), base)
  {
    hide Core, Routing, RecordsOk, ContainerOk, GrantsOk;
    RetireKeeps(s, name, id, a);
    RetireRest(c, s, name, id, a, base);
    GrantsStay(c, s, Retire(s, name, id, a), base);
  }

  lemma RetireRest(c: Setup, s: State, name: string, id: ContainerID, a: StopAnswer, base: nat)
    requires Routing(c, s) && RecordsOk(s, base)
    ensures Routing(c, Retire(s, name, id, a)) && RecordsOk(Retire(s, name, id, a), base)
  {
    hide RoutedJob, Describes, RunnerName, Classifier.Classify;
    var t := Retire(s, name, id, a);
    forall k | 0 <= k < |t.sources| ensures RowAgrees(t, t.rows[base + k], t.sources[k]) {
      assert RowAgrees(s, s.rows[base + k], s.sources[k]);
    }
    assert forall n | n in t.Runners() :: n in s.Runners() && t.Runners()[n] == s.Runners()[n];
  }

  /** The row that completion writes carries the limits with which the runner's container was started. */
  lemma RecordBooks(c: Setup, s: State, name: string, displayName: string, a: CompletionAnswer, base: nat)
    requires c.Valid() && Books(c, s, base) && name in s.Runners()
    ensures Books(c, RecordRun(c, s, s.Runners()[name], displayName, a), base)
  {
    hide Core, Routing, ContainerOk, GrantsOk, RunRecord;
    var t := RecordRun(c, s, s.Runners()[name], displayName, a);
    assert t.Runners() == s.Runners();
    SameWorldKeeps(s, t);
    RecordRouting(c, s, t);
    RecordRecords(c, s, name, displayName, a, base);
    RecordGrants(c, s, name, displayName, a, base);
  }

  lemma RecordRouting(c: Setup, s: State, t: State)
    requires Routing(c, s) && s.pending == t.pending && s.tracker == t.tracker
    ensures Routing(c, t)
  {
    assert t.Runners() == s.Runners();
  }

  lemma RecordRecords(c: Setup, s: State, name: string, displayName: string, a: CompletionAnswer, base: nat)
    requires RecordsOk(s, base) && name in s.Runners()
    ensures RecordsOk(RecordRun(c, s, s.Runners()[name], displayName, a), base)
  {
    var r := s.Runners()[name];
    var t := RecordRun(c, s, r, displayName, a);
    assert t.Runners() == s.Runners();
    forall k | 0 <= k < |t.sources| ensures RowAgrees(t, t.rows[base + k], t.sources[k]) {
      if k < |s.sources| {
        assert RowAgrees(s, s.rows[base + k], s.sources[k]);
      } else {
        assert RunnerAgrees(s, r);
      }
    }
  }

  lemma BooksInv(c: Setup, s: State, base: nat)
    requires c.Valid()
    ensures Inv(c, s, base) <==> Books(c, s, base) && NoneCompleted(s)
  {}

  lemma DropPending(c: Setup, s: State, jobID: string, base: nat)
    requires c.Valid() && Inv(c, s, base)
    ensures Inv(c, s.(pending := s.pending - {jobID}), base)
  {
    hide Sound, LimitsOk, RecordsOk, RoutedJob;
    PendingChange(c, s, s.(pending := s.pending - {jobID}), base);
  }

  lemma AddPending(c: Setup, s: State, job: PendingJob, base: nat)
    requires c.Valid() && Inv(c, s, base) && job.profile == c.classifier.Classify(job.displayName)
    ensures Inv(c, s.(pending := s.pending[job.jobID := job]), base)
  {
    hide Sound, LimitsOk, RecordsOk, RoutedJob;
    PendingChange(c, s, s.(pending := s.pending[job.jobID := job]), base);
  }

  lemma AssignKeeps(c: Setup, s: State, job: AssignedJob, a: ProvisionAnswer, base: nat)
    requires c.Valid() && Inv(c, s, base)
    ensures c.classifier.Classify(job.displayName) in c.Profiles()
    ensures Inv(c, Assign(c, s, job, a), base)
  {
    hide Inv, Classifier.Classify, Provision, Placeholder;
    ClassifyFindsProfile(c.settings, c.classifier.matches, job.displayName);
    var p := PendingJob(job.jobID, job.displayName, c.classifier.Classify(job.displayName));
    AddPending(c, s, p, base);
    ProvisionKeeps(c, s.(pending := s.pending[job.jobID := p]), p, a, base);
  }

  lemma StartKeeps(c: Setup, s: State, job: StartedJob, base: nat)
    requires c.Valid() && Inv(c, s, base)
    ensures Inv(c, Start(s, job), base)
  {
    BooksInv(c, s, base);
    StartBooks(c, s, job, base);
    var t := Marked(s, job.runnerName, Busy);
    BooksInv(c, t, base);
    DropPending(c, t, job.jobID, base);
    assert Start(s, job) == t.(pending := t.pending - {job.jobID});
  }

  lemma StartBooks(c: Setup, s: State, job: StartedJob, base: nat)
    requires c.Valid() && Books(c, s, base) && NoneCompleted(s)
    ensures Books(c, Marked(s, job.runnerName, Busy), base) && NoneCompleted(Marked(s, job.runnerName, Busy))
  {
    hide Books;
    MarkedBooks(c, s, job.runnerName, Busy, base);
    var t := Marked(s, job.runnerName, Busy);
    assert forall n | n in t.Runners() :: n in s.Runners() && (n == job.runnerName || t.Runners()[n] == s.Runners()[n]);
  }

  lemma CompleteKeeps(c: Setup, s: State, job: CompletedJob, a: CompletionAnswer, base: nat)
    requires c.Valid() && Inv(c, s, base)
    ensures Inv(c, Complete(c, s, job, a), base)
  {
    hide Inv, Books, NoneCompleted, RecordRun, Retire;
    var s1 := s.(pending := s.pending - {job.jobID});
    DropPending(c, s, job.jobID, base);
    if job.runnerName != "" {
      var s2 := Marked(s1, job.runnerName, Completed);
      BooksInv(c, s1, base);
      MarkedBooks(c, s1, job.runnerName, Completed, base);
      if job.runnerName in s2.Runners() {
        var r := s2.Runners()[job.runnerName];
        RecordBooks(c, s2, job.runnerName, job.displayName, a, base);
        RetireAfterRecord(c, s1, job.runnerName, job.displayName, a, base);
        BooksInv(c, Retire(RecordRun(c, s2, r, job.displayName, a), job.runnerName, r.containerID, a.stop), base);
      } else {
        assert s2 == s1;
      }
    }
  }

  lemma RetireAfterRecord(c: Setup, s: State, name: string, displayName: string, a: CompletionAnswer, base: nat)
    requires c.Valid() && NoneCompleted(s) && name in s.Runners()
    requires var s2 := Marked(s, name, Completed); Books(c, RecordRun(c, s2, s2.Runners()[name], displayName, a), base)
    ensures var s2 := Marked(s, name, Completed);
            var t := Retire(RecordRun(c, s2, s2.Runners()[name], displayName, a), name, s2.Runners()[name].containerID,
                            a.stop);
            Books(c, t, base) && NoneCompleted(t)
  {
    hide Books;
    var s2 := Marked(s, name, Completed);
    var r := s2.Runners()[name];
    var s3 := RecordRun(c, s2, r, displayName, a);
    assert s3.Runners() == s2.Runners();
    RetireBooks(c, s3, name, r.containerID, a.stop, base);
    var t := Retire(s3, name, r.containerID, a.stop);
    assert forall n | n in t.Runners() :: n in s.Runners() && t.Runners()[n] == s.Runners()[n];
  }

  // ----- Messages -----

  lemma {:induction false} AssignAllKeeps(
      c: Setup, s: State, jobs: seq<AssignedJob>, a: nat -> ProvisionAnswer, base: nat)
    requires c.Valid() && Inv(c, s, base)
    ensures Inv(c, AssignAll(c, s, jobs, a), base)
  {
    hide Inv, Assign;
    if jobs != [] {
      AssignAllKeeps(c, s, jobs[..|jobs| - 1], a, base);
      AssignKeeps(c, AssignAll(c, s, jobs[..|jobs| - 1], a), jobs[|jobs| - 1], a(|jobs| - 1), base);
    }
  }

  lemma {:induction false} StartAllKeeps(c: Setup, s: State, jobs: seq<StartedJob>, base: nat)
    requires c.Valid() && Inv(c, s, base)
    ensures Inv(c, StartAll(s, jobs), base)
  {
    hide Inv, Start;
    if jobs != [] {
      StartAllKeeps(c, s, jobs[..|jobs| - 1], base);
      StartKeeps(c, StartAll(s, jobs[..|jobs| - 1]), jobs[|jobs| - 1], base);
    }
  }

  lemma {:induction false} CompleteAllKeeps(
      c: Setup, s: State, jobs: seq<CompletedJob>, a: nat -> CompletionAnswer, base: nat)
    requires c.Valid() && Inv(c, s, base)
    ensures Inv(c, CompleteAll(c, s, jobs, a), base)
  {
    hide Inv, Complete;
    if jobs != [] {
      CompleteAllKeeps(c, s, jobs[..|jobs| - 1], a, base);
      CompleteKeeps(c, CompleteAll(c, s, jobs[..|jobs| - 1], a), jobs[|jobs| - 1], a(|jobs| - 1), base);
    }
  }

  /** Every candidate of reconciliation is a routed job. */
  lemma CandidateRouted(c: Setup, s: State, order: set<string> -> seq<string>, i: nat)
    requires c.Valid() && Routing(c, s) && Enumerates(order(s.pending.Keys), s.pending.Keys)
    ensures Job(c, CandidateAt(c, PendingList(s, order), i))
  {
    hide Classifier.Classify, Itoa;
    var list := PendingList(s, order);
    ValidMeans(c.settings);
    if i < |list| {
      assert order(s.pending.Keys)[i] in order(s.pending.Keys);
      ClassifyFindsProfile(c.settings, c.classifier.matches, list[i].displayName);
    } else {
      assert "reconcile-" + Itoa(i) == "reconcile-" + Itoa(i);
    }
  }

  lemma {:induction false} AttemptsKeep(
      c: Setup, s: State, list: seq<PendingJob>, a: nat -> ProvisionAnswer, n: nat, base: nat)
    requires c.Valid() && Inv(c, s, base) && forall i: nat | i < n :: Job(c, CandidateAt(c, list, i))
    ensures Inv(c, Attempts(c, s, list, a, n), base)
    decreases n
  {
    hide Inv, Job, CandidateAt, Provision;
    if n != 0 {
      AttemptsKeep(c, s, list, a, n - 1, base);
      assert Job(c, CandidateAt(c, list, n - 1));
      ProvisionJob(c, Attempts(c, s, list, a, n - 1), CandidateAt(c, list, n - 1), a(n - 1), base);
    }
  }

  lemma ProvisionJob(c: Setup, s: State, job: PendingJob, a: ProvisionAnswer, base: nat)
    requires c.Valid() && Inv(c, s, base) && Job(c, job)
    ensures job.profile in c.Profiles() && Inv(c, Attempt(c, s, job, a), base)
  {
    hide Inv, Provision;
    ProvisionKeeps(c, s, job, a, base);
  }

  lemma HandleKeeps(c: Setup, s: State, m: Message, answers: Answers, base: nat)
    requires c.Valid() && answers.Valid() && Inv(c, s, base)
    ensures Inv(c, HandleJobs(c, s, m, answers), base) && Inv(c, Handle(c, s, m, answers), base)
  {
    hide Inv, AssignAll, StartAll, CompleteAll, Attempts, CandidateAt, Job, PendingList;
    AssignAllKeeps(c, s, m.assignments, answers.assign, base);
    StartAllKeeps(c, AssignAll(c, s, m.assignments, answers.assign), m.started, base);
    CompleteAllKeeps(c, StartAll(AssignAll(c, s, m.assignments, answers.assign), m.started), m.completed,
                     answers.complete, base);
    if m.totalAssigned.Some? {
      ReconcileKeeps(c, HandleJobs(c, s, m, answers), m.totalAssigned.value, answers, base);
    }
  }

  lemma ReconcileKeeps(c: Setup, s: State, total: int, answers: Answers, base: nat)
    requires c.Valid() && answers.Valid() && Inv(c, s, base)
    ensures Inv(c, Reconcile(c, s, total, answers), base)
  {
    InvRouting(c, s, base);
    hide Inv, Routing, Attempts, CandidateAt, Job, PendingList, Enumerates;
    if 0 < Deficit(s, total) {
      assert Enumerates(answers.order(s.pending.Keys), s.pending.Keys);
      var list := PendingList(s, answers.order);
      forall i: nat ensures Job(c, CandidateAt(c, list, i)) {
        CandidateRouted(c, s, answers.order, i);
      }
      AttemptsKeep(c, s, list, answers.reconcile, Deficit(s, total), base);
    }
  }

  lemma InvRouting(c: Setup, s: State, base: nat)
    requires c.Valid() && Inv(c, s, base)
    ensures Routing(c, s)
  {}

  // ----- Runs -----

  lemma TurnKeeps(c: Setup, m: Machine, poll: Poll, base: nat)
    requires c.Valid() && poll.Valid() && Inv(c, m.state, base)
    ensures Inv(c, Turn(c, m, poll).state, base)
  {
    hide Inv, Handle, Capacity;
    var s1 := Log(m.state, Polled(m.lastID, Capacity(c, m.state)));
    LogKeeps(c, m.state, s1.log, base);
    if poll.Delivered? {
      var s2 := Log(s1, Acked(poll.message.id));
      LogKeeps(c, s1, s2.log, base);
      HandleKeeps(c, s2, poll.message, poll.answers, base);
    }
  }

  /** Whatever messages arrive and whichever calls fail, the invariant holds after every poll of every run. */
  lemma {:induction false} RunKeeps(c: Setup, s: State, polls: seq<Poll>, base: nat)
    requires c.Valid() && (forall p | p in polls :: p.Valid()) && Inv(c, s, base)
    ensures Inv(c, Run(c, s, polls).state, base)
  {
    hide Inv, Turn;
    if polls != [] {
      RunKeeps(c, s, polls[..|polls| - 1], base);
      TurnKeeps(c, Run(c, s, polls[..|polls| - 1]), polls[|polls| - 1], base);
    }
  }

  /** Docker as the scaler may find it: whatever exists has distinct names and used-up IDs. */
  ghost predicate DockerWorld(existing: map<ContainerID, Container>, nextId: ContainerID) {
    && (forall id | id in existing :: id < nextId)
    && (forall i, j | i in existing && j in existing && existing[i].name == existing[j].name :: i == j)
  }

  lemma InitialInv(c: Setup, existing: map<ContainerID, Container>, nextId: ContainerID, rows: seq<Row>)
    requires c.Valid() && DockerWorld(existing, nextId)
    ensures Inv(c, Initial(existing, nextId, rows), |rows|)
  {
    hide ContainerOk, RoutedJob;
    var s := Initial(existing, nextId, rows);
    assert forall id :: !Tracks(s.Runners(), id);
  }
}
