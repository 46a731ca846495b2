/**
 The run-level results: what holds after every poll of every run that starts with a fresh scaler, over any Docker
 world, metrics table, sequence of polls and pattern of failures.
 */
module Runs {
  import opened Decimal
  import opened Quantities
  import opened Configuration
  import opened Classification
  import opened MetricsStore
  import opened Adjustment
  import opened RunnerStore
  import opened Provisioning
  import opened ScalerModel
  import opened Conservation
  import opened Grants
  import opened Invariants

  /** Where a run starts: a validated configuration, and whatever Docker and the metrics table contain. */
  ghost predicate Start(c: Setup, existing: map<ContainerID, Container>, nextId: ContainerID, polls: seq<Poll>) {
    c.Valid() && DockerWorld(existing, nextId) && forall p | p in polls :: p.Valid()
  }

  ghost function Final(
      c: Setup, existing: map<ContainerID, Container>, nextId: ContainerID, rows: seq<Row>, polls: seq<Poll>): State
    requires Start(c, existing, nextId, polls)
  {
    Run(c, Initial(existing, nextId, rows), polls).state
  }

  lemma FinalInv(c: Setup, existing: map<ContainerID, Container>, nextId: ContainerID, rows: seq<Row>, polls: seq<Poll>)
    requires Start(c, existing, nextId, polls)
    ensures var s := Final(c, existing, nextId, rows, polls);
            Inv(c, s, |rows|) && s.fleet.foreign == existing.Keys
  {
    hide Inv, Run;
    InitialInv(c, existing, nextId, rows);
    RunKeeps(c, Initial(existing, nextId, rows), polls, |rows|);
    assert Initial(existing, nextId, rows).fleet.foreign == existing.Keys;
  }

  /**
   Conservation: every existing container is tracked under its own name, or was there before, or is in exactly one
   leak set; and nothing that was there before has gone.
   */
  lemma ContainersConserved(
      c: Setup, existing: map<ContainerID, Container>, nextId: ContainerID, rows: seq<Row>, polls: seq<Poll>)
    requires Start(c, existing, nextId, polls)
    ensures var s := Final(c, existing, nextId, rows, polls);
            && (forall id | id in s.fleet.containers ::
                  One(Tracks(s.Runners(), id)) + One(id in existing) + One(id in s.fleet.startLeaks)
                  + One(id in s.fleet.inspectLeaks) + One(id in s.fleet.stopLeaks) == 1)
            && (forall n | n in s.Runners() :: s.Runners()[n].containerID in s.fleet.containers
                                               && s.fleet.containers[s.Runners()[n].containerID].name == n)
            && (forall id | id in existing :: id in s.fleet.containers)
  {
    hide Final, FleetOk, StopsOk, ViewsOk, Routing, LimitsOk, RecordsOk, GrantsOk, NoneCompleted;
    FinalInv(c, existing, nextId, rows, polls);
    var s := Final(c, existing, nextId, rows, polls);
    forall id | id in s.fleet.containers || id in existing
      ensures Places(s, id) == One(id in s.fleet.containers)
    {}
  }

  /** The message loop calls stop on no container twice, and on none that it still tracks. */
  lemma StoppedOnce(
      c: Setup, existing: map<ContainerID, Container>, nextId: ContainerID, rows: seq<Row>, polls: seq<Poll>)
    requires Start(c, existing, nextId, polls)
    ensures var s := Final(c, existing, nextId, rows, polls);
            && (forall i, j | 0 <= i < j < |s.fleet.stopCalls| :: s.fleet.stopCalls[i] != s.fleet.stopCalls[j])
            && (forall n | n in s.Runners() :: s.Runners()[n].containerID !in s.fleet.stopCalls)
  {
    hide Final, FleetOk, Accounted, ViewsOk, Routing, LimitsOk, RecordsOk, GrantsOk, NoneCompleted, TrackedOk;
    FinalInv(c, existing, nextId, rows, polls);
    var s := Final(c, existing, nextId, rows, polls);
    forall n | n in s.Runners() ensures s.Runners()[n].containerID !in s.fleet.stopCalls {
      assert Present(s.Runners(), n, s.Runners()[n].containerID);
    }
  }

  /** Provisioning never overwrites a tracked runner: those tracked before stay as they are. */
  lemma ProvisionKeepsOthers(c: Setup, s: State, job: PendingJob, a: ProvisionAnswer)
    requires c.Valid() && Sound(s) && job.profile in c.Profiles()
    ensures forall n | n in s.Runners() ::
              n in Provision(c, s, job, a).Runners() && Provision(c, s, job, a).Runners()[n] == s.Runners()[n]
  {
    hide Effective, RunnerName, FleetOk, Accounted, StopsOk, ViewsOk, NoneCompleted, NameTaken, Limits, TrackedOk,
      StartOutcome;
    if a.jitOk {
      var name := RunnerName(job.profile, job.jobID);
      var e := Effective(c, s.rows, job.displayName, c.Profiles()[job.profile], a.historyOk);
      OutcomeAllowed(s.fleet, name, e.cpus, e.memory, a.start);
      if !NameTaken(s.fleet.containers, name) {
        FreeNameUntracked(s, name);
      }
    }
  }

  /**
   A started job makes its runner busy; a completed one makes it completed and then gone, in two critical sections, so
   that readers can see both. Other runners are not touched.
   */
  lemma StatusSteps(c: Setup, s: State, name: string, jobID: string, displayName: string, a: CompletionAnswer)
    requires name != "" && name in s.Runners()
    ensures var t := ScalerModel.Start(s, StartedJob(jobID, name));
            && t.Runners() == s.Runners()[name := s.Runners()[name].(status := Busy)]
            && t.tracker.views == s.tracker.views + [t.Runners()]
    ensures var t := Complete(c, s, CompletedJob(jobID, displayName, name), a);
            && t.Runners() == s.Runners() - {name}
            && t.tracker.views ==
               s.tracker.views + [s.Runners()[name := s.Runners()[name].(status := Completed)]] + [t.Runners()]
  {
    hide StopRunner, RunRecord;
    var marked := s.Runners()[name := s.Runners()[name].(status := Completed)];
    assert marked - {name} == s.Runners() - {name};
  }

  /**
   Completing a job calls stop on its runner's container, once, and removes it; if the removal fails, the container is
   leaked. All other containers stay.
   */
  lemma CompletionRetires(c: Setup, s: State, name: string, jobID: string, displayName: string, a: CompletionAnswer)
    requires Sound(s) && name != "" && name in s.Runners()
    ensures var t := Complete(c, s, CompletedJob(jobID, displayName, name), a);
            var id := s.Runners()[name].containerID;
            && t.fleet.stopCalls == s.fleet.stopCalls + [id]
            && t.fleet.containers == (if a.stop.removeOk then s.fleet.containers - {id} else s.fleet.containers)
            && t.fleet.stopLeaks == (if a.stop.removeOk then s.fleet.stopLeaks else s.fleet.stopLeaks + {id})
  {
    hide FleetOk, Accounted, StopsOk, ViewsOk, NoneCompleted, RunRecord;
  }

  /**
   Lifecycle: a reader that looks up runners between any two critical sections sees each container under one name,
   with a status that only advances, and never again once it is gone.
   */
  lemma LifecycleObserved(
      c: Setup, existing: map<ContainerID, Container>, nextId: ContainerID, rows: seq<Row>, polls: seq<Poll>)
    requires Start(c, existing, nextId, polls)
    ensures var s := Final(c, existing, nextId, rows, polls);
            Lifecycle(s.tracker.views) && NoneCompleted(s)
            && s.tracker.views != [] && s.tracker.views[|s.tracker.views| - 1] == s.Runners()
  {
    hide Final, FleetOk, Accounted, StopsOk, Routing, LimitsOk, RecordsOk, GrantsOk, NoneCompleted, TrackedOk,
      Lifecycle;
    FinalInv(c, existing, nextId, rows, polls);
  }

  /** Routing: every pending job and every tracked runner has the profile of its job, apart from placeholders. */
  lemma EverythingRouted(
      c: Setup, existing: map<ContainerID, Container>, nextId: ContainerID, rows: seq<Row>, polls: seq<Poll>)
    requires Start(c, existing, nextId, polls)
    ensures var s := Final(c, existing, nextId, rows, polls);
            && (forall j | j in s.pending ::
                  s.pending[j].jobID == j
                  && Routed(c.settings, c.classifier.matches, s.pending[j].displayName, s.pending[j].profile))
            && (forall n | n in s.Runners() ::
                  var r := s.Runners()[n];
                  n == RunnerName(r.profile, r.jobID) && r.profile in c.Profiles()
                  && (Routed(c.settings, c.classifier.matches, r.jobName, r.profile)
                      || Placeholder(c, r.jobName, r.jobID, r.profile)))
  {
    hide Final, Sound, LimitsOk, RecordsOk, GrantsOk, Classifier.Classify, Classification.Routed, Placeholder,
      RunnerName;
    FinalInv(c, existing, nextId, rows, polls);
    var s := Final(c, existing, nextId, rows, polls);
    forall j | j in s.pending
      ensures Routed(c.settings, c.classifier.matches, s.pending[j].displayName, s.pending[j].profile)
    {
      ClassifyRoutes(c.settings, c.classifier.matches, s.pending[j].displayName);
    }
    forall n | n in s.Runners()
      ensures var r := s.Runners()[n];
              Routed(c.settings, c.classifier.matches, r.jobName, r.profile)
              || Placeholder(c, r.jobName, r.jobID, r.profile)
    {
      ClassifyRoutes(c.settings, c.classifier.matches, s.Runners()[n].jobName);
    }
  }

  /** Bounds: every container ever created for a profile has limits between the profile's baseline and its ceiling. */
  lemma LimitsWithinBounds(
      c: Setup, existing: map<ContainerID, Container>, nextId: ContainerID, rows: seq<Row>, polls: seq<Poll>,
      id: ContainerID)
    requires Start(c, existing, nextId, polls) && c.settings.adaptive.enabled
    requires var s := Final(c, existing, nextId, rows, polls); id in s.fleet.created && id !in existing
    ensures var s := Final(c, existing, nextId, rows, polls);
            id in s.origin && s.origin[id].profile in c.Profiles()
            && var p := c.Profiles()[s.origin[id].profile];
               && (EnforceableBounds(Cpu, c.Scaling(), p) ==>
                     Baseline(Cpu, p) <= s.fleet.created[id].nanoCPUs as real <= Ceiling(Cpu, c.Scaling(), p))
               && (EnforceableBounds(Mem, c.Scaling(), p) ==>
                     Baseline(Mem, p) <= s.fleet.created[id].memory as real <= Ceiling(Mem, c.Scaling(), p))
  {
    hide Final, Sound, Routing, RecordsOk, EnforceableBounds, Baseline, Ceiling, GrantsOk;
    FinalInv(c, existing, nextId, rows, polls);
  }

  /** Records: every row of the run carries the job name, the profile and the limits its container was created with. */
  lemma RowsMatchLimits(
      c: Setup, existing: map<ContainerID, Container>, nextId: ContainerID, rows: seq<Row>, polls: seq<Poll>, k: nat)
    requires Start(c, existing, nextId, polls)
    requires |rows| <= k < |Final(c, existing, nextId, rows, polls).rows|
    ensures var s := Final(c, existing, nextId, rows, polls);
            |s.rows| == |rows| + |s.sources|
            && var id := s.sources[k - |rows|].id;
               id in s.fleet.created && id in s.origin
               && s.rows[k].record.profile == s.origin[id].profile
               && s.rows[k].record.jobName == s.origin[id].jobName
               && s.rows[k].record.cpuAllocated == s.fleet.created[id].nanoCPUs
               && s.rows[k].record.memAllocated == s.fleet.created[id].memory
  {
    hide Final, Sound, Routing, LimitsOk, GrantsOk;
    FinalInv(c, existing, nextId, rows, polls);
    var s := Final(c, existing, nextId, rows, polls);
    assert RowAgrees(s, s.rows[|rows| + (k - |rows|)], s.sources[k - |rows|]);
  }

  /**
   Records: the allocation of every row recorded during the run was chosen from the rows there were when its container's
   history was read, at some earlier point of the run, or is the baseline if it was not read.
   */
  lemma RowsWereGranted(
      c: Setup, existing: map<ContainerID, Container>, nextId: ContainerID, rows: seq<Row>, polls: seq<Poll>, k: nat)
    requires Start(c, existing, nextId, polls)
    requires |rows| <= k < |Final(c, existing, nextId, rows, polls).rows|
    ensures var s := Final(c, existing, nextId, rows, polls);
            |s.rows| == |rows| + |s.sources|
            && var m, id := s.rows[k].record, s.sources[k - |rows|].id;
               && RoutedName(c, m.jobName, m.profile)
               && (id in s.basis ==> |rows| <= s.basis[id] <= k)
               && var p := c.Profiles()[m.profile];
                  var e := if id in s.basis then Effective(c, s.rows[..s.basis[id]], m.jobName, p, true)
                           else Adjusted(p.cpus, p.memory);
                  m.cpuAllocated == Trunc(ParseCPUToNano(e.cpus)) && m.memAllocated == Trunc(ParseMemToBytes(e.memory))
  {
    hide Final, Sound, Routing, LimitsOk, RecordsOk, Effective, ParseCPUToNano, ParseMemToBytes, RoutedName;
    FinalInv(c, existing, nextId, rows, polls);
    var s := Final(c, existing, nextId, rows, polls);
    assert RowGranted(c, s, |rows|, k - |rows|);
  }

  /**
   Attribution: a row is filed under the display name of the job that completed exactly when the container that job ran
   in was created for a job of that display name.
   */
  lemma AttributedExactly(
      c: Setup, existing: map<ContainerID, Container>, nextId: ContainerID, rows: seq<Row>, polls: seq<Poll>, k: nat)
    requires Start(c, existing, nextId, polls)
    requires |rows| <= k < |Final(c, existing, nextId, rows, polls).rows|
    ensures var s := Final(c, existing, nextId, rows, polls);
            |s.rows| == |rows| + |s.sources|
            && var source := s.sources[k - |rows|];
               source.id in s.origin
               && (s.rows[k].record.jobName == source.displayName <==>
                   s.origin[source.id].jobName == source.displayName)
  {
    hide Final, Sound, Routing, LimitsOk, GrantsOk;
    FinalInv(c, existing, nextId, rows, polls);
    var s := Final(c, existing, nextId, rows, polls);
    assert RowAgrees(s, s.rows[|rows| + (k - |rows|)], s.sources[k - |rows|]);
  }

  /**
   The baseline strings are used verbatim until exactly a window of rows of the job exists; from then on the printed
   next allocation is. They are also used when scaling is off or the history cannot be read.
   */
  lemma BaselineUntilWindow(c: Setup, rows: seq<Row>, name: string, p: Profile, historyOk: bool)
    requires c.Valid()
    ensures var e := Effective(c, rows, name, p, historyOk);
            var d, w := c.settings.adaptive, c.settings.adaptive.historyWindow;
            var h := History(rows, name, w);
            var a := Adjuster(d.scaleUpThreshold, d.scaleDownThreshold, d.scaleFactor, w, d.maxCPUs, d.maxMemory);
            if !c.settings.adaptive.enabled || !historyOk || |ForJob(rows, name)| < w then
              e == Adjusted(p.cpus, p.memory)
            else
              |h| == w && h != [] && a.Valid()
              && e == Adjusted(FormatCPU(Next(a, Baseline(Cpu, p), Ceiling(Cpu, a, p), Samples(Cpu, h))),
                               FormatMemory(Next(a, Baseline(Mem, p), Ceiling(Mem, a, p), Samples(Mem, h))))
  {
    hide History, ForJob, Next, Ceiling, FormatCPU, FormatMemory;
    if c.settings.adaptive.enabled {
      AdjusterValid(c);
      HistorySize(rows, name, c.settings.adaptive.historyWindow);
    }
  }
}
