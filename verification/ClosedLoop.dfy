/**
 The feedback loop as it runs through the scaler: assignments and completions of one job name, the containers they
 start, and the rows they leave.
 */
module ClosedLoop {
  import opened Wrappers
  import opened Decimal
  import opened Quantities
  import opened Configuration
  import opened Classification
  import opened MetricsStore
  import opened Adjustment
  import opened Feedback
  import opened RunnerStore
  import opened Provisioning
  import opened ScalerModel
  import opened Conservation
  import opened Reconciliation
  import opened JobHistory

  /** One job: its ID and the answers while it is provisioned and completed. */
  datatype Cycle = Cycle(jobID: string, provision: ProvisionAnswer, completion: CompletionAnswer)

  function JobOf(c: Setup, name: string, k: Cycle): PendingJob {
    PendingJob(k.jobID, name, c.classifier.Classify(name))
  }

  /** A job called `name` is assigned, starts on the runner provisioned for it, and is completed on it. */
  function Once(c: Setup, s: State, name: string, k: Cycle): State
    requires c.Valid()
  {
    var runnerName := NameOf(JobOf(c, name, k));
    var t := Assign(c, s, AssignedJob(k.jobID, name), k.provision);
    Complete(c, ScalerModel.Start(t, StartedJob(k.jobID, runnerName)), CompletedJob(k.jobID, name, runnerName),
             k.completion)
  }

  /** Nothing fails, the container name is free, and the measurement is recorded. */
  ghost predicate Clean(c: Setup, s: State, name: string, k: Cycle)
    requires c.Valid()
  {
    var job := JobOf(c, name, k);
    && Smooth(k.provision) && k.provision.historyOk && Startable(c, s.rows, job, k.provision)
    && !NameTaken(s.fleet.containers, NameOf(job))
    && k.completion.usage.Some? && k.completion.recordOk && k.completion.stop.removeOk
    && Numbered(s.rows + [RowOf(c, s, name, k)]) && Nondecreasing(ForJob(s.rows + [RowOf(c, s, name, k)], name))
  }

  /** The row that a clean cycle leaves. */
  function RowOf(c: Setup, s: State, name: string, k: Cycle): Row
    requires c.Valid() && JobOf(c, name, k).profile in c.Profiles() && k.completion.usage.Some?
  {
    var job := JobOf(c, name, k);
    var e := Effective(c, s.rows, name, c.Profiles()[job.profile], true);
    var r := NewRunner(name, k.jobID, job.profile, e);
    Row(|s.rows| + 1, k.completion.now, RunRecord(r, k.completion.usage.value))
  }

  /**
   Provisioning and completing undo each other on runners and containers; what remains is one row, whose allocation
   is the one the adjuster chose from the history before.
   */
  lemma OnceLeavesRow(c: Setup, s: State, name: string, k: Cycle)
    requires c.Valid() && c.settings.adaptive.enabled && Sound(s) && Clean(c, s, name, k)
    ensures var t := Once(c, s, name, k);
            && t.Runners() == s.Runners() && t.fleet.containers == s.fleet.containers && Sound(t)
            && t.rows == s.rows + [RowOf(c, s, name, k)]
  {
    hide Effective, FleetOk, Accounted, StopsOk, ViewsOk, NoneCompleted, NameTaken, Limits, ParseCPUToNano,
      ParseMemToBytes, Numbered, Nondecreasing, ForJob, Classifier.Classify, RunnerName, TrackedOk;
    var job := JobOf(c, name, k);
    var t := Assign(c, s, AssignedJob(k.jobID, name), k.provision);
    AssignedRunner(c, s, name, k);
    StartedRunner(c, s, t, name, k, k.jobID);
    NonemptyName(job.profile, job.jobID);
    CompletedRunner(c, s, ScalerModel.Start(t, StartedJob(k.jobID, NameOf(job))), name, k, k.jobID, name);
  }

  lemma NonemptyName(profile: string, jobID: string)
    ensures RunnerName(profile, jobID) != ""
  {
    assert |RunnerName(profile, jobID)| >= |"runner-"|;
  }

  /** After the assignment: one more runner, of any status but completed, and its container. */
  ghost predicate HasRunner(c: Setup, s: State, t: State, name: string, k: Cycle)
    requires c.Valid() && JobOf(c, name, k).profile in c.Profiles()
  {
    var job := JobOf(c, name, k);
    var e := Effective(c, s.rows, name, c.Profiles()[job.profile], true);
    && t.rows == s.rows && NameOf(job) !in s.Runners() && s.fleet.nextId !in s.fleet.containers
    && NameOf(job) in t.Runners()
    && t.Runners() == s.Runners()[NameOf(job) := t.Runners()[NameOf(job)]]
    && t.Runners()[NameOf(job)] == NewRunner(name, k.jobID, job.profile, e).(
         containerID := s.fleet.nextId, containerIP := k.provision.start.ip, status := t.Runners()[NameOf(job)].status)
    && t.fleet.containers.Keys == s.fleet.containers.Keys + {s.fleet.nextId}
    && (forall id | id in s.fleet.containers :: t.fleet.containers[id] == s.fleet.containers[id])
    && Sound(t)
  }

  lemma AssignedRunner(c: Setup, s: State, name: string, k: Cycle)
    requires c.Valid() && Sound(s) && Clean(c, s, name, k)
    ensures HasRunner(c, s, Assign(c, s, AssignedJob(k.jobID, name), k.provision), name, k)
  {
    hide Effective, Accounted, StopsOk, ViewsOk, NoneCompleted, NameTaken, Limits, Numbered, Nondecreasing, ForJob,
      Classifier.Classify, RunnerName, FleetOk, TrackedOk, RowOf;
    var job := JobOf(c, name, k);
    var s1 := s.(pending := s.pending[k.jobID := job]);
    assert s1.Runners() == s.Runners();
    SoundSame(s, s1);
    FreeNameUntracked(s, NameOf(job));
    FreshId(s);
    SmoothAttempt(c, s1, job, k.provision);
  }

  /** Whichever job the server says started on the runner, it becomes busy and nothing else changes. */
  lemma StartedRunner(c: Setup, s: State, t: State, name: string, k: Cycle, jobID: string)
    requires c.Valid() && Clean(c, s, name, k) && HasRunner(c, s, t, name, k)
    ensures var u, n := ScalerModel.Start(t, StartedJob(jobID, NameOf(JobOf(c, name, k)))), NameOf(JobOf(c, name, k));
            HasRunner(c, s, u, name, k) && u.Runners()[n].status == Busy
  {
    hide Effective, Startable, NameTaken, Limits, Numbered, Nondecreasing, ForJob, Classifier.Classify, RunnerName,
      Sound, RowOf, For, ValidSettings;
    SoundStart(t, StartedJob(jobID, NameOf(JobOf(c, name, k))));
  }

  lemma SoundStart(s: State, job: StartedJob)
    requires Sound(s)
    ensures Sound(ScalerModel.Start(s, job))
  {
    hide Core;
    var t := Marked(s, job.runnerName, Busy);
    MarkedKeeps(s, job.runnerName, Busy);
    assert forall n | n in t.Runners() :: n in s.Runners() && (n == job.runnerName || t.Runners()[n] == s.Runners()[n]);
    SoundSame(t, ScalerModel.Start(s, job));
  }

  /** Whichever job the server says completed on the runner, the row is filed under the job it was started for. */
  lemma CompletedRunner(c: Setup, s: State, t: State, name: string, k: Cycle, jobID: string, displayName: string)
    requires c.Valid() && c.settings.adaptive.enabled && Clean(c, s, name, k) && HasRunner(c, s, t, name, k)
    ensures var u := Complete(c, t, CompletedJob(jobID, displayName, NameOf(JobOf(c, name, k))), k.completion);
            && u.Runners() == s.Runners() && u.fleet.containers == s.fleet.containers && Sound(u)
            && u.rows == s.rows + [RowOf(c, s, name, k)]
  {
    hide Effective, Startable, NameTaken, Limits, Numbered, Nondecreasing, ForJob, Classifier.Classify, RunnerName,
      Sound, ParseCPUToNano, ParseMemToBytes;
    var done := CompletedJob(jobID, displayName, NameOf(JobOf(c, name, k)));
    NonemptyName(JobOf(c, name, k).profile, k.jobID);
    SoundComplete(c, t, done, k.completion);
  }

  lemma SoundComplete(c: Setup, s: State, job: CompletedJob, a: CompletionAnswer)
    requires Sound(s)
    ensures Sound(Complete(c, s, job, a))
  {
    var s1 := s.(pending := s.pending - {job.jobID});
    SoundSame(s, s1);
    if job.runnerName in s1.Runners() && job.runnerName != "" {
      var s2 := Marked(s1, job.runnerName, Completed);
      var r := s2.Runners()[job.runnerName];
      var s3 := RecordRun(c, s2, r, job.displayName, a);
      var u := Retire(s3, job.runnerName, r.containerID, a.stop);
      hide Core;
      MarkedKeeps(s1, job.runnerName, Completed);
      SameWorldKeeps(s2, s3);
      assert s3.Runners() == s2.Runners();
      RetireKeeps(s3, job.runnerName, r.containerID, a.stop);
      assert forall n | n in u.Runners() :: n in s.Runners() && u.Runners()[n] == s.Runners()[n];
    }
  }

  // ----- A run filed under another job's name -----

  /**
   A runner is created for one job and the server runs another on it: after the messages that assign the first job, and
   start and complete the other, the use of the other job is in the history of the first, and that of the other is as it
   was.
   */
  lemma MisfiledRun(
      c: Setup, s: State, name: string, k: Cycle, otherID: string, other: string, answers: Answers)
    requires c.Valid() && c.settings.adaptive.enabled && Sound(s) && Clean(c, s, name, k) && other != name
    requires answers.Valid() && answers.assign(0) == k.provision && answers.complete(0) == k.completion
    ensures var n := NameOf(JobOf(c, name, k));
            var s1 := Handle(c, s, Message(1, [AssignedJob(k.jobID, name)], [], [], None), answers);
            var s2 := Handle(c, s1, Message(2, [], [StartedJob(otherID, n)], [], None), answers);
            var t := Handle(c, s2, Message(3, [], [], [CompletedJob(otherID, other, n)], None), answers);
            && t.rows == s.rows + [RowOf(c, s, name, k)]
            && RowOf(c, s, name, k).record.cpuUsed == k.completion.usage.value.cpu
            && ForJob(t.rows, name) == ForJob(s.rows, name) + [RowOf(c, s, name, k)]
            && ForJob(t.rows, other) == ForJob(s.rows, other)
  {
    hide Effective, Sound, NameTaken, Limits, ParseCPUToNano, ParseMemToBytes, Numbered, Nondecreasing, ForJob,
      Classifier.Classify, RunnerName, Handle, Assign, ScalerModel.Start, Complete, HasRunner, NameOf, For,
      ValidSettings;
    var job, n := AssignedJob(k.jobID, name), NameOf(JobOf(c, name, k));
    var started, done := StartedJob(otherID, n), CompletedJob(otherID, other, n);
    var s1 := Assign(c, s, job, k.provision);
    var s2 := ScalerModel.Start(s1, started);
    AssignMessage(c, s, job, 1, answers);
    StartMessage(c, s1, started, 2, answers);
    CompleteMessage(c, s2, done, 3, answers);
    AssignedRunner(c, s, name, k);
    StartedRunner(c, s, s1, name, k, otherID);
    CompletedRunner(c, s, s2, name, k, otherID, other);
    ForJobAppend(s.rows, RowOf(c, s, name, k), name);
    ForJobAppend(s.rows, RowOf(c, s, name, k), other);
    assert ForJob(s.rows, other) + [] == ForJob(s.rows, other);
  }

  // ----- The loop through the scaler is the loop of the adjuster -----

  lemma CleanRow(c: Setup, s: State, name: string, k: Cycle)
    requires c.Valid() && Clean(c, s, name, k)
    ensures k.completion.usage.Some? && JobOf(c, name, k).profile in c.Profiles()
    ensures var rows := s.rows + [RowOf(c, s, name, k)]; Numbered(rows) && Nondecreasing(ForJob(rows, name))
    ensures RowOf(c, s, name, k).record.jobName == name
  {
    hide Classifier.Classify, NameTaken, Numbered, Nondecreasing, ForJob, Effective;
  }

  function Cycles(c: Setup, s: State, name: string, ks: seq<Cycle>): State
    requires c.Valid()
  {
    if ks == [] then s else Once(c, Cycles(c, s, name, ks[..|ks| - 1]), name, ks[|ks| - 1])
  }

  ghost predicate AllClean(c: Setup, s: State, name: string, ks: seq<Cycle>)
    requires c.Valid()
  {
    forall i | 0 <= i < |ks| :: Clean(c, Cycles(c, s, name, ks[..i]), name, ks[i])
  }

  /** What the runs used of a resource. */
  function UsedBy(r: Resource, ks: seq<Cycle>): (used: seq<int>)
    ensures |used| == |ks|
  {
    if ks == [] then []
    else
      UsedBy(r, ks[..|ks| - 1]) + [match ks[|ks| - 1].completion.usage
                                   case None => 0
                                   case Some(u) => if r.Cpu? then u.cpu else u.mem]
  }

  /** A clean cycle leaves the sample that the lane predicts. */
  lemma CycleIsRound(c: Setup, s: State, name: string, k: Cycle, l: Lane)
    requires c.Valid() && c.settings.adaptive.enabled && Sound(s) && Clean(c, s, name, k) && IsLaneOf(c, name, l)
    ensures l.a.Valid() && Sound(Once(c, s, name, k))
    ensures var before := JobSamples(l.resource, s.rows, name);
            JobSamples(l.resource, Once(c, s, name, k).rows, name) ==
            [Sample(l.Grant(before), UsedBy(l.resource, [k])[0])] + before
  {
    hide JobSamples, Sound, Clean, Classifier.Classify, Once, Numbered, Nondecreasing, ForJob, Lane.Grant, Effective,
      For, ValidSettings, RunRecord;
    CleanRow(c, s, name, k);
    OnceLeavesRow(c, s, name, k);
    SampleLeads(l.resource, s.rows, RowOf(c, s, name, k), name);
    RowSample(c, s, name, k, l);
  }

  lemma RowSample(c: Setup, s: State, name: string, k: Cycle, l: Lane)
    requires c.Valid() && c.settings.adaptive.enabled && IsLaneOf(c, name, l) && k.completion.usage.Some?
    ensures l.a.Valid()
    ensures SampleOf(l.resource, RowOf(c, s, name, k).record) ==
            Sample(l.Grant(JobSamples(l.resource, s.rows, name)), UsedBy(l.resource, [k])[0])
  {
    hide JobSamples, Classifier.Classify, Lane.Grant, Effective, LaneOf, ParseCPUToNano, ParseMemToBytes, RunnerName,
      For, ValidSettings;
    EffectiveIsGrant(c, s.rows, name, l);
    assert [k][..0] == [];
  }

  /** Clean cycles through the scaler leave the samples that the rounds of the lane predict. */
  lemma {:induction false} CyclesAreRounds(c: Setup, s: State, name: string, ks: seq<Cycle>, l: Lane)
    requires c.Valid() && c.settings.adaptive.enabled && Sound(s) && AllClean(c, s, name, ks)
    requires IsLaneOf(c, name, l) && l.a.Valid()
    ensures Sound(Cycles(c, s, name, ks))
    ensures JobSamples(l.resource, Cycles(c, s, name, ks).rows, name) ==
            Rounds(l, JobSamples(l.resource, s.rows, name), UsedBy(l.resource, ks))
    decreases |ks|
  {
    hide JobSamples, Sound, Clean, Classifier.Classify, Once, Lane.Grant, For, ValidSettings, IsLaneOf;
    if ks != [] {
      var front, k := ks[..|ks| - 1], ks[|ks| - 1];
      assert forall i | 0 <= i < |front| :: front[i] == ks[i] && front[..i] == ks[..i];
      CyclesAreRounds(c, s, name, front, l);
      assert Clean(c, Cycles(c, s, name, front), name, k);
      CycleIsRound(c, Cycles(c, s, name, front), name, k, l);
      UsedMore(l.resource, front, k);
    }
  }

  lemma UsedMore(r: Resource, front: seq<Cycle>, k: Cycle)
    ensures var used := UsedBy(r, front + [k]);
            used[..|used| - 1] == UsedBy(r, front) && used[|used| - 1] == UsedBy(r, [k])[0]
  {
    assert (front + [k])[..|front|] == front;
    assert [k][..0] == [];
  }

  // ----- From a prepared start every cycle is clean -----

  /**
   The runner accepts the baseline of the job's profile, the memory bounds are at least ten bytes, and the job's rows
   are stamped in order.
   */
  ghost predicate Prepared(c: Setup, s: State, name: string)
    requires c.Valid() && c.settings.adaptive.enabled
  {
    && Numbered(s.rows) && Nondecreasing(ForJob(s.rows, name))
    && c.classifier.Classify(name) in c.Profiles()
    && var p := c.Profiles()[c.classifier.Classify(name)];
       && Enforced(Cpu, p.cpus).Ok? && Enforced(Mem, p.memory).Ok?
       && 10.0 <= Baseline(Mem, p) <= INT64_MAX as real && 10.0 <= Ceiling(Mem, c.Scaling(), p) <= INT64_MAX as real
  }

  /** Nothing fails, the container name is free at the start, and the measurement is recorded. */
  predicate SmoothCycle(c: Setup, s: State, name: string, k: Cycle) {
    && Smooth(k.provision) && k.provision.historyOk && !NameTaken(s.fleet.containers, NameOf(JobOf(c, name, k)))
    && k.completion.usage.Some? && k.completion.recordOk && k.completion.stop.removeOk
  }

  predicate RecordedBy(rows: seq<Row>, name: string, now: int) {
    forall r | r in ForJob(rows, name) :: r.createdAt <= now
  }

  /** The database clock does not step back over the cycles. */
  predicate ClockForward(s: State, name: string, ks: seq<Cycle>) {
    && (forall i, j | 0 <= i < j < |ks| :: ks[i].completion.now <= ks[j].completion.now)
    && (forall i | 0 <= i < |ks| :: RecordedBy(s.rows, name, ks[i].completion.now))
  }

  ghost predicate SmoothStart(c: Setup, s: State, name: string, ks: seq<Cycle>)
    requires c.Valid() && c.settings.adaptive.enabled
  {
    Sound(s) && Prepared(c, s, name) && ClockForward(s, name, ks) && forall k | k in ks :: SmoothCycle(c, s, name, k)
  }

  /** Whatever the rows say, the runner accepts the strings chosen for the job. */
  lemma AlwaysStartable(c: Setup, s: State, rows: seq<Row>, name: string, k: Cycle)
    requires c.Valid() && c.settings.adaptive.enabled && Prepared(c, s, name) && k.provision.historyOk
    ensures Startable(c, rows, JobOf(c, name, k), k.provision)
  {
    hide Numbered, Nondecreasing, ForJob, Classifier.Classify, ParseCPUs, ParseMemory, Effective, Baseline, Ceiling;
    var p := c.Profiles()[c.classifier.Classify(name)];
    EffectiveText(c, rows, name, p, Cpu);
    EffectiveText(c, rows, name, p, Mem);
    ChosenAccepted(c.Scaling(), p, Limit(FullHistory(rows, name), c.Scaling().historyWindow));
    HistoryIsWindow(rows, name, c.Scaling().historyWindow);
  }

  lemma ChosenAccepted(a: Adjuster, p: Profile, h: seq<MetricsRecord>)
    requires a.Valid() && Enforced(Cpu, p.cpus).Ok? && Enforced(Mem, p.memory).Ok?
    requires 10.0 <= Baseline(Mem, p) <= INT64_MAX as real && 10.0 <= Ceiling(Mem, a, p) <= INT64_MAX as real
    ensures Enforced(Cpu, Chosen(Cpu, a, p, h)).Ok? && Enforced(Mem, Chosen(Mem, a, p, h)).Ok?
  {
    hide Enforced, Chosen, Baseline, Ceiling, Snap, Next;
    if |h| < a.historyWindow {
      ShortHistory(Cpu, a, p, h);
      ShortHistory(Mem, a, p, h);
    } else {
      PrintedCPU(a, p, h);
      MemoryAcceptedExactly(a, p);
      assert Enforced(Mem, Chosen(Mem, a, p, h)).Ok?;
    }
  }

  /** What a clean cycle keeps for the next one. */
  ghost predicate StillSmooth(c: Setup, s: State, t: State, name: string, now: int)
    requires c.Valid() && c.settings.adaptive.enabled
  {
    Sound(t) && Prepared(c, t, name) && t.fleet.containers == s.fleet.containers && RecordedBy(t.rows, name, now)
  }

  lemma SmoothIsClean(c: Setup, s: State, t: State, name: string, k: Cycle)
    requires c.Valid() && c.settings.adaptive.enabled && SmoothCycle(c, s, name, k)
    requires StillSmooth(c, s, t, name, k.completion.now)
    ensures Clean(c, t, name, k) && StillSmooth(c, s, Once(c, t, name, k), name, k.completion.now)
  {
    hide NameTaken, NameOf, Effective, Classifier.Classify, ParseCPUs, ParseMemory, Baseline, Ceiling, Sound, RunRecord,
      Once, Startable;
    AlwaysStartable(c, t, t.rows, name, k);
    var row := RowOf(c, t, name, k);
    InOrder(t.rows, row, name);
    OnceLeavesRow(c, t, name, k);
  }

  lemma InOrder(rows: seq<Row>, row: Row, name: string)
    requires Numbered(rows) && Nondecreasing(ForJob(rows, name)) && RecordedBy(rows, name, row.createdAt)
    requires row.id == |rows| + 1
    ensures Numbered(rows + [row]) && Nondecreasing(ForJob(rows + [row], name))
    ensures RecordedBy(rows + [row], name, row.createdAt)
  {
    hide ForJob;
    ForJobAppend(rows, row, name);
    var mine := ForJob(rows, name);
    assert forall i | 0 <= i < |mine| :: mine[i] in mine;
  }

  lemma StillSmoothLater(c: Setup, s: State, t: State, name: string, now: int, later: int)
    requires c.Valid() && c.settings.adaptive.enabled && StillSmooth(c, s, t, name, now) && now <= later
    ensures StillSmooth(c, s, t, name, later)
  {
    hide ForJob, Sound, Prepared;
  }

  lemma AllCleanMore(c: Setup, s: State, name: string, ks: seq<Cycle>)
    requires c.Valid() && ks != [] && AllClean(c, s, name, ks[..|ks| - 1])
    requires Clean(c, Cycles(c, s, name, ks[..|ks| - 1]), name, ks[|ks| - 1])
    ensures AllClean(c, s, name, ks)
  {
    hide Clean, Cycles;
    var front := ks[..|ks| - 1];
    forall i | 0 <= i < |ks| ensures Clean(c, Cycles(c, s, name, ks[..i]), name, ks[i]) {
      if i < |front| {
        assert front[..i] == ks[..i] && front[i] == ks[i];
        assert Clean(c, Cycles(c, s, name, front[..i]), name, front[i]);
      }
    }
  }

  lemma {:induction false} SmoothCycles(c: Setup, s: State, name: string, ks: seq<Cycle>)
    requires c.Valid() && c.settings.adaptive.enabled && SmoothStart(c, s, name, ks)
    ensures AllClean(c, s, name, ks)
    ensures ks != [] ==> StillSmooth(c, s, Cycles(c, s, name, ks), name, ks[|ks| - 1].completion.now)
    decreases |ks|
  {
    hide Sound, Prepared, Clean, RecordedBy, Once, SmoothCycle, For, ValidSettings, AllClean;
    if ks == [] {
      NoCycles(c, s, name);
    } else {
      var n := |ks| - 1;
      var front, k := ks[..n], ks[n];
      assert k in ks && forall i | 0 <= i < n :: front[i] == ks[i];
      SmoothCycles(c, s, name, front);
      var t := Cycles(c, s, name, front);
      if front != [] {
        StillSmoothLater(c, s, t, name, front[n - 1].completion.now, k.completion.now);
      }
      SmoothIsClean(c, s, t, name, k);
      AllCleanMore(c, s, name, ks);
    }
  }

  lemma NoCycles(c: Setup, s: State, name: string)
    requires c.Valid()
    ensures AllClean(c, s, name, [])
  {}

  // ----- Convergence -----

  /**
   Through the scaler, from a prepared start and when nothing fails: if the runs of a job are above the upper threshold
   from now on, then after an explicit number of cycles its containers are started at the effective ceiling. The
   `known` last runs before are above it, too.
   */
  lemma ScalerReachesCeiling(c: Setup, s: State, name: string, ks: seq<Cycle>, l: Lane, known: nat)
    requires c.Valid() && c.settings.adaptive.enabled && SmoothStart(c, s, name, ks)
    requires IsLaneOf(c, name, l) && l.Movable()
    requires var before := JobSamples(l.resource, s.rows, name);
             && known <= |before| && Settled(l, before, known)
             && AllAbove(Recent(before, JobSamples(l.resource, Cycles(c, s, name, ks).rows, name), known),
                         l.a.scaleUpThreshold)
    requires l.Warmup(known) <= |ks| && ReachesCeiling(l, |ks| - l.Warmup(known))
    ensures NewestAllocation(l, Cycles(c, s, name, ks).rows, name) == l.ceiling
    ensures Cycles(c, s, name, ks).Runners() == s.Runners()
  {
    hide JobSamples, Sound, Prepared, ClockForward, SmoothCycle, Cycles, Settled, Rounds, ReachesCeiling, AllClean,
      For, ValidSettings, IsLaneOf, Lane.Newest, Lane.FirstStep, OnGrid, Grown, AllAbove, Recent;
    var before := JobSamples(l.resource, s.rows, name);
    SmoothCycles(c, s, name, ks);
    CyclesAreRounds(c, s, name, ks, l);
    CyclesKeepRunners(c, s, name, ks);
    RoundsGrow(l, before, UsedBy(l.resource, ks));
    NoLag(|ks| - l.Warmup(known));
    OverloadReachesCeiling(l, before, Rounds(l, before, UsedBy(l.resource, ks)), known, 0);
  }

  lemma {:induction false} NoLag(n: nat)
    ensures Generations(n, 0) == n
  {
    if n != 0 {
      NoLag(n - 1);
    }
  }

  /** Likewise runs that stay below the lower threshold bring the allocation back to the baseline. */
  lemma ScalerReachesBaseline(c: Setup, s: State, name: string, ks: seq<Cycle>, l: Lane, known: nat)
    requires c.Valid() && c.settings.adaptive.enabled && SmoothStart(c, s, name, ks)
    requires IsLaneOf(c, name, l) && l.Movable()
    requires var before := JobSamples(l.resource, s.rows, name);
             && known <= |before| && Settled(l, before, known)
             && AllBelow(Recent(before, JobSamples(l.resource, Cycles(c, s, name, ks).rows, name), known),
                         l.a.scaleDownThreshold)
             && l.Warmup(known) <= |ks| && ReachesFloor(l, StartsFrom(l, before, known), |ks| - l.Warmup(known))
    ensures NewestAllocation(l, Cycles(c, s, name, ks).rows, name) == l.floor
    ensures Cycles(c, s, name, ks).Runners() == s.Runners()
  {
    hide JobSamples, Sound, Prepared, ClockForward, SmoothCycle, Cycles, Settled, Rounds, ReachesFloor, AllClean,
      For, ValidSettings, IsLaneOf, Lane.Newest, Lane.FirstStep, OnGrid, Grown, AllBelow, Recent, StartsFrom;
    var before := JobSamples(l.resource, s.rows, name);
    SmoothCycles(c, s, name, ks);
    CyclesAreRounds(c, s, name, ks, l);
    CyclesKeepRunners(c, s, name, ks);
    RoundsGrow(l, before, UsedBy(l.resource, ks));
    NoLag(|ks| - l.Warmup(known));
    IdlenessReachesBaseline(l, before, Rounds(l, before, UsedBy(l.resource, ks)), known, 0);
  }

  lemma {:induction false} CyclesKeepRunners(c: Setup, s: State, name: string, ks: seq<Cycle>)
    requires c.Valid() && c.settings.adaptive.enabled && Sound(s) && AllClean(c, s, name, ks)
    ensures Cycles(c, s, name, ks).Runners() == s.Runners() && Sound(Cycles(c, s, name, ks))
    decreases |ks|
  {
    hide Sound, Clean, Classifier.Classify, Once, For, ValidSettings;
    if ks != [] {
      var front, k := ks[..|ks| - 1], ks[|ks| - 1];
      assert forall i | 0 <= i < |front| :: front[i] == ks[i] && front[..i] == ks[..i];
      CyclesKeepRunners(c, s, name, front);
      assert Clean(c, Cycles(c, s, name, front), name, k);
      OnceLeavesRow(c, Cycles(c, s, name, front), name, k);
    }
  }
}
