/**
 What each operation of the scaler does, field by field, for every answer of the environment: an attempt to provision a
 runner, an assignment, a start and a completion.
 */
module Operations {
  import opened Quantities
  import opened Decimal
  import opened Configuration
  import opened Classification
  import opened MetricsStore
  import opened Adjustment
  import opened RunnerStore
  import opened Provisioning
  import opened ScalerModel
  import opened Conservation

  /** The quantity strings of the job's next container. */
  function StringsFor(c: Setup, rows: seq<Row>, job: PendingJob, a: ProvisionAnswer): Adjusted
    requires c.Valid() && job.profile in c.Profiles()
  {
    Effective(c, rows, job.displayName, c.settings.profiles[job.profile], a.historyOk)
  }

  /** An attempt requests a configuration for the job's runner; if none can be made, that is all that happens. */
  lemma AttemptRequests(c: Setup, s: State, job: PendingJob, a: ProvisionAnswer)
    requires c.Valid() && job.profile in c.Profiles()
    ensures var t := Provision(c, s, job, a);
            && t.log == s.log + [Requested("runner-" + job.profile + "-" + job.jobID)]
            && t.pending == s.pending && t.rows == s.rows && t.sources == s.sources
            && t.fleet.stopCalls == s.fleet.stopCalls && t.fleet.stopLeaks == s.fleet.stopLeaks
            && (!a.jitOk ==> t == s.(log := t.log))
  {
    hide Effective, StartOutcome, For, ValidSettings;
  }

  /**
   The attempt changes the runners exactly when the configuration was made, the runner accepts both strings, no
   container has the requested name, and Docker creates, starts and inspects the container. The new runner is then idle
   under that name, and the others are as they were.
   */
  lemma AttemptRunners(c: Setup, s: State, job: PendingJob, a: ProvisionAnswer)
    requires c.Valid() && Sound(s) && job.profile in c.Profiles()
    ensures var t, name := Provision(c, s, job, a), "runner-" + job.profile + "-" + job.jobID;
            var e := StringsFor(c, s.rows, job, a);
            && (t.Runners() != s.Runners() <==>
                a.jitOk && ParseCPUs(e.cpus).Ok? && ParseMemory(e.memory).Ok?
                && (forall i | i in s.fleet.containers :: s.fleet.containers[i].name != name)
                && a.start.createOk && a.start.startOk && a.start.inspectOk)
            && (t.Runners() == s.Runners() ==> t.tracker == s.tracker)
            && (t.Runners() != s.Runners() ==>
                  && name !in s.Runners()
                  && t.Runners() == s.Runners()[name := Runner(name, s.fleet.nextId, a.start.ip, job.profile, job.jobID,
                                                               job.displayName, e.cpus, e.memory, Idle)]
                  && t.tracker.views == s.tracker.views + [t.Runners()])
  {
    hide Effective, ParseCPUs, ParseMemory, FleetOk, Accounted, StopsOk, ViewsOk, NoneCompleted;
    var name := RunnerName(job.profile, job.jobID);
    var e := StringsFor(c, s.rows, job, a);
    var o := StartOutcome(s.fleet, name, e.cpus, e.memory, a.start);
    assert o.Running? ==> name !in s.Runners();
  }

  /**
   A container is created exactly when all this holds up to its creation, with the limits that the strings stand for; it
   stays unless it does not start and can be removed.
   */
  lemma AttemptContainers(c: Setup, s: State, job: PendingJob, a: ProvisionAnswer)
    requires c.Valid() && Sound(s) && job.profile in c.Profiles()
    ensures var t, name := Provision(c, s, job, a), "runner-" + job.profile + "-" + job.jobID;
            var e := StringsFor(c, s.rows, job, a);
            && (t.fleet != s.fleet <==>
                a.jitOk && ParseCPUs(e.cpus).Ok? && ParseMemory(e.memory).Ok?
                && (forall i | i in s.fleet.containers :: s.fleet.containers[i].name != name) && a.start.createOk)
            && (t.fleet == s.fleet ==> t.origin == s.origin)
            && (t.fleet != s.fleet ==>
                  var k := Container(name, ParseCPUs(e.cpus).value, ParseMemory(e.memory).value);
                  && t.fleet.created == s.fleet.created[s.fleet.nextId := k]
                  && t.origin == s.origin[s.fleet.nextId := Origin(job.profile, job.displayName)]
                  && t.fleet.containers == (if a.start.startOk || !a.start.removeOk
                                            then s.fleet.containers[s.fleet.nextId := k] else s.fleet.containers))
  {
    hide Effective, ParseCPUs, ParseMemory, Accounted, StopsOk, ViewsOk, NoneCompleted, TrackedOk, For, ValidSettings;
    var name := RunnerName(job.profile, job.jobID);
    var e := StringsFor(c, s.rows, job, a);
    var o := StartOutcome(s.fleet, name, e.cpus, e.memory, a.start);
    assert AfterStart(s.fleet, o) != s.fleet <==> !o.Refused? by {
      assert !o.Refused? ==> AfterStart(s.fleet, o).nextId == s.fleet.nextId + 1;
    }
  }

  /** An assigned job is pending under its ID; if its runner's configuration cannot be made, nothing else changes. */
  lemma AssignExactly(c: Setup, s: State, job: AssignedJob, a: ProvisionAnswer)
    requires c.Valid() && Sound(s)
    ensures var t, profile := Assign(c, s, job, a), c.classifier.Classify(job.displayName);
            var p := PendingJob(job.jobID, job.displayName, profile);
            var s1 := s.(pending := s.pending[job.jobID := p]);
            && profile in c.Profiles() && t.pending == s1.pending && t == Provision(c, s1, p, a)
            && (!a.jitOk ==> t == s1.(log := s.log + [Requested("runner-" + profile + "-" + job.jobID)]))
  {
    hide Classifier.Classify, Effective, StartOutcome, Sound;
    ClassifyFindsProfile(c.settings, c.classifier.matches, job.displayName);
  }

  /** A started job is no longer pending, and its runner, if tracked, is busy. */
  lemma StartExactly(s: State, job: StartedJob)
    ensures var t, n := Start(s, job), job.runnerName;
            && t.pending == s.pending - {job.jobID}
            && (n in s.Runners() ==> t.Runners() == s.Runners()[n := s.Runners()[n].(status := Busy)]
                                     && t.tracker.views == s.tracker.views + [t.Runners()])
            && (n !in s.Runners() ==> t.tracker == s.tracker)
            && t == s.(pending := t.pending, tracker := t.tracker)
  {}

  /**
   A completed job is no longer pending. Its runner, if tracked, whatever its status, is forgotten and its container
   stopped, and exactly one row is appended if scaling is on, the use was measured and the insert succeeds: under the
   job name and profile of the runner, with the runner's strings as numbers and this use.
   */
  lemma CompleteExactly(c: Setup, s: State, job: CompletedJob, a: CompletionAnswer)
    ensures var t, n := Complete(c, s, job, a), job.runnerName;
            && t.pending == s.pending - {job.jobID} && t.log == s.log && t.origin == s.origin && t.basis == s.basis
            && (n == "" || n !in s.Runners() ==> t == s.(pending := t.pending))
            && (n != "" && n in s.Runners() ==>
                  var r := s.Runners()[n];
                  && t.Runners() == s.Runners() - {n}
                  && t.fleet.stopCalls == s.fleet.stopCalls + [r.containerID]
                  && t.fleet.containers == (if a.stop.removeOk then s.fleet.containers - {r.containerID}
                                            else s.fleet.containers)
                  && if c.settings.adaptive.enabled && a.usage.Some? && a.recordOk then
                       && t.rows == s.rows + [Row(|s.rows| + 1, a.now, MetricsRecord(
                                                    r.jobName, r.profile, Trunc(ParseCPUToNano(r.cpus)),
                                                    Trunc(ParseMemToBytes(r.memory)), a.usage.value.cpu,
                                                    a.usage.value.mem))]
                       && t.sources == s.sources + [Source(r.containerID, job.displayName)]
                     else t.rows == s.rows && t.sources == s.sources)
  {
    hide ParseCPUToNano, ParseMemToBytes;
    var n := job.runnerName;
    var marked := SetStatus(s.tracker, n, Completed).runners;
    if n in s.Runners() {
      assert marked - {n} == s.Runners() - {n};
    }
  }
}
