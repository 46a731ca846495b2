/** What a series of attempts to start runners comes to, and each one in it, whatever is answered about the others. */
module Series {
  import opened Wrappers
  import opened Quantities
  import opened Configuration
  import opened Classification
  import opened MetricsStore
  import opened RunnerStore
  import opened Provisioning
  import opened ScalerModel
  import opened Conservation
  import opened Operations
  import opened Reconciliation

  // ----- A series of attempts -----

  /** The configuration is made, the runner accepts the strings chosen for the job, and no call to Docker fails. */
  predicate Succeeds(c: Setup, rows: seq<Row>, job: PendingJob, a: ProvisionAnswer)
    requires c.Valid() && job.profile in c.Profiles()
  {
    var e := StringsFor(c, rows, job, a);
    a.jitOk && ParseCPUs(e.cpus).Ok? && ParseMemory(e.memory).Ok?
    && a.start.createOk && a.start.startOk && a.start.inspectOk
  }

  /** An idle runner of the job, with the strings chosen for it, whose container has the limits they stand for. */
  predicate RunnerUp(c: Setup, s: State, rows: seq<Row>, job: PendingJob, a: ProvisionAnswer)
    requires c.Valid() && job.profile in c.Profiles()
  {
    var n, e := "runner-" + job.profile + "-" + job.jobID, StringsFor(c, rows, job, a);
    && n in s.Runners()
    && var r := s.Runners()[n];
       && r == Runner(n, r.containerID, a.start.ip, job.profile, job.jobID, job.displayName, e.cpus, e.memory, Idle)
       && r.containerID in s.fleet.containers
       && ParseCPUs(e.cpus) == Ok(s.fleet.containers[r.containerID].nanoCPUs)
       && ParseMemory(e.memory) == Ok(s.fleet.containers[r.containerID].memory)
  }

  ghost predicate Routable(c: Setup, jobs: seq<PendingJob>) {
    forall i | 0 <= i < |jobs| :: jobs[i].profile in c.Profiles()
  }

  /** An attempt for each of the jobs in turn. */
  function Tried(c: Setup, s: State, jobs: seq<PendingJob>, a: nat -> ProvisionAnswer): State
    requires c.Valid()
  {
    if jobs == [] then s
    else Attempt(c, Tried(c, s, jobs[..|jobs| - 1], a), jobs[|jobs| - 1], a(|jobs| - 1))
  }

  /** What any attempts keep: containers with old IDs, tracked runners, rows and stop calls. */
  ghost predicate Extends(s: State, t: State) {
    && t.rows == s.rows && t.sources == s.sources && t.fleet.stopCalls == s.fleet.stopCalls
    && s.fleet.nextId <= t.fleet.nextId
    && (forall id: ContainerID | id < s.fleet.nextId :: id in t.fleet.containers <==> id in s.fleet.containers)
    && (forall id | id in s.fleet.containers ::
          id in t.fleet.containers && t.fleet.containers[id] == s.fleet.containers[id])
    && (forall n | n in s.Runners() :: n in t.Runners() && t.Runners()[n] == s.Runners()[n])
  }

  lemma TryKeeps(c: Setup, s: State, job: PendingJob, a: ProvisionAnswer)
    requires c.Valid() && Sound(s) && job.profile in c.Profiles()
    ensures Sound(Attempt(c, s, job, a)) && Extends(s, Attempt(c, s, job, a))
  {
    hide Effective, ParseCPUs, ParseMemory, Accounted, StopsOk, ViewsOk, NoneCompleted, Provision, For, ValidSettings,
      Sound, FleetOk, TrackedOk;
    FreshBelow(s);
    ProvisionSound(c, s, job, a);
    AttemptRequests(c, s, job, a);
    AttemptRunners(c, s, job, a);
    AttemptContainers(c, s, job, a);
    AttemptNext(c, s, job, a);
  }

  lemma FreshBelow(s: State)
    requires Sound(s)
    ensures s.fleet.nextId !in s.fleet.containers
  {
    FreshId(s);
  }

  lemma AttemptNext(c: Setup, s: State, job: PendingJob, a: ProvisionAnswer)
    requires c.Valid() && job.profile in c.Profiles()
    ensures s.fleet.nextId <= Provision(c, s, job, a).fleet.nextId
  {
    hide Effective, StartOutcome, For, ValidSettings;
  }

  lemma ProvisionSound(c: Setup, s: State, job: PendingJob, a: ProvisionAnswer)
    requires c.Valid() && Sound(s) && job.profile in c.Profiles()
    ensures Sound(Provision(c, s, job, a))
  {
    hide Effective, FleetOk, TrackedOk, Accounted, StopsOk, ViewsOk, NoneCompleted, StartOutcome, Launch, RunnerName,
      Allowed, For, ValidSettings, Core;
    var name := RunnerName(job.profile, job.jobID);
    var e := Effective(c, s.rows, job.displayName, c.Profiles()[job.profile], a.historyOk);
    var o := StartOutcome(s.fleet, name, e.cpus, e.memory, a.start);
    var s1 := s.(log := s.log + [Requested(name)]);
    var s2 := Consulted(c, s1, a.historyOk);
    OutcomeAllowed(s.fleet, name, e.cpus, e.memory, a.start);
    SoundSame(s, s1);
    SoundSame(s, s2);
    LaunchKeeps(s2, o, NewRunner(job.displayName, job.jobID, job.profile, e));
  }

  lemma {:induction false} TriedKeeps(c: Setup, s: State, jobs: seq<PendingJob>, a: nat -> ProvisionAnswer)
    requires c.Valid() && Sound(s) && Routable(c, jobs)
    ensures Sound(Tried(c, s, jobs, a)) && Extends(s, Tried(c, s, jobs, a))
  {
    hide Sound, Attempt, For, ValidSettings;
    if jobs != [] {
      var front := jobs[..|jobs| - 1];
      TriedKeeps(c, s, front, a);
      TryKeeps(c, Tried(c, s, front, a), jobs[|jobs| - 1], a(|jobs| - 1));
      hide Tried;
      ExtendsOn(s, Tried(c, s, front, a), Tried(c, s, jobs, a));
    }
  }

  lemma ExtendsOn(s: State, t: State, u: State)
    requires Extends(s, t) && Extends(t, u)
    ensures Extends(s, u)
  {}

  lemma {:induction false} TriedRequests(c: Setup, s: State, jobs: seq<PendingJob>, a: nat -> ProvisionAnswer)
    requires c.Valid() && Routable(c, jobs)
    ensures var t := Tried(c, s, jobs, a);
            && |t.log| == |s.log| + |jobs| && s.log <= t.log && t.pending == s.pending
            && forall i | 0 <= i < |jobs| ::
                 t.log[|s.log| + i] == Requested("runner-" + jobs[i].profile + "-" + jobs[i].jobID)
  {
    hide Provision, For, ValidSettings;
    if jobs != [] {
      TriedRequests(c, s, jobs[..|jobs| - 1], a);
      AttemptRequests(c, Tried(c, s, jobs[..|jobs| - 1], a), jobs[|jobs| - 1], a(|jobs| - 1));
    }
  }

  // ----- What becomes of one of the attempts -----

  /** An attempt that succeeds leaves a container with the name, and a runner if the name was free. */
  lemma TryServes(c: Setup, s: State, job: PendingJob, a: ProvisionAnswer)
    requires c.Valid() && Sound(s) && job.profile in c.Profiles() && Succeeds(c, s.rows, job, a)
    ensures var t := Attempt(c, s, job, a);
            NameTaken(t.fleet.containers, NameOf(job))
            && (!NameTaken(s.fleet.containers, NameOf(job)) ==> RunnerUp(c, t, s.rows, job, a))
  {
    hide StringsFor, ParseCPUs, ParseMemory, Provision, For, ValidSettings, Sound;
    AttemptRunners(c, s, job, a);
    AttemptContainers(c, s, job, a);
    var t, id := Provision(c, s, job, a), s.fleet.nextId;
    if NameTaken(s.fleet.containers, NameOf(job)) {
      assert t.fleet == s.fleet;
    } else {
      assert t.fleet.containers[id].name == NameOf(job);
    }
  }

  /** A runner that was not there before is that of an attempt that succeeded. */
  lemma TryAdds(c: Setup, s: State, job: PendingJob, a: ProvisionAnswer, n: string)
    requires c.Valid() && Sound(s) && job.profile in c.Profiles()
    requires n in Attempt(c, s, job, a).Runners() && n !in s.Runners()
    ensures n == NameOf(job) && Succeeds(c, s.rows, job, a) && RunnerUp(c, Attempt(c, s, job, a), s.rows, job, a)
  {
    hide StringsFor, ParseCPUs, ParseMemory, Provision, For, ValidSettings, Sound, RunnerUp;
    AttemptRunners(c, s, job, a);
    TryServes(c, s, job, a);
  }

  lemma TryNames(c: Setup, s: State, job: PendingJob, a: ProvisionAnswer, x: string)
    requires c.Valid() && Sound(s) && job.profile in c.Profiles()
    requires NameTaken(Attempt(c, s, job, a).fleet.containers, x)
    ensures NameTaken(s.fleet.containers, x) || x == NameOf(job)
  {
    hide StringsFor, ParseCPUs, ParseMemory, Provision, For, ValidSettings, Sound;
    AttemptContainers(c, s, job, a);
    var t := Provision(c, s, job, a);
    var id :| id in t.fleet.containers && t.fleet.containers[id].name == x;
    if id in s.fleet.containers && id != s.fleet.nextId {
      assert s.fleet.containers[id].name == x;
    }
  }

  lemma NamesStay(s: State, t: State, x: string)
    requires Extends(s, t) && NameTaken(s.fleet.containers, x)
    ensures NameTaken(t.fleet.containers, x)
  {
    var id :| id in s.fleet.containers && s.fleet.containers[id].name == x;
    assert t.fleet.containers[id].name == x;
  }

  lemma RunnerStays(c: Setup, s: State, t: State, rows: seq<Row>, job: PendingJob, a: ProvisionAnswer)
    requires c.Valid() && job.profile in c.Profiles() && Extends(s, t) && RunnerUp(c, s, rows, job, a)
    ensures RunnerUp(c, t, rows, job, a)
  {
    hide StringsFor, ParseCPUs, ParseMemory;
  }

  /** No job before the i-th one has its runner name. */
  predicate FirstOfName(jobs: seq<PendingJob>, i: nat)
    requires i < |jobs|
  {
    forall j | 0 <= j < i :: NameOf(jobs[j]) != NameOf(jobs[i])
  }

  /** The i-th attempt, if it succeeds, leaves its container name taken, and its runner if the name was free. */
  lemma {:induction false} TriedServes(
      c: Setup, s: State, jobs: seq<PendingJob>, a: nat -> ProvisionAnswer, i: nat)
    requires c.Valid() && Sound(s) && Routable(c, jobs) && i < |jobs| && Succeeds(c, s.rows, jobs[i], a(i))
    ensures var t := Tried(c, s, jobs, a);
            NameTaken(t.fleet.containers, NameOf(jobs[i]))
            && (!NameTaken(s.fleet.containers, NameOf(jobs[i])) && FirstOfName(jobs, i) ==>
                RunnerUp(c, t, s.rows, jobs[i], a(i)))
    decreases |jobs|
  {
    hide Attempt, For, ValidSettings, Sound, NameOf, RunnerUp, Succeeds, NameTaken;
    var n := |jobs| - 1;
    var front := jobs[..n];
    var t := Tried(c, s, front, a);
    TriedKeeps(c, s, front, a);
    if i < n {
      TriedServes(c, s, front, a, i);
      TryKeeps(c, t, jobs[n], a(n));
      NamesStay(t, Attempt(c, t, jobs[n], a(n)), NameOf(jobs[i]));
      if !NameTaken(s.fleet.containers, NameOf(jobs[i])) && FirstOfName(jobs, i) {
        assert FirstOfName(front, i);
        RunnerStays(c, t, Attempt(c, t, jobs[n], a(n)), s.rows, jobs[i], a(i));
      }
    } else {
      TryServes(c, t, jobs[n], a(n));
      if !NameTaken(s.fleet.containers, NameOf(jobs[n])) && FirstOfName(jobs, n) {
        StillFree(c, s, jobs, a);
      }
    }
  }

  lemma StillFree(c: Setup, s: State, jobs: seq<PendingJob>, a: nat -> ProvisionAnswer)
    requires c.Valid() && Sound(s) && Routable(c, jobs) && jobs != [] && FirstOfName(jobs, |jobs| - 1)
    requires !NameTaken(s.fleet.containers, NameOf(jobs[|jobs| - 1]))
    ensures !NameTaken(Tried(c, s, jobs[..|jobs| - 1], a).fleet.containers, NameOf(jobs[|jobs| - 1]))
  {
    hide Tried, For, ValidSettings, Sound, NameOf, NameTaken;
    var front, x := jobs[..|jobs| - 1], NameOf(jobs[|jobs| - 1]);
    if NameTaken(Tried(c, s, front, a).fleet.containers, x) {
      TriedNames(c, s, front, a, x);
    }
  }

  /** Only names of the jobs are taken. */
  lemma {:induction false} TriedNames(
      c: Setup, s: State, jobs: seq<PendingJob>, a: nat -> ProvisionAnswer, x: string)
    requires c.Valid() && Sound(s) && Routable(c, jobs) && NameTaken(Tried(c, s, jobs, a).fleet.containers, x)
    ensures NameTaken(s.fleet.containers, x) || exists i | 0 <= i < |jobs| :: x == NameOf(jobs[i])
  {
    hide Attempt, For, ValidSettings, Sound, NameOf, NameTaken;
    if jobs != [] {
      var n := |jobs| - 1;
      var t := Tried(c, s, jobs[..n], a);
      TriedKeeps(c, s, jobs[..n], a);
      TryNames(c, t, jobs[n], a(n), x);
      if NameTaken(t.fleet.containers, x) {
        TriedNames(c, s, jobs[..n], a, x);
        assert forall j | 0 <= j < n :: jobs[..n][j] == jobs[j];
      }
    }
  }

  /** Every new runner is that of an attempt that succeeded. */
  lemma {:induction false} TriedAdds(
      c: Setup, s: State, jobs: seq<PendingJob>, a: nat -> ProvisionAnswer, n: string) returns (i: nat)
    requires c.Valid() && Sound(s) && Routable(c, jobs) && n in Tried(c, s, jobs, a).Runners() && n !in s.Runners()
    ensures i < |jobs| && n == NameOf(jobs[i]) && jobs[i].profile in c.Profiles()
    ensures Succeeds(c, s.rows, jobs[i], a(i))
    ensures RunnerUp(c, Tried(c, s, jobs, a), s.rows, jobs[i], a(i))
  {
    hide Attempt, For, ValidSettings, Sound, NameOf, RunnerUp, Succeeds;
    var last := |jobs| - 1;
    var front := jobs[..last];
    var t := Tried(c, s, front, a);
    TriedKeeps(c, s, front, a);
    if n in t.Runners() {
      i := TriedAdds(c, s, front, a, n);
      TryKeeps(c, t, jobs[last], a(last));
      RunnerStays(c, t, Attempt(c, t, jobs[last], a(last)), s.rows, jobs[i], a(i));
    } else {
      TryAdds(c, t, jobs[last], a(last), n);
      i := last;
    }
  }
}
