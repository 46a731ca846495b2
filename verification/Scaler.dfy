/** The scaler as the program has it: objects updated in place, proved against the state machine. */
module Scaler {
  import opened Wrappers
  import opened Strings
  import opened Configuration
  import opened Classification
  import MetricsStore
  import Adjustment
  import RunnerStore
  import opened Provisioning
  import opened ScalerModel
  import opened Shutdown

  class Scaler {
    const setup: Setup
    const store: RunnerStore.Store
    const provisioner: Provisioner
    const table: MetricsStore.Store
    var pendingJobs: map<string, PendingJob>
    ghost var sources: seq<Source>
    ghost var origin: map<RunnerStore.ContainerID, Origin>
    ghost var basis: map<RunnerStore.ContainerID, nat>
    ghost var log: seq<Effect>

    ghost predicate Valid()
      reads this, store, store.runners.Values, table
      ensures Valid() ==> setup.Valid()
    {
      setup.Valid() && store.Valid() && table.Valid()
    }

    ghost function Model(): State
      reads this, store, store.runners.Values, provisioner, provisioner.docker, table
    {
      State(pendingJobs, store.Model(), provisioner.Model(), table.rows, sources, origin, basis, log)
    }

    constructor (setup: Setup, store: RunnerStore.Store, provisioner: Provisioner, table: MetricsStore.Store)
      requires setup.Valid() && store.Valid() && table.Valid()
      ensures this.setup == setup && this.store == store && this.provisioner == provisioner && this.table == table
      ensures Valid()
      ensures Model() == State(map[], store.Model(), provisioner.Model(), table.rows, [], map[], map[], [])
    {
      this.setup, this.store, this.provisioner, this.table := setup, store, provisioner, table;
      pendingJobs := map[];
      sources, origin, basis, log := [], map[], map[], [];
    }

    /** The strings with which the container is started, adjusted by the job's history when there is one. */
    method EffectiveResources(displayName: string, profile: Profile, historyOk: bool) returns (e: Adjustment.Adjusted)
      requires Valid()
      ensures e == Effective(setup, table.rows, displayName, profile, historyOk)
    {
      e := Adjustment.Adjusted(profile.cpus, profile.memory);
      if setup.settings.adaptive.enabled {
        AdjusterValid(setup);
        var a := setup.Scaling();
        var history := table.GetHistory(displayName, a.historyWindow, historyOk);
        if history.Some? {
          MetricsStore.HistorySize(table.rows, displayName, a.historyWindow);
          e := Adjustment.Adjust(a, profile, history.value);
        }
      }
    }

    method ProvisionRunner(job: PendingJob, profile: Profile, a: ProvisionAnswer) returns (ok: bool)
      requires Valid() && job.profile in setup.Profiles() && profile == setup.Profiles()[job.profile]
      modifies this, store, provisioner, provisioner.docker
      ensures Valid() && Model() == Provision(setup, old(Model()), job, a)
      ensures fresh(store.runners.Values - old(store.runners.Values))
      ensures var e := Effective(setup, old(Model()).rows, job.displayName, profile, a.historyOk);
              var name := RunnerName(job.profile, job.jobID);
              ok <==> a.jitOk && StartOutcome(old(Model()).fleet, name, e.cpus, e.memory, a.start).Running?
    {
      hide Launch, StartOutcome, Effective, RunnerName, RunnerStore.Store.Model, RunnerStore.Store.Valid,
        Provisioner.Model, Consulted, NewRunner;
      var name := RunnerName(job.profile, job.jobID);
      log := log + [Requested(name)];
      if !a.jitOk {
        return false;
      }
      var e := EffectiveResources(job.displayName, profile, a.historyOk);
      NoteBasis(a.historyOk);
      ok := StartAndTrack(job, e, a.start);
    }

    /** Remembers which rows the history for the next container is from. */
    ghost method NoteBasis(historyOk: bool)
      requires Valid()
      modifies this`basis
      ensures Valid() && Model() == Consulted(setup, old(Model()), historyOk)
    {
      var id := provisioner.docker.nextId;
      basis := if setup.settings.adaptive.enabled && historyOk then basis[id := |table.rows|] else basis - {id};
    }

    method StartAndTrack(job: PendingJob, e: Adjustment.Adjusted, a: StartAnswer) returns (ok: bool)
      requires Valid()
      modifies this, store, provisioner, provisioner.docker
      ensures Valid() && fresh(store.runners.Values - old(store.runners.Values))
      ensures var o := StartOutcome(old(Model()).fleet, RunnerName(job.profile, job.jobID), e.cpus, e.memory, a);
              Model() == Launch(old(Model()), o, NewRunner(job.displayName, job.jobID, job.profile, e))
              && ok == o.Running?
    {
      hide StartOutcome, RunnerName, Attempted, RunnerStore.Add, Valid, Model;
      var started := StartContainer(RunnerName(job.profile, job.jobID), Origin(job.profile, job.displayName), e, a);
      if started.None? {
        return false;
      }
      var r := NewRunner(job.displayName, job.jobID, job.profile, e);
      Track(r.(containerID := started.value.id, containerIP := started.value.ip));
      ok := true;
    }

    method StartContainer(name: string, madeFor: Origin, e: Adjustment.Adjusted, a: StartAnswer)
      returns (started: Option<Started>)
      requires Valid()
      modifies this, provisioner, provisioner.docker
      ensures Valid() && store.runners == old(store.runners)
      ensures var o := StartOutcome(old(Model()).fleet, name, e.cpus, e.memory, a);
              Model() == Attempted(old(Model()), o, madeFor) && Model().tracker == old(Model()).tracker
              && started == if o.Running? then Some(Started(old(Model()).fleet.nextId, o.ip)) else None
    {
      hide StartOutcome, RunnerStore.Store.Model, RunnerStore.Store.Valid;
      ghost var was := Model();
      ghost var o := StartOutcome(was.fleet, name, e.cpus, e.memory, a);
      started := provisioner.Start(name, e.cpus, e.memory, a);
      assert store.Model() == was.tracker;
      assert provisioner.docker.nextId == AfterStart(was.fleet, o).nextId;
      if provisioner.docker.nextId != was.fleet.nextId {
        origin := origin[was.fleet.nextId := madeFor];
      }
      assert provisioner.Model() == AfterStart(was.fleet, o);
    }

    method Track(r: RunnerStore.Runner)
      requires Valid()
      modifies store
      ensures Valid() && Model() == old(Model()).(tracker := RunnerStore.Add(old(Model()).tracker, r))
      ensures fresh(store.runners.Values - old(store.runners.Values))
    {
      var info := new RunnerStore.RunnerInfo(r);
      assert store.Model() == old(store.Model());
      store.AddRunner(info);
      assert store.runners.Values <= old(store.runners.Values) + {info};
    }

    // ----- Handlers -----

    method HandleJobAssigned(job: AssignedJob, a: ProvisionAnswer) returns (ok: bool)
      requires Valid()
      modifies this, store, provisioner, provisioner.docker
      ensures Valid() && Model() == Assign(setup, old(Model()), job, a)
      ensures fresh(store.runners.Values - old(store.runners.Values))
    {
      hide Provision, Classifier.Classify, RunnerStore.Store.Model, RunnerStore.Store.Valid, Provisioner.Model;
      var profileName := setup.classifier.Classify(job.displayName);
      if profileName !in setup.Profiles() {
        return false;
      }
      var p := PendingJob(job.jobID, job.displayName, profileName);
      pendingJobs := pendingJobs[job.jobID := p];
      ok := ProvisionRunner(p, setup.Profiles()[profileName], a);
    }

    method HandleJobStarted(job: StartedJob)
      requires Valid()
      modifies this, store, store.runners.Values
      ensures Valid() && Model() == Start(old(Model()), job)
      ensures store.runners == old(store.runners)
    {
      hide Valid, Model, RunnerStore.SetStatus;
      MarkBusy(job.runnerName);
      ForgetPending(job.jobID);
    }

    method MarkBusy(name: string)
      requires Valid()
      modifies store, store.runners.Values
      ensures Valid()
      ensures Model() == old(Model()).(tracker := RunnerStore.SetStatus(old(Model()).tracker, name, RunnerStore.Busy))
      ensures store.runners == old(store.runners)
    {
      hide RunnerStore.Store.Model, RunnerStore.Store.Valid, RunnerStore.SetStatus;
      store.MarkBusy(name);
    }

    method HandleJobCompleted(job: CompletedJob, a: CompletionAnswer)
      requires Valid()
      modifies this, store, store.runners.Values, provisioner, provisioner.docker, table
      ensures Valid() && Model() == Complete(setup, old(Model()), job, a)
      ensures store.runners.Values <= old(store.runners.Values)
    {
      hide Valid, Model, RunnerStore.SetStatus, RecordRun, Retire;
      ForgetPending(job.jobID);
      if job.runnerName == "" {
        return;
      }
      MarkCompleted(job.runnerName);
      var r := LookUp(job.runnerName);
      if r.None? {
        return;
      }
      RecordMetrics(r.value, job.displayName, a);
      RetireRunner(job.runnerName, r.value.containerID, a.stop);
    }

    method ForgetPending(jobID: string)
      requires Valid()
      modifies this`pendingJobs
      ensures Valid() && Model() == old(Model()).(pending := old(Model()).pending - {jobID})
      ensures store.runners == old(store.runners)
    {
      pendingJobs := pendingJobs - {jobID};
    }

    method MarkCompleted(name: string)
      requires Valid()
      modifies store, store.runners.Values
      ensures Valid()
      ensures Model() == old(Model()).(
                           tracker := RunnerStore.SetStatus(old(Model()).tracker, name, RunnerStore.Completed))
      ensures store.runners == old(store.runners)
    {
      hide RunnerStore.Store.Model, RunnerStore.Store.Valid, RunnerStore.SetStatus;
      store.MarkCompleted(name);
    }

    method LookUp(name: string) returns (r: Option<RunnerStore.Runner>)
      requires Valid()
      ensures r == if name in Model().Runners() then Some(Model().Runners()[name]) else None
    {
      var info := store.GetByName(name);
      r := if info == null then None else Some(info.Value());
    }

    /** Nothing is recorded when the measurement fails; a failed insert is only logged. */
    method RecordMetrics(r: RunnerStore.Runner, ghost displayName: string, a: CompletionAnswer)
      requires Valid()
      modifies this, table
      ensures Valid() && Model() == RecordRun(setup, old(Model()), r, displayName, a)
      ensures store.runners == old(store.runners)
    {
      hide RunnerStore.Store.Model, RunnerStore.Store.Valid, RunRecord;
      if setup.settings.adaptive.enabled && a.usage.Some? {
        var recorded := table.Record(RunRecord(r, a.usage.value), a.now, a.recordOk);
        if recorded {
          sources := sources + [Source(r.containerID, displayName)];
        }
      }
    }

    method RetireRunner(name: string, id: RunnerStore.ContainerID, a: StopAnswer)
      requires Valid()
      modifies store, provisioner, provisioner.docker
      ensures Valid() && Model() == Retire(old(Model()), name, id, a)
      ensures store.runners.Values <= old(store.runners.Values)
    {
      hide RunnerStore.Store.Model, RunnerStore.Store.Valid, StopRunner, RunnerStore.Drop;
      var stopped := provisioner.Stop(id, a);
      store.Remove(name);
    }

    // ----- Reconciliation -----

    method ReconcileRunnerCount(total: int, answers: Answers)
      requires Valid() && answers.Valid()
      modifies this, store, provisioner, provisioner.docker
      ensures Valid() && Model() == Reconcile(setup, old(Model()), total, answers)
      ensures fresh(store.runners.Values - old(store.runners.Values))
    {
      hide Attempts, Model, Valid, State.ActiveCount, PendingList;
      var active := CountActive();
      if total <= active {
        return;
      }
      var list := ListPending(answers.order);
      ProvisionMissing(list, answers.reconcile, total - active);
    }

    method CountActive() returns (n: nat)
      requires Valid()
      ensures n == Model().ActiveCount()
    {
      n := store.ActiveCount();
    }

    method ListPending(order: set<string> -> seq<string>) returns (list: seq<PendingJob>)
      requires Enumerates(order(Model().pending.Keys), Model().pending.Keys)
      ensures list == PendingList(Model(), order)
    {
      var ids := order(pendingJobs.Keys);
      list := [];
      for i := 0 to |ids|
        invariant |list| == i && forall k | 0 <= k < i :: ids[k] in pendingJobs && list[k] == pendingJobs[ids[k]]
      {
        assert ids[i] in ids;
        list := list + [pendingJobs[ids[i]]];
      }
    }

    method ProvisionMissing(list: seq<PendingJob>, a: nat -> ProvisionAnswer, deficit: nat)
      requires Valid()
      modifies this, store, provisioner, provisioner.docker
      ensures Valid() && Model() == Attempts(setup, old(Model()), list, a, deficit)
      ensures fresh(store.runners.Values - old(store.runners.Values))
    {
      hide Provision, CandidateAt, Model, Valid, Setup.Valid;
      for i := 0 to deficit
        invariant Valid() && Model() == Attempts(setup, old(Model()), list, a, i)
        invariant fresh(store.runners.Values - old(store.runners.Values))
      {
        AttemptOnce(CandidateAt(setup, list, i), a(i));
      }
    }

    method AttemptOnce(job: PendingJob, a: ProvisionAnswer)
      requires Valid()
      modifies this, store, provisioner, provisioner.docker
      ensures Valid() && Model() == Attempt(setup, old(Model()), job, a)
      ensures fresh(store.runners.Values - old(store.runners.Values))
    {
      hide Provision, Model;
      if job.profile in setup.Profiles() {
        var ok := ProvisionRunner(job, setup.Profiles()[job.profile], a);
      }
    }

    // ----- Messages -----

    method AssignJobs(jobs: seq<AssignedJob>, a: nat -> ProvisionAnswer)
      requires Valid()
      modifies this, store, provisioner, provisioner.docker
      ensures Valid() && Model() == AssignAll(setup, old(Model()), jobs, a)
      ensures fresh(store.runners.Values - old(store.runners.Values))
    {
      hide Assign, Model, Valid, Setup.Valid;
      for i := 0 to |jobs|
        invariant Valid() && Model() == AssignAll(setup, old(Model()), jobs[..i], a)
        invariant fresh(store.runners.Values - old(store.runners.Values))
      {
        assert jobs[..i + 1][..i] == jobs[..i];
        var ok := HandleJobAssigned(jobs[i], a(i));
      }
      assert jobs[..|jobs|] == jobs;
    }

    method StartJobs(jobs: seq<StartedJob>)
      requires Valid()
      modifies this, store, store.runners.Values
      ensures Valid() && Model() == StartAll(old(Model()), jobs)
      ensures store.runners == old(store.runners)
    {
      hide Start, Model, Valid;
      for i := 0 to |jobs|
        invariant Valid() && Model() == StartAll(old(Model()), jobs[..i])
        invariant store.runners == old(store.runners)
      {
        assert jobs[..i + 1][..i] == jobs[..i];
        HandleJobStarted(jobs[i]);
      }
      assert jobs[..|jobs|] == jobs;
    }

    method CompleteJobs(jobs: seq<CompletedJob>, a: nat -> CompletionAnswer)
      requires Valid()
      modifies this, store, store.runners.Values, provisioner, provisioner.docker, table
      ensures Valid() && Model() == CompleteAll(setup, old(Model()), jobs, a)
      ensures store.runners.Values <= old(store.runners.Values)
    {
      hide Complete, Model, Valid;
      for i := 0 to |jobs|
        invariant Valid() && Model() == CompleteAll(setup, old(Model()), jobs[..i], a)
        invariant store.runners.Values <= old(store.runners.Values)
      {
        assert jobs[..i + 1][..i] == jobs[..i];
        HandleJobCompleted(jobs[i], a(i));
      }
      assert jobs[..|jobs|] == jobs;
    }

    method HandleMessage(m: Message, answers: Answers)
      requires Valid() && answers.Valid()
      modifies this, store, store.runners.Values, provisioner, provisioner.docker, table
      ensures Valid() && Model() == Handle(setup, old(Model()), m, answers)
      ensures fresh(store.runners.Values - old(store.runners.Values))
    {
      hide AssignAll, StartAll, CompleteAll, Reconcile, Model, Valid;
      AssignJobs(m.assignments, answers.assign);
      StartJobs(m.started);
      CompleteJobs(m.completed, answers.complete);
      if m.totalAssigned.Some? {
        ReconcileRunnerCount(m.totalAssigned.value, answers);
      }
    }

    // ----- The message loop -----

    /** Until the polls end, which is when the context is cancelled. */
    method RunLoop(polls: seq<Poll>) returns (lastMessageID: int)
      requires Valid() && forall p | p in polls :: p.Valid()
      modifies this, store, store.runners.Values, provisioner, provisioner.docker, table
      ensures Valid() && Machine(Model(), lastMessageID) == Run(setup, old(Model()), polls)
    {
      hide Turn, Model, Valid;
      lastMessageID := 0;
      for i := 0 to |polls|
        invariant Valid() && fresh(store.runners.Values - old(store.runners.Values))
        invariant Machine(Model(), lastMessageID) == Run(setup, old(Model()), polls[..i])
      {
        assert polls[..i + 1][..i] == polls[..i];
        assert polls[i] in polls;
        lastMessageID := TakeTurn(lastMessageID, polls[i]);
      }
      assert polls[..|polls|] == polls;
    }

    method TakeTurn(lastMessageID: int, poll: Poll) returns (nextID: int)
      requires Valid() && poll.Valid()
      modifies this, store, store.runners.Values, provisioner, provisioner.docker, table
      ensures Valid() && Machine(Model(), nextID) == Turn(setup, Machine(old(Model()), lastMessageID), poll)
      ensures fresh(store.runners.Values - old(store.runners.Values))
    {
      hide Handle, Model, Valid, Capacity, Log, Setup.Valid;
      nextID := lastMessageID;
      var capacity := AvailableCapacity();
      Note(Polled(lastMessageID, capacity));
      if poll.Delivered? {
        Note(Acked(poll.message.id));
        nextID := poll.message.id;
        HandleMessage(poll.message, poll.answers);
      }
    }

    method AvailableCapacity() returns (n: int)
      requires Valid()
      ensures n == Capacity(setup, Model())
    {
      var active := CountActive();
      n := setup.settings.maxRunners - active;
      if n < 0 {
        n := 0;
      }
    }

    ghost method Note(e: Effect)
      requires Valid()
      modifies this`log
      ensures Valid() && Model() == Log(old(Model()), e) && store.runners == old(store.runners)
    {
      log := log + [e];
    }
  }

  /** Loading a configuration: refused with a fault, or checked, ordered and handed to a classifier. */
  method Configure(cfg: Config, token: string, matches: Match) returns (setup: Option<Setup>)
    modifies cfg
    ensures setup.None? <==> !ValidSettings(cfg.settings) || token == ""
    ensures setup.Some? ==> setup.value.Valid() && setup.value.settings == cfg.settings
  {
    var fault := cfg.Validate(token);
    if fault.Some? {
      return None;
    }
    cfg.BuildOrderedProfiles();
    setup := Some(Setup(cfg.settings, Classifier(matches, cfg.orderedProfiles, cfg.settings.defaultProfile)));
  }

  /** The cleanup block of the main program, run after the message loop has stopped. */
  method Cleanup(s: Scaler, answers: nat -> StopAnswer) returns (ghost names: seq<string>)
    requires s.Valid()
    modifies s.provisioner, s.provisioner.docker
    ensures Enumerates(names, old(s.Model()).Runners().Keys)
    ensures s.provisioner.Model() == StopAll(old(s.Model()).fleet, TrackedIDs(old(s.Model()).Runners(), names), answers)
  {
    hide Scaler.Model, StopAll;
    ghost var was := s.Model();
    var ids: seq<RunnerStore.ContainerID>;
    ids, names := ListContainers(s);
    StopListed(s, ids, answers);
  }

  method ListContainers(s: Scaler) returns (ids: seq<RunnerStore.ContainerID>, ghost names: seq<string>)
    requires s.Valid()
    ensures Enumerates(names, s.Model().Runners().Keys) && ids == TrackedIDs(s.Model().Runners(), names)
  {
    var copies;
    copies, names := s.store.All();
    ids := [];
    for i := 0 to |copies|
      invariant |ids| == i && forall k | 0 <= k < i :: ids[k] == s.Model().Runners()[names[k]].containerID
    {
      ids := ids + [copies[i].containerID];
    }
  }

  method StopListed(s: Scaler, ids: seq<RunnerStore.ContainerID>, answers: nat -> StopAnswer)
    requires s.Valid()
    modifies s.provisioner, s.provisioner.docker
    ensures s.provisioner.Model() == StopAll(old(s.Model()).fleet, ids, answers)
  {
    hide StopAll;
    s.provisioner.StopEvery(ids, answers);
  }
}
