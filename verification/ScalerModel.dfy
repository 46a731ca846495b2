/**
 The scaler as a state machine: what each message, and each poll, makes of the pending jobs, the tracked runners,
 the containers and the metrics table. The environment's answers are parameters.
 */
module ScalerModel {
  import opened Wrappers
  import opened Decimal
  import opened Strings
  import opened Quantities
  import opened Configuration
  import opened Classification
  import opened MetricsStore
  import opened Adjustment
  import opened RunnerStore
  import opened Provisioning

  // ----- Messages and answers -----

  datatype AssignedJob = AssignedJob(jobID: string, displayName: string)

  datatype StartedJob = StartedJob(jobID: string, runnerName: string)

  /** The server names the job that ran and the runner it ran on, which need not be the one started for it. */
  datatype CompletedJob = CompletedJob(jobID: string, displayName: string, runnerName: string)

  /** `totalAssigned` is the statistic that reconciliation uses, when the message has statistics. */
  datatype Message = Message(
    id: int,
    assignments: seq<AssignedJob>,
    started: seq<StartedJob>,
    completed: seq<CompletedJob>,
    totalAssigned: Option<int>
  )

  datatype ProvisionAnswer = ProvisionAnswer(jitOk: bool, historyOk: bool, start: StartAnswer)

  /** What the collector measured of a run. */
  datatype Usage = Usage(cpu: int, mem: int)

  /** `usage` is what the collector measured, if it could; `now` is the clock of the database. */
  datatype CompletionAnswer = CompletionAnswer(usage: Option<Usage>, recordOk: bool, now: int, stop: StopAnswer)

  /** The answers while one message is handled; `order` is the order in which the pending map is iterated. */
  datatype Answers = Answers(
    assign: nat -> ProvisionAnswer,
    complete: nat -> CompletionAnswer,
    reconcile: nat -> ProvisionAnswer,
    order: set<string> -> seq<string>
  ) {
    ghost predicate Valid() {
      forall keys :: Enumerates(order(keys), keys)
    }
  }

  datatype Poll =
    | Failed
    | Empty
    | Delivered(message: Message, ackOk: bool, answers: Answers)
  {
    ghost predicate Valid() {
      Delivered? ==> answers.Valid()
    }
  }

  // ----- State -----

  datatype PendingJob = PendingJob(jobID: string, displayName: string, profile: string)

  /** What the scaler does towards the server, in order. */
  datatype Effect =
    | Polled(lastID: int, capacity: int)
    | Acked(id: int)
    | Requested(runnerName: string)

  /** The configuration, validated, and the classifier built from it. */
  datatype Setup = Setup(settings: Settings, classifier: Classifier) {
    ghost predicate Valid() {
      ValidSettings(settings) && classifier == For(settings, classifier.matches)
    }

    function Profiles(): map<string, Profile> {
      settings.profiles
    }

    function Scaling(): Adjuster {
      var a := settings.adaptive;
      Adjuster(a.scaleUpThreshold, a.scaleDownThreshold, a.scaleFactor, a.historyWindow, a.maxCPUs, a.maxMemory)
    }
  }

  /** What a container was created for. */
  datatype Origin = Origin(profile: string, jobName: string)

  /** Where a row is from: the container, and the display name of the job that completed on it. */
  datatype Source = Source(id: ContainerID, displayName: string)

  /**
   `sources` remembers where each row recorded so far is from, `origin` what each container was created for, and
   `basis` how many rows there were when the history for a container was read, if it was.
   */
  datatype State = State(
    pending: map<string, PendingJob>,
    tracker: Tracker,
    fleet: Fleet,
    rows: seq<Row>,
    sources: seq<Source>,
    origin: map<ContainerID, Origin>,
    basis: map<ContainerID, nat>,
    log: seq<Effect>
  ) {
    function Runners(): Contents {
      tracker.runners
    }

    function ActiveCount(): nat {
      |ActiveNames(tracker.runners)|
    }
  }

  // ----- Provisioning -----

  /** Between two logs only runner configurations were requested. */
  predicate OnlyRequests(before: seq<Effect>, after: seq<Effect>) {
    before <= after && forall i | |before| <= i < |after| :: after[i].Requested?
  }

  function RunnerName(profile: string, jobID: string): string {
    "runner-" + profile + "-" + jobID
  }

  lemma AdjusterValid(c: Setup)
    requires c.Valid() && c.settings.adaptive.enabled
    ensures c.Scaling().Valid()
  {
    ValidMeans(c.settings);
  }

  /** The resource strings a runner gets: adjusted when adaptive scaling is on and the history could be read. */
  function Effective(c: Setup, rows: seq<Row>, displayName: string, p: Profile, historyOk: bool): Adjusted
    requires c.Valid()
  {
    if c.settings.adaptive.enabled && historyOk then
      AdjusterValid(c);
      var a := c.Scaling();
      var h := History(rows, displayName, a.historyWindow);
      Adjusted(Chosen(Cpu, a, p, h), Chosen(Mem, a, p, h))
    else
      Adjusted(p.cpus, p.memory)
  }

  /** The containers after an attempt for `origin` came to `o`. */
  function Attempted(s: State, o: Outcome, origin: Origin): State {
    s.(fleet := AfterStart(s.fleet, o), origin := if o.Refused? then s.origin else s.origin[s.fleet.nextId := origin])
  }

  /** The history for the next container is read, or not. */
  function Consulted(c: Setup, s: State, historyOk: bool): State {
    s.(basis := if c.settings.adaptive.enabled && historyOk then s.basis[s.fleet.nextId := |s.rows|]
                else s.basis - {s.fleet.nextId})
  }

  /** A provisioning attempt came to `o`; `r` is the record of the runner apart from what Docker assigns. */
  function Launch(s: State, o: Outcome, r: Runner): State {
    var t := Attempted(s, o, Origin(r.profile, r.jobName));
    if o.Running? then
      t.(tracker := Add(s.tracker, r.(containerID := s.fleet.nextId, containerIP := o.ip)))
    else t
  }

  function NewRunner(displayName: string, jobID: string, profileName: string, e: Adjusted): Runner {
    Runner(RunnerName(profileName, jobID), 0, "", profileName, jobID, displayName, e.cpus, e.memory, Idle)
  }

  function Provision(c: Setup, s: State, job: PendingJob, a: ProvisionAnswer): (t: State)
    requires c.Valid() && job.profile in c.Profiles()
    ensures t.pending == s.pending && t.rows == s.rows && t.sources == s.sources
    ensures t.fleet.foreign == s.fleet.foreign && OnlyRequests(s.log, t.log)
  {
    var name := RunnerName(job.profile, job.jobID);
    var s1 := s.(log := s.log + [Requested(name)]);
    if !a.jitOk then s1
    else
      var e := Effective(c, s.rows, job.displayName, c.Profiles()[job.profile], a.historyOk);
      Launch(Consulted(c, s1, a.historyOk), StartOutcome(s.fleet, name, e.cpus, e.memory, a.start),
             NewRunner(job.displayName, job.jobID, job.profile, e))
  }

  // ----- Handlers -----

  function Assign(c: Setup, s: State, job: AssignedJob, a: ProvisionAnswer): (t: State)
    requires c.Valid()
    ensures t.fleet.foreign == s.fleet.foreign && OnlyRequests(s.log, t.log)
  {
    var profile := c.classifier.Classify(job.displayName);
    if profile !in c.Profiles() then s
    else
      var p := PendingJob(job.jobID, job.displayName, profile);
      Provision(c, s.(pending := s.pending[job.jobID := p]), p, a)
  }

  function Start(s: State, job: StartedJob): State {
    s.(tracker := SetStatus(s.tracker, job.runnerName, Busy), pending := s.pending - {job.jobID})
  }

  /** The metrics row of a completed run. */
  function RunRecord(r: Runner, u: Usage): MetricsRecord {
    MetricsRecord(r.jobName, r.profile, Trunc(ParseCPUToNano(r.cpus)), Trunc(ParseMemToBytes(r.memory)), u.cpu, u.mem)
  }

  /** The run is filed under the name of the job for which the runner was started. */
  function RecordRun(c: Setup, s: State, r: Runner, displayName: string, a: CompletionAnswer): State {
    if c.settings.adaptive.enabled && a.usage.Some? && a.recordOk then
      s.(rows := s.rows + [Row(|s.rows| + 1, a.now, RunRecord(r, a.usage.value))],
         sources := s.sources + [Source(r.containerID, displayName)])
    else s
  }

  /** Stop the container and forget the runner, whether or not the container could be removed. */
  function Retire(s: State, name: string, id: ContainerID, a: StopAnswer): State {
    s.(fleet := StopRunner(s.fleet, id, a), tracker := Drop(s.tracker, name))
  }

  function Complete(c: Setup, s: State, job: CompletedJob, a: CompletionAnswer): (t: State)
    ensures t.fleet.foreign == s.fleet.foreign && t.log == s.log && t.pending == s.pending - {job.jobID}
  {
    var s1 := s.(pending := s.pending - {job.jobID});
    if job.runnerName == "" then s1
    else
      var s2 := s1.(tracker := SetStatus(s1.tracker, job.runnerName, Completed));
      if job.runnerName !in s2.Runners() then s2
      else
        var r := s2.Runners()[job.runnerName];
        Retire(RecordRun(c, s2, r, job.displayName, a), job.runnerName, r.containerID, a.stop)
  }

  // ----- Reconciliation -----

  function PendingList(s: State, order: set<string> -> seq<string>): seq<PendingJob>
    requires Enumerates(order(s.pending.Keys), s.pending.Keys)
  {
    var ids := order(s.pending.Keys);
    assert forall i | 0 <= i < |ids| :: ids[i] in ids;
    seq(|ids|, i requires 0 <= i < |ids| => s.pending[ids[i]])
  }

  /** The job for which the i-th missing runner is provisioned: a pending one, or a placeholder. */
  function CandidateAt(c: Setup, list: seq<PendingJob>, i: nat): PendingJob {
    if i < |list| then list[i]
    else PendingJob("reconcile-" + Itoa(i), "unknown-reconcile", c.settings.defaultProfile)
  }

  function Attempt(c: Setup, s: State, job: PendingJob, a: ProvisionAnswer): (t: State)
    requires c.Valid()
    ensures t.pending == s.pending && t.rows == s.rows && t.sources == s.sources
    ensures t.fleet.foreign == s.fleet.foreign && OnlyRequests(s.log, t.log)
  {
    if job.profile in c.Profiles() then Provision(c, s, job, a) else s
  }

  function Attempts(c: Setup, s: State, list: seq<PendingJob>, a: nat -> ProvisionAnswer, n: nat): (t: State)
    requires c.Valid()
    ensures t.pending == s.pending && t.rows == s.rows && t.sources == s.sources
    ensures t.fleet.foreign == s.fleet.foreign && OnlyRequests(s.log, t.log)
  {
    if n == 0 then s else Attempt(c, Attempts(c, s, list, a, n - 1), CandidateAt(c, list, n - 1), a(n - 1))
  }

  function Deficit(s: State, total: int): int {
    total - s.ActiveCount()
  }

  function Reconcile(c: Setup, s: State, total: int, answers: Answers): (t: State)
    requires c.Valid() && answers.Valid()
    ensures t.pending == s.pending && t.rows == s.rows && t.sources == s.sources
    ensures t.fleet.foreign == s.fleet.foreign && OnlyRequests(s.log, t.log)
  {
    if Deficit(s, total) <= 0 then s
    else
      assert Enumerates(answers.order(s.pending.Keys), s.pending.Keys);
      Attempts(c, s, PendingList(s, answers.order), answers.reconcile, Deficit(s, total))
  }

  // ----- Messages -----

  function AssignAll(c: Setup, s: State, jobs: seq<AssignedJob>, a: nat -> ProvisionAnswer): (t: State)
    requires c.Valid()
    ensures t.fleet.foreign == s.fleet.foreign && OnlyRequests(s.log, t.log)
  {
    if jobs == [] then s
    else Assign(c, AssignAll(c, s, jobs[..|jobs| - 1], a), jobs[|jobs| - 1], a(|jobs| - 1))
  }

  function StartAll(s: State, jobs: seq<StartedJob>): (t: State)
    ensures t.fleet == s.fleet && t.log == s.log
  {
    if jobs == [] then s else Start(StartAll(s, jobs[..|jobs| - 1]), jobs[|jobs| - 1])
  }

  function CompleteAll(c: Setup, s: State, jobs: seq<CompletedJob>, a: nat -> CompletionAnswer): (t: State)
    ensures t.fleet.foreign == s.fleet.foreign && t.log == s.log
  {
    if jobs == [] then s
    else Complete(c, CompleteAll(c, s, jobs[..|jobs| - 1], a), jobs[|jobs| - 1], a(|jobs| - 1))
  }

  function HandleJobs(c: Setup, s: State, m: Message, answers: Answers): State
    requires c.Valid()
  {
    CompleteAll(c, StartAll(AssignAll(c, s, m.assignments, answers.assign), m.started), m.completed, answers.complete)
  }

  function Handle(c: Setup, s: State, m: Message, answers: Answers): (t: State)
    requires c.Valid() && answers.Valid()
    ensures t.pending == HandleJobs(c, s, m, answers).pending
    ensures t.fleet.foreign == s.fleet.foreign && OnlyRequests(s.log, t.log)
  {
    var s1 := HandleJobs(c, s, m, answers);
    match m.totalAssigned
    case None => s1
    case Some(total) => Reconcile(c, s1, total, answers)
  }

  // ----- Messages about one job -----

  lemma AssignOne(c: Setup, s: State, job: AssignedJob, a: nat -> ProvisionAnswer)
    requires c.Valid()
    ensures AssignAll(c, s, [job], a) == Assign(c, s, job, a(0))
  {
    hide Assign;
    assert [job][..0] == [];
    assert AssignAll(c, s, [], a) == s;
  }

  lemma StartOne(s: State, job: StartedJob)
    ensures StartAll(s, [job]) == Start(s, job)
  {
    hide Start;
    assert [job][..0] == [];
    assert StartAll(s, []) == s;
  }

  lemma CompleteOne(c: Setup, s: State, job: CompletedJob, a: nat -> CompletionAnswer)
    ensures CompleteAll(c, s, [job], a) == Complete(c, s, job, a(0))
  {
    hide Complete;
    assert [job][..0] == [];
    assert CompleteAll(c, s, [], a) == s;
  }

  lemma NoJobs(c: Setup, s: State, answers: Answers)
    requires c.Valid()
    ensures AssignAll(c, s, [], answers.assign) == s && StartAll(s, []) == s
    ensures CompleteAll(c, s, [], answers.complete) == s
  {}

  lemma AssignMessage(c: Setup, s: State, job: AssignedJob, id: int, answers: Answers)
    requires c.Valid() && answers.Valid()
    ensures Handle(c, s, Message(id, [job], [], [], None), answers) == Assign(c, s, job, answers.assign(0))
  {
    AssignOne(c, s, job, answers.assign);
    hide Assign, AssignAll, StartAll, CompleteAll;
    NoJobs(c, Assign(c, s, job, answers.assign(0)), answers);
  }

  lemma StartMessage(c: Setup, s: State, job: StartedJob, id: int, answers: Answers)
    requires c.Valid() && answers.Valid()
    ensures Handle(c, s, Message(id, [], [job], [], None), answers) == Start(s, job)
  {
    StartOne(s, job);
    hide Start, AssignAll, StartAll, CompleteAll;
    NoJobs(c, s, answers);
    NoJobs(c, Start(s, job), answers);
  }

  lemma CompleteMessage(c: Setup, s: State, job: CompletedJob, id: int, answers: Answers)
    requires c.Valid() && answers.Valid()
    ensures Handle(c, s, Message(id, [], [], [job], None), answers) == Complete(c, s, job, answers.complete(0))
  {
    CompleteOne(c, s, job, answers.complete);
    hide Complete, AssignAll, StartAll, CompleteAll;
    NoJobs(c, s, answers);
  }

  // ----- The message loop -----

  datatype Machine = Machine(state: State, lastID: int)

  function Capacity(c: Setup, s: State): int {
    var free := c.settings.maxRunners - s.ActiveCount();
    if free < 0 then 0 else free
  }

  function Log(s: State, e: Effect): State {
    s.(log := s.log + [e])
  }

  function Turn(c: Setup, m: Machine, poll: Poll): (n: Machine)
    requires c.Valid() && poll.Valid()
    ensures n.state.fleet.foreign == m.state.fleet.foreign
  {
    var s1 := Log(m.state, Polled(m.lastID, Capacity(c, m.state)));
    match poll
    case Failed => Machine(s1, m.lastID)
    case Empty => Machine(s1, m.lastID)
    case Delivered(msg, _, answers) => Machine(Handle(c, Log(s1, Acked(msg.id)), msg, answers), msg.id)
  }

  function Run(c: Setup, s: State, polls: seq<Poll>): (m: Machine)
    requires c.Valid() && forall p | p in polls :: p.Valid()
    ensures m.state.fleet.foreign == s.fleet.foreign
  {
    if polls == [] then Machine(s, 0)
    else Turn(c, Run(c, s, polls[..|polls| - 1]), polls[|polls| - 1])
  }

  /** A freshly constructed scaler over an arbitrary Docker world and metrics table. */
  function InitialFleet(existing: map<ContainerID, Container>, nextId: ContainerID): Fleet {
    Fleet(existing, nextId, existing, [], existing.Keys, {}, {}, {})
  }

  function Initial(existing: map<ContainerID, Container>, nextId: ContainerID, rows: seq<Row>): State {
    State(map[], Tracker(map[], [map[]]), InitialFleet(existing, nextId), rows, [], map[], map[], [])
  }
}
