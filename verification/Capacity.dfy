/** How many runners are tracked: after one message, at each poll, and over whole runs against a fair server. */
module Capacity {
  import opened Strings
  import opened Classification
  import opened RunnerStore
  import opened Provisioning
  import opened ScalerModel
  import opened Conservation
  import opened Invariants

  function Count(s: State): nat {
    |s.Runners()|
  }

  lemma SubsetSize<T>(a: set<T>, b: set<T>)
    requires a <= b
    ensures |a| <= |b|
  {
    assert b == a + (b - a);
  }

  lemma KeysSize(a: Contents, b: Contents, extra: set<string>)
    requires a.Keys <= b.Keys + extra
    ensures |a| <= |b| + |extra|
  {
    SubsetSize(a.Keys, b.Keys + extra);
    assert |b.Keys + extra| <= |b.Keys| + |extra|;
  }

  /** Between messages every tracked runner is active. */
  lemma AllActive(s: State)
    requires NoneCompleted(s)
    ensures s.ActiveCount() == Count(s)
  {
    assert ActiveNames(s.Runners()) == s.Runners().Keys;
  }

  lemma LaunchCount(s: State, o: Outcome, r: Runner)
    ensures Count(Launch(s, o, r)) <= Count(s) + 1
  {
    KeysSize(Launch(s, o, r).Runners(), s.Runners(), {r.name});
  }

  lemma ProvisionCount(c: Setup, s: State, job: PendingJob, a: ProvisionAnswer)
    requires c.Valid() && job.profile in c.Profiles()
    ensures Count(Provision(c, s, job, a)) <= Count(s) + 1
  {
    hide Launch, StartOutcome, Effective, RunnerName;
    var name := RunnerName(job.profile, job.jobID);
    var s1 := s.(log := s.log + [Requested(name)]);
    var e := Effective(c, s.rows, job.displayName, c.Profiles()[job.profile], a.historyOk);
    var s2 := Consulted(c, s1, a.historyOk);
    assert Count(s1) == Count(s2) == Count(s);
    LaunchCount(s2, StartOutcome(s.fleet, name, e.cpus, e.memory, a.start),
                NewRunner(job.displayName, job.jobID, job.profile, e));
  }

  lemma {:induction false} AssignAllCount(c: Setup, s: State, jobs: seq<AssignedJob>, a: nat -> ProvisionAnswer)
    requires c.Valid()
    ensures Count(AssignAll(c, s, jobs, a)) <= Count(s) + |jobs|
  {
    hide Provision, Classifier.Classify;
    if jobs != [] {
      var n := |jobs| - 1;
      AssignAllCount(c, s, jobs[..n], a);
      var before := AssignAll(c, s, jobs[..n], a);
      AssignCount(c, before, jobs[n], a(n));
    }
  }

  lemma AssignCount(c: Setup, s: State, job: AssignedJob, a: ProvisionAnswer)
    requires c.Valid()
    ensures Count(Assign(c, s, job, a)) <= Count(s) + 1
  {
    hide Provision, Classifier.Classify;
    var profile := c.classifier.Classify(job.displayName);
    if profile in c.Profiles() {
      var p := PendingJob(job.jobID, job.displayName, profile);
      var s1 := s.(pending := s.pending[job.jobID := p]);
      assert Count(s1) == Count(s);
      ProvisionCount(c, s1, p, a);
    }
  }

  lemma {:induction false} StartAllCount(s: State, jobs: seq<StartedJob>)
    ensures Count(StartAll(s, jobs)) <= Count(s)
  {
    if jobs != [] {
      var before := StartAll(s, jobs[..|jobs| - 1]);
      StartAllCount(s, jobs[..|jobs| - 1]);
      KeysSize(Start(before, jobs[|jobs| - 1]).Runners(), before.Runners(), {});
    }
  }

  lemma CompleteCount(c: Setup, s: State, job: CompletedJob, a: CompletionAnswer)
    ensures Count(Complete(c, s, job, a)) <= Count(s)
  {
    KeysSize(Complete(c, s, job, a).Runners(), s.Runners(), {});
  }

  lemma {:induction false} CompleteAllCount(c: Setup, s: State, jobs: seq<CompletedJob>, a: nat -> CompletionAnswer)
    ensures Count(CompleteAll(c, s, jobs, a)) <= Count(s)
  {
    hide Complete;
    if jobs != [] {
      var n := |jobs| - 1;
      CompleteAllCount(c, s, jobs[..n], a);
      CompleteCount(c, CompleteAll(c, s, jobs[..n], a), jobs[n], a(n));
    }
  }

  lemma {:induction false} AttemptsCount(c: Setup, s: State, list: seq<PendingJob>, a: nat -> ProvisionAnswer, n: nat)
    requires c.Valid()
    ensures Count(Attempts(c, s, list, a, n)) <= Count(s) + n
  {
    hide Provision, CandidateAt;
    if n != 0 {
      AttemptsCount(c, s, list, a, n - 1);
      var before := Attempts(c, s, list, a, n - 1);
      var job := CandidateAt(c, list, n - 1);
      if job.profile in c.Profiles() {
        ProvisionCount(c, before, job, a(n - 1));
      }
    }
  }

  function Max(x: int, y: int): int {
    if x < y then y else x
  }

  /** Reconciliation never goes beyond the number of assigned jobs, and does nothing without a deficit. */
  lemma ReconcileCount(c: Setup, s: State, total: int, answers: Answers)
    requires c.Valid() && answers.Valid() && NoneCompleted(s)
    ensures Count(Reconcile(c, s, total, answers)) <= Max(Count(s), total)
    ensures total <= Count(s) ==> Reconcile(c, s, total, answers) == s
  {
    hide Attempts, PendingList, Count;
    AllActive(s);
    if 0 < Deficit(s, total) {
      assert Enumerates(answers.order(s.pending.Keys), s.pending.Keys);
      AttemptsCount(c, s, PendingList(s, answers.order), answers.reconcile, Deficit(s, total));
    }
  }

  /** One message: at most the runners there were plus the jobs assigned, or the reported number of assigned jobs. */
  lemma HandleCount(c: Setup, s: State, m: Message, answers: Answers, base: nat)
    requires c.Valid() && answers.Valid() && Inv(c, s, base)
    ensures m.totalAssigned.None? ==> Count(Handle(c, s, m, answers)) <= Count(s) + |m.assignments|
    ensures m.totalAssigned.Some? ==>
              Count(Handle(c, s, m, answers)) <= Max(Count(s) + |m.assignments|, m.totalAssigned.value)
  {
    hide Core, Routing, LimitsOk, RecordsOk, NoneCompleted, AssignAll, StartAll, CompleteAll, Reconcile, Count;
    var s1 := AssignAll(c, s, m.assignments, answers.assign);
    var s2 := StartAll(s1, m.started);
    AssignAllCount(c, s, m.assignments, answers.assign);
    StartAllCount(s1, m.started);
    CompleteAllCount(c, s2, m.completed, answers.complete);
    if m.totalAssigned.Some? {
      HandleKeeps(c, s, m, answers, base);
      ReconcileCount(c, HandleJobs(c, s, m, answers), m.totalAssigned.value, answers);
    }
  }

  // ----- Whatever readers see -----

  /** No content of the store between two critical sections has more than `m` runners. */
  ghost predicate ViewsWithin(s: State, m: int) {
    forall i | 0 <= i < |s.tracker.views| :: |s.tracker.views[i]| <= m
  }

  lemma OneMoreView(s: State, t: State, m: int)
    requires ViewsWithin(s, m) && Count(t) <= m
    requires t.tracker == s.tracker || t.tracker.views == s.tracker.views + [t.Runners()]
    ensures ViewsWithin(t, m)
  {}

  lemma ProvisionWithin(c: Setup, s: State, job: PendingJob, a: ProvisionAnswer, m: int)
    requires c.Valid() && job.profile in c.Profiles() && ViewsWithin(s, m) && Count(s) + 1 <= m
    ensures ViewsWithin(Provision(c, s, job, a), m)
  {
    hide StartOutcome, Effective, RunnerName, ViewsWithin, Count;
    ProvisionCount(c, s, job, a);
    OneMoreView(s, Provision(c, s, job, a), m);
  }

  lemma AssignWithin(c: Setup, s: State, job: AssignedJob, a: ProvisionAnswer, m: int)
    requires c.Valid() && ViewsWithin(s, m) && Count(s) + 1 <= m
    ensures ViewsWithin(Assign(c, s, job, a), m)
  {
    hide Provision, Classifier.Classify;
    var profile := c.classifier.Classify(job.displayName);
    if profile in c.Profiles() {
      var p := PendingJob(job.jobID, job.displayName, profile);
      ProvisionWithin(c, s.(pending := s.pending[job.jobID := p]), p, a, m);
    }
  }

  lemma {:induction false} AssignAllWithin(
      c: Setup, s: State, jobs: seq<AssignedJob>, a: nat -> ProvisionAnswer, m: int)
    requires c.Valid() && ViewsWithin(s, m) && Count(s) + |jobs| <= m
    ensures ViewsWithin(AssignAll(c, s, jobs, a), m)
  {
    hide Assign, ViewsWithin, Count;
    if jobs != [] {
      var n := |jobs| - 1;
      AssignAllWithin(c, s, jobs[..n], a, m);
      AssignAllCount(c, s, jobs[..n], a);
      AssignWithin(c, AssignAll(c, s, jobs[..n], a), jobs[n], a(n), m);
    }
  }

  lemma {:induction false} StartAllWithin(s: State, jobs: seq<StartedJob>, m: int)
    requires ViewsWithin(s, m) && Count(s) <= m
    ensures ViewsWithin(StartAll(s, jobs), m)
  {
    hide ViewsWithin;
    if jobs != [] {
      var before := StartAll(s, jobs[..|jobs| - 1]);
      StartAllWithin(s, jobs[..|jobs| - 1], m);
      StartAllCount(s, jobs);
      OneMoreView(before, StartAll(s, jobs), m);
    }
  }

  /** A completion is seen twice: the runner completed, and gone. */
  lemma CompleteWithin(c: Setup, s: State, job: CompletedJob, a: CompletionAnswer, m: int)
    requires ViewsWithin(s, m) && Count(s) <= m
    ensures ViewsWithin(Complete(c, s, job, a), m)
  {
    hide ViewsWithin, RunRecord, StopRunner;
    var t := Complete(c, s, job, a);
    CompleteCount(c, s, job, a);
    if job.runnerName == "" {
      OneMoreView(s, t, m);
    } else {
      var s1 := Marked(s, job.runnerName, Completed);
      KeysSize(s1.Runners(), s.Runners(), {});
      OneMoreView(s, s1, m);
      OneMoreView(s1, t, m);
    }
  }

  lemma {:induction false} CompleteAllWithin(
      c: Setup, s: State, jobs: seq<CompletedJob>, a: nat -> CompletionAnswer, m: int)
    requires ViewsWithin(s, m) && Count(s) <= m
    ensures ViewsWithin(CompleteAll(c, s, jobs, a), m)
  {
    hide Complete, ViewsWithin, Count;
    if jobs != [] {
      var n := |jobs| - 1;
      CompleteAllWithin(c, s, jobs[..n], a, m);
      CompleteAllCount(c, s, jobs[..n], a);
      CompleteWithin(c, CompleteAll(c, s, jobs[..n], a), jobs[n], a(n), m);
    }
  }

  lemma {:induction false} AttemptsWithin(
      c: Setup, s: State, list: seq<PendingJob>, a: nat -> ProvisionAnswer, n: nat, m: int)
    requires c.Valid() && ViewsWithin(s, m) && Count(s) + n <= m
    ensures ViewsWithin(Attempts(c, s, list, a, n), m)
    decreases n
  {
    hide Attempt, CandidateAt, ViewsWithin, Count, Setup.Valid;
    if n != 0 {
      AttemptsWithin(c, s, list, a, n - 1, m);
      AttemptsCount(c, s, list, a, n - 1);
      AttemptWithin(c, Attempts(c, s, list, a, n - 1), CandidateAt(c, list, n - 1), a(n - 1), m);
    }
  }

  lemma AttemptWithin(c: Setup, s: State, job: PendingJob, a: ProvisionAnswer, m: int)
    requires c.Valid() && ViewsWithin(s, m) && Count(s) + 1 <= m
    ensures ViewsWithin(Attempt(c, s, job, a), m)
  {
    hide Provision, ViewsWithin, Count, Setup.Valid;
    if job.profile in c.Profiles() {
      ProvisionWithin(c, s, job, a, m);
    }
  }

  /** While one message is handled, readers see no more runners than its assignments and its total allow. */
  lemma HandleWithin(c: Setup, s: State, m: Message, answers: Answers, base: nat, most: int)
    requires c.Valid() && answers.Valid() && Inv(c, s, base) && ViewsWithin(s, most)
    requires Count(s) + |m.assignments| <= most && (m.totalAssigned.Some? ==> m.totalAssigned.value <= most)
    ensures ViewsWithin(Handle(c, s, m, answers), most)
  {
    hide Inv, AssignAll, StartAll, CompleteAll, Attempts, PendingList, Count, ViewsWithin, State.ActiveCount;
    var s1 := AssignAll(c, s, m.assignments, answers.assign);
    var s2 := StartAll(s1, m.started);
    AssignAllWithin(c, s, m.assignments, answers.assign, most);
    AssignAllCount(c, s, m.assignments, answers.assign);
    StartAllWithin(s1, m.started, most);
    StartAllCount(s1, m.started);
    CompleteAllWithin(c, s2, m.completed, answers.complete, most);
    if m.totalAssigned.Some? {
      HandleKeeps(c, s, m, answers, base);
      ReconcileWithin(c, HandleJobs(c, s, m, answers), m.totalAssigned.value, answers, base, most);
    }
  }

  lemma ReconcileWithin(c: Setup, s: State, total: int, answers: Answers, base: nat, most: int)
    requires c.Valid() && answers.Valid() && Inv(c, s, base) && ViewsWithin(s, most) && total <= most
    ensures ViewsWithin(Reconcile(c, s, total, answers), most)
  {
    InvActive(c, s, base);
    hide Inv, Attempts, PendingList, Count, ViewsWithin, State.ActiveCount;
    if 0 < Deficit(s, total) {
      assert Enumerates(answers.order(s.pending.Keys), s.pending.Keys);
      AttemptsWithin(c, s, PendingList(s, answers.order), answers.reconcile, Deficit(s, total), most);
    }
  }

  lemma InvActive(c: Setup, s: State, base: nat)
    requires c.Valid() && Inv(c, s, base)
    ensures s.ActiveCount() == Count(s)
  {
    hide Core, Routing, LimitsOk, RecordsOk;
    AllActive(s);
  }

  /**
   A server that assigns no more jobs at a time than the capacity it was told, and reports no more assigned jobs than
   the maximum.
   */
  ghost predicate FairServer(c: Setup, s: State, polls: seq<Poll>)
    requires c.Valid() && forall p | p in polls :: p.Valid()
  {
    forall k | 0 <= k < |polls| && polls[k].Delivered? :: FairPoll(c, Run(c, s, polls[..k]).state, polls[k])
  }

  predicate FairPoll(c: Setup, s: State, p: Poll)
    requires p.Delivered?
  {
    |p.message.assignments| <= ScalerModel.Capacity(c, s)
    && (p.message.totalAssigned.Some? ==> p.message.totalAssigned.value <= c.settings.maxRunners)
  }

  lemma TurnCount(c: Setup, m: Machine, poll: Poll, base: nat)
    requires c.Valid() && poll.Valid() && Inv(c, m.state, base)
    requires poll.Delivered? ==> FairPoll(c, m.state, poll)
    requires Count(m.state) <= c.settings.maxRunners && ViewsWithin(m.state, c.settings.maxRunners)
    ensures Count(Turn(c, m, poll).state) <= c.settings.maxRunners
    ensures ViewsWithin(Turn(c, m, poll).state, c.settings.maxRunners)
  {
    InvActive(c, m.state, base);
    hide Inv, Turn, State.ActiveCount, Count, ViewsWithin, Setup.Valid, Answers.Valid;
    var log := TurnState(c, m, poll);
    LogCount(m.state, log, c.settings.maxRunners);
    if poll.Delivered? {
      LogInv(c, m.state, log, base);
      MessageCount(c, m.state.(log := log), poll, base);
    }
  }

  /** A poll changes the log, and a message is handled in the state that is left. */
  lemma TurnState(c: Setup, m: Machine, poll: Poll) returns (log: seq<Effect>)
    requires c.Valid() && poll.Valid()
    ensures var s := m.state.(log := log);
            Turn(c, m, poll).state == if poll.Delivered? then Handle(c, s, poll.message, poll.answers) else s
  {
    hide Handle, Setup.Valid;
    log := m.state.log + [Polled(m.lastID, ScalerModel.Capacity(c, m.state))];
    if poll.Delivered? {
      log := log + [Acked(poll.message.id)];
    }
  }

  lemma MessageCount(c: Setup, s: State, poll: Poll, base: nat)
    requires c.Valid() && poll.Valid() && poll.Delivered? && Inv(c, s, base) && FairPoll(c, s, poll)
    requires s.ActiveCount() == Count(s) <= c.settings.maxRunners && ViewsWithin(s, c.settings.maxRunners)
    ensures Count(Handle(c, s, poll.message, poll.answers)) <= c.settings.maxRunners
    ensures ViewsWithin(Handle(c, s, poll.message, poll.answers), c.settings.maxRunners)
  {
    hide Inv, Handle, State.ActiveCount, Count, ViewsWithin, Setup.Valid, Answers.Valid;
    HandleCount(c, s, poll.message, poll.answers, base);
    HandleWithin(c, s, poll.message, poll.answers, base, c.settings.maxRunners);
  }

  lemma LogCount(s: State, log: seq<Effect>, m: int)
    ensures Count(s.(log := log)) == Count(s) && (ViewsWithin(s, m) ==> ViewsWithin(s.(log := log), m))
  {}

  lemma LogInv(c: Setup, s: State, log: seq<Effect>, base: nat)
    requires c.Valid() && Inv(c, s, base)
    ensures Inv(c, s.(log := log), base)
  {
    hide Inv;
    LogKeeps(c, s, log, base);
  }

  /**
   Against a fair server the tracked runners never exceed the configured maximum, neither between polls nor in any
   content of the store that a reader can see while a message is handled.
   */
  lemma {:induction false} RunCount(c: Setup, s: State, polls: seq<Poll>, base: nat)
    requires c.Valid() && (forall p | p in polls :: p.Valid()) && Inv(c, s, base) && FairServer(c, s, polls)
    requires Count(s) <= c.settings.maxRunners && ViewsWithin(s, c.settings.maxRunners)
    ensures Count(Run(c, s, polls).state) <= c.settings.maxRunners
    ensures ViewsWithin(Run(c, s, polls).state, c.settings.maxRunners)
    decreases |polls|
  {
    hide Inv, Turn, FairPoll, Count, ViewsWithin;
    if polls != [] {
      var front := polls[..|polls| - 1];
      assert forall k | 0 <= k < |front| :: front[k] == polls[k] && front[..k] == polls[..k];
      RunCount(c, s, front, base);
      RunKeeps(c, s, front, base);
      TurnCount(c, Run(c, s, front), polls[|polls| - 1], base);
    }
  }

  /** Every poll tells the server how many more runners fit, counting all tracked ones. */
  lemma AdvertisedCapacity(c: Setup, m: Machine, poll: Poll, base: nat)
    requires c.Valid() && poll.Valid() && Inv(c, m.state, base)
    ensures var log, n := Turn(c, m, poll).state.log, |m.state.log|;
            n < |log| && log[..n] == m.state.log
            && log[n] == Polled(m.lastID, Max(0, c.settings.maxRunners - Count(m.state)))
  {
    hide Core, Routing, LimitsOk, RecordsOk, NoneCompleted, Handle, State.ActiveCount;
    AllActive(m.state);
  }
}
