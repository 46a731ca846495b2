/** Reconciliation does not help while the missing runners' candidates are pending jobs whose own runners are up. */
module Stalemate {
  import opened Wrappers
  import opened Strings
  import opened Classification
  import opened Provisioning
  import opened ScalerModel
  import opened Conservation
  import opened Capacity
  import opened Reconciliation

  /** Apart from the log, and the note of which rows were read last. */
  predicate Unmoved(s: State, t: State) {
    t.tracker == s.tracker && t.fleet == s.fleet && t.pending == s.pending && t.rows == s.rows
  }

  /** Every pending job has a container under its runner's name: its own runner is up, but the job has not started. */
  ghost predicate OwnNamesTaken(s: State) {
    forall j | j in s.pending :: NameTaken(s.fleet.containers, NameOf(s.pending[j]))
  }

  lemma AttemptStalls(c: Setup, s: State, job: PendingJob, a: ProvisionAnswer)
    requires c.Valid() && NameTaken(s.fleet.containers, NameOf(job))
    ensures Unmoved(s, Attempt(c, s, job, a))
  {
    hide Effective, RunnerName, NameTaken, Limits;
  }

  lemma {:induction false} AttemptsStall(c: Setup, s: State, list: seq<PendingJob>, a: nat -> ProvisionAnswer, n: nat)
    requires c.Valid() && forall i: nat | i < n :: NameTaken(s.fleet.containers, NameOf(CandidateAt(c, list, i)))
    ensures Unmoved(s, Attempts(c, s, list, a, n))
    decreases n
  {
    hide Attempt, NameOf, CandidateAt, NameTaken, Setup.Valid;
    if n != 0 {
      AttemptsStall(c, s, list, a, n - 1);
      AttemptStalls(c, Attempts(c, s, list, a, n - 1), CandidateAt(c, list, n - 1), a(n - 1));
    }
  }

  /** A round that lacks no more runners than jobs are pending only tries names that are taken, whatever is answered. */
  lemma RoundStalls(c: Setup, s: State, total: int, answers: Answers)
    requires c.Valid() && answers.Valid() && OwnNamesTaken(s) && Deficit(s, total) <= |s.pending|
    ensures Unmoved(s, Reconcile(c, s, total, answers))
  {
    hide Attempts, NameOf, NameTaken, PendingList, Setup.Valid, State.ActiveCount;
    if 0 < Deficit(s, total) {
      assert Enumerates(answers.order(s.pending.Keys), s.pending.Keys);
      var list := PendingList(s, answers.order);
      CandidatesArePending(c, s, answers.order);
      forall i: nat | i < Deficit(s, total) ensures NameTaken(s.fleet.containers, NameOf(CandidateAt(c, list, i))) {
        assert CandidateAt(c, list, i) in s.pending.Values;
      }
      AttemptsStall(c, s, list, answers.reconcile, Deficit(s, total));
    }
  }

  // ----- Over runs -----

  /** A message without jobs whose total lacks no more runners than jobs are pending. */
  predicate Quiet(s: State, p: Poll) {
    p.Delivered? ==>
      && p.message.assignments == [] && p.message.started == [] && p.message.completed == []
      && (p.message.totalAssigned.Some? ==> Deficit(s, p.message.totalAssigned.value) <= |s.pending|)
  }

  lemma TurnStalls(c: Setup, m: Machine, poll: Poll)
    requires c.Valid() && poll.Valid() && OwnNamesTaken(m.state) && Quiet(m.state, poll)
    ensures Unmoved(m.state, Turn(c, m, poll).state)
  {
    hide Reconcile, NameOf, NameTaken, Setup.Valid, AssignAll, StartAll, CompleteAll, ScalerModel.Capacity;
    if poll.Delivered? {
      var s1 := Log(m.state, Polled(m.lastID, ScalerModel.Capacity(c, m.state)));
      var s2 := Log(s1, Acked(poll.message.id));
      NoJobs(c, s2, poll.answers);
      assert s2.Runners() == m.state.Runners();
      if poll.message.totalAssigned.Some? {
        RoundStalls(c, s2, poll.message.totalAssigned.value, poll.answers);
      }
    }
  }

  /** It stays that way for as long as such messages arrive, whatever the environment answers. */
  lemma {:induction false} StaysStalled(c: Setup, s: State, polls: seq<Poll>, rest: seq<Poll>)
    requires c.Valid() && (forall p | p in polls :: p.Valid()) && (forall p | p in rest :: p.Valid())
    requires var t := Run(c, s, polls).state; OwnNamesTaken(t) && forall p | p in rest :: Quiet(t, p)
    ensures forall p | p in polls + rest :: p.Valid()
    ensures Unmoved(Run(c, s, polls).state, Run(c, s, polls + rest).state)
    decreases |rest|
  {
    hide Turn, NameOf, NameTaken, Setup.Valid, Poll.Valid, Quiet;
    if rest == [] {
      assert polls + rest == polls;
    } else {
      var front, last := rest[..|rest| - 1], rest[|rest| - 1];
      assert last in rest && forall p | p in front :: p in rest;
      StaysStalled(c, s, polls, front);
      assert (polls + rest)[..|polls + rest| - 1] == polls + front && (polls + rest)[|polls + rest| - 1] == last;
      SameQuiet(Run(c, s, polls).state, Run(c, s, polls + front).state, last);
      TurnStalls(c, Run(c, s, polls + front), last);
    }
  }

  lemma SameQuiet(s: State, t: State, p: Poll)
    requires Unmoved(s, t)
    ensures (Quiet(s, p) ==> Quiet(t, p)) && (OwnNamesTaken(s) ==> OwnNamesTaken(t))
  {
    assert t.Runners() == s.Runners();
  }

  // ----- A run that never gets its second runner -----

  /** The message that assigns one job, and smooth answers to it. */
  ghost predicate OneSmoothJob(c: Setup, s: State, p: Poll, job: AssignedJob)
    requires c.Valid()
  {
    && p.Delivered? && p.Valid() && p.message.totalAssigned == Some(1)
    && p.message.assignments == [job] && p.message.started == [] && p.message.completed == []
    && var pending := PendingJob(job.jobID, job.displayName, c.classifier.Classify(job.displayName));
       Smooth(p.answers.assign(0)) && Startable(c, s.rows, pending, p.answers.assign(0))
       && !NameTaken(s.fleet.containers, NameOf(pending))
  }

  /** After that message the job's runner is the only one, its name is taken, and the job is still pending. */
  lemma OneRunner(c: Setup, s: State, p: Poll, job: AssignedJob)
    requires c.Valid() && Sound(s) && s.pending == map[] && s.Runners() == map[] && OneSmoothJob(c, s, p, job)
    ensures var t := Turn(c, Machine(s, 0), p).state;
            |t.Runners()| == 1 && t.pending.Keys == {job.jobID} && OwnNamesTaken(t) && NoneCompleted(t)
  {
    hide Assign, Reconcile, Sound, NameTaken, NameOf, Startable, Smooth, ScalerModel.Capacity, Setup.Valid,
      Classifier.Classify, AssignAll, StartAll, CompleteAll;
    var s1 := Log(s, Polled(0, ScalerModel.Capacity(c, s)));
    var s2 := Log(s1, Acked(p.message.id));
    var t := Assign(c, s2, job, p.answers.assign(0));
    AssignOne(c, s2, job, p.answers.assign);
    NoJobs(c, t, p.answers);
    OneAssigned(c, s, s2, job, p.answers.assign(0));
    RoundStalls(c, t, 1, p.answers);
  }

  lemma OneAssigned(c: Setup, s: State, t: State, job: AssignedJob, a: ProvisionAnswer)
    requires c.Valid() && Sound(s) && s.pending == map[] && s.Runners() == map[] && t == s.(log := t.log)
    requires var pending := PendingJob(job.jobID, job.displayName, c.classifier.Classify(job.displayName));
             Smooth(a) && Startable(c, s.rows, pending, a) && !NameTaken(s.fleet.containers, NameOf(pending))
    ensures var u := Assign(c, t, job, a);
            |u.Runners()| == 1 && u.pending.Keys == {job.jobID} && OwnNamesTaken(u) && NoneCompleted(u)
            && u.ActiveCount() == 1
  {
    hide Sound, NameTaken, NameOf, Smooth, Classifier.Classify, Provision, Setup.Valid, Effective, State.ActiveCount;
    var pending := PendingJob(job.jobID, job.displayName, c.classifier.Classify(job.displayName));
    var s1 := t.(pending := t.pending[job.jobID := pending]);
    assert s1.Runners() == s.Runners() && s1.fleet == s.fleet;
    SoundSame(s, s1);
    SmoothAttempt(c, s1, pending, a);
    var u := Attempt(c, s1, pending, a);
    SoundActive(u);
    assert u.Runners().Keys == {NameOf(pending)};
    SoundNoneCompleted(u);
  }

  lemma SoundNoneCompleted(s: State)
    requires Sound(s)
    ensures NoneCompleted(s)
  {}

  /** A poll without a message, or with one that only reports two assigned jobs. */
  predicate ReportsTwo(p: Poll) {
    p.Delivered? ==>
      && p.message.assignments == [] && p.message.started == [] && p.message.completed == []
      && p.message.totalAssigned == Some(2)
  }

  /**
   One job is assigned and gets its runner; from then on the server reports two assigned jobs, in as many messages as it
   likes and whatever else is answered: as long as the job has not started, there is one runner.
   */
  lemma SecondRunnerNeverStarts(c: Setup, s: State, first: Poll, job: AssignedJob, rest: seq<Poll>)
    requires c.Valid() && Sound(s) && s.pending == map[] && s.Runners() == map[] && OneSmoothJob(c, s, first, job)
    requires forall p | p in rest :: p.Valid() && ReportsTwo(p)
    ensures forall p | p in [first] + rest :: p.Valid()
    ensures |Run(c, s, [first] + rest).state.Runners()| == 1
  {
    hide Turn, Sound, OneSmoothJob, Setup.Valid, Answers.Valid, OwnNamesTaken;
    FirstTurn(c, s, first, job);
    var t := Run(c, s, [first]).state;
    StaysStalled(c, s, [first], rest);
    assert Run(c, s, [first] + rest).state.Runners() == t.Runners();
  }

  lemma FirstTurn(c: Setup, s: State, first: Poll, job: AssignedJob)
    requires c.Valid() && Sound(s) && s.pending == map[] && s.Runners() == map[] && OneSmoothJob(c, s, first, job)
    ensures first.Valid()
    ensures var t := Run(c, s, [first]).state;
            |t.Runners()| == 1 && |t.pending| == 1 && OwnNamesTaken(t) && t.ActiveCount() == 1
  {
    hide Turn, Sound, Setup.Valid, Answers.Valid, OwnNamesTaken, State.ActiveCount, OneSmoothJob, NoneCompleted;
    assert first.Valid() by { SmoothJobValid(c, s, first, job); }
    RunOne(c, s, first);
    OneRunner(c, s, first, job);
    AllActive(Run(c, s, [first]).state);
    assert Run(c, s, [first]).state.pending.Keys == {job.jobID};
  }

  lemma SmoothJobValid(c: Setup, s: State, first: Poll, job: AssignedJob)
    requires c.Valid() && OneSmoothJob(c, s, first, job)
    ensures first.Valid()
  {}

  lemma RunOne(c: Setup, s: State, p: Poll)
    requires c.Valid() && p.Valid()
    ensures Run(c, s, [p]) == Turn(c, Machine(s, 0), p)
  {
    hide Turn;
    assert [p][..0] == [];
    assert Run(c, s, []) == Machine(s, 0);
  }
}
