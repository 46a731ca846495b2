/**
 What a message does to each of its jobs, whatever the environment answers about the others; and what a poll with it
 reaches.
 */
module Messages {
  import opened Wrappers
  import opened Strings
  import opened Decimal
  import opened Quantities
  import opened Configuration
  import opened Classification
  import opened MetricsStore
  import opened RunnerStore
  import opened Provisioning
  import opened ScalerModel
  import opened Conservation
  import opened Grants
  import opened Invariants
  import opened Operations
  import opened Reconciliation
  import opened Series
  import opened Rounds
  import Runs

  // ----- The assignments of a message -----

  /** The jobs that are assigned, with their profiles. */
  function Jobs(c: Setup, jobs: seq<AssignedJob>): (r: seq<PendingJob>)
    ensures |r| == |jobs|
  {
    seq(|jobs|, i requires 0 <= i < |jobs| =>
      PendingJob(jobs[i].jobID, jobs[i].displayName, c.classifier.Classify(jobs[i].displayName)))
  }

  lemma JobsRoutable(c: Setup, jobs: seq<AssignedJob>)
    requires c.Valid()
    ensures Routable(c, Jobs(c, jobs))
  {
    hide Classifier.Classify;
    forall i | 0 <= i < |jobs| ensures Jobs(c, jobs)[i].profile in c.Profiles() {
      ClassifyFindsProfile(c.settings, c.classifier.matches, jobs[i].displayName);
    }
  }

  lemma {:induction false} AssignAllTries(c: Setup, s: State, jobs: seq<AssignedJob>, a: nat -> ProvisionAnswer)
    requires c.Valid()
    ensures var t := AssignAll(c, s, jobs, a); t == Tried(c, s, Jobs(c, jobs), a).(pending := t.pending)
  {
    hide Classifier.Classify, Provision, For, ValidSettings;
    if jobs != [] {
      var front, job, n := jobs[..|jobs| - 1], jobs[|jobs| - 1], |jobs| - 1;
      var p := PendingJob(job.jobID, job.displayName, c.classifier.Classify(job.displayName));
      AssignAllTries(c, s, front, a);
      JobsRoutable(c, jobs);
      assert Jobs(c, jobs)[..n] == Jobs(c, front) && Jobs(c, jobs)[n] == p;
      var t := AssignAll(c, s, front, a);
      ProvisionAnyPending(c, t, Tried(c, s, Jobs(c, front), a), t.pending[job.jobID := p], p, a(n));
    }
  }

  lemma ProvisionAnyPending(
      c: Setup, s: State, t: State, pending: map<string, PendingJob>, job: PendingJob, a: ProvisionAnswer)
    requires c.Valid() && job.profile in c.Profiles() && s == t.(pending := s.pending)
    ensures Provision(c, s.(pending := pending), job, a) == Provision(c, t, job, a).(pending := pending)
  {
    hide Effective, StartOutcome, AfterStart, For, ValidSettings, RunnerName;
  }

  /** The message without its starts, completions and total. */
  function AssignmentsOf(m: Message): Message {
    m.(started := [], completed := [], totalAssigned := None)
  }

  lemma AssignmentsTry(c: Setup, s: State, m: Message, answers: Answers)
    requires c.Valid() && answers.Valid()
    ensures Routable(c, Jobs(c, m.assignments))
    ensures var v := Handle(c, s, AssignmentsOf(m), answers);
            v == AssignAll(c, s, m.assignments, answers.assign)
            && v == Tried(c, s, Jobs(c, m.assignments), answers.assign).(pending := v.pending)
  {
    JobsRoutable(c, m.assignments);
    AssignAllTries(c, s, m.assignments, answers.assign);
    hide AssignAll, StartAll, CompleteAll, Tried, Jobs, Routable, For, ValidSettings;
    NoJobs(c, AssignAll(c, s, m.assignments, answers.assign), answers);
  }

  /** Every assignment requests a configuration for a runner of its profile, in order, whatever is answered. */
  lemma AssignmentsRequested(c: Setup, s: State, m: Message, answers: Answers)
    requires c.Valid() && answers.Valid() && m.totalAssigned == None
    ensures var t := Handle(c, s, m, answers);
            && |t.log| == |s.log| + |m.assignments| && s.log <= t.log
            && forall i | 0 <= i < |m.assignments| ::
                 var job := m.assignments[i];
                 t.log[|s.log| + i] ==
                 Requested("runner-" + c.classifier.Classify(job.displayName) + "-" + job.jobID)
  {
    hide AssignAll, StartAll, CompleteAll, Tried, For, ValidSettings, Classifier.Classify, Routable;
    AssignmentsTry(c, s, m, answers);
    var jobs, t := Jobs(c, m.assignments), AssignAll(c, s, m.assignments, answers.assign);
    TriedRequests(c, s, jobs, answers.assign);
    assert Handle(c, s, m, answers).log == t.log;
    forall i | 0 <= i < |jobs|
      ensures t.log[|s.log| + i] == Requested("runner-" + c.classifier.Classify(m.assignments[i].displayName)
                                              + "-" + m.assignments[i].jobID)
    {
      assert jobs[i].jobID == m.assignments[i].jobID;
    }
  }

  /**
   After a message of assignments, each assigned job whose own calls succeed has its container, and its runner if the
   name was free and no earlier assignment of the message has it, whatever is answered about the others.
   */
  lemma AssignedServed(c: Setup, s: State, m: Message, answers: Answers, i: nat)
    requires c.Valid() && answers.Valid() && Sound(s) && i < |m.assignments|
    ensures var job := m.assignments[i];
            var p := PendingJob(job.jobID, job.displayName, c.classifier.Classify(job.displayName));
            var v := Handle(c, s, AssignmentsOf(m), answers);
            && p.profile in c.Profiles()
            && (Succeeds(c, s.rows, p, answers.assign(i)) ==>
                  && NameTaken(v.fleet.containers, NameOf(p))
                  && (!NameTaken(s.fleet.containers, NameOf(p)) && FirstOfName(Jobs(c, m.assignments), i) ==>
                      RunnerUp(c, v, s.rows, p, answers.assign(i))))
  {
    hide AssignAll, Tried, For, ValidSettings, Classifier.Classify, Succeeds, RunnerUp, Handle, Sound, NameTaken,
      NameOf, FirstOfName;
    AssignmentsTry(c, s, m, answers);
    var jobs := Jobs(c, m.assignments);
    if Succeeds(c, s.rows, jobs[i], answers.assign(i)) {
      TriedServes(c, s, jobs, answers.assign, i);
      SameRunnerUp(c, Tried(c, s, jobs, answers.assign), Handle(c, s, AssignmentsOf(m), answers), s.rows, jobs[i],
                   answers.assign(i));
    }
  }

  lemma SameRunnerUp(c: Setup, s: State, t: State, rows: seq<Row>, job: PendingJob, a: ProvisionAnswer)
    requires c.Valid() && job.profile in c.Profiles() && SameWorld(s, t)
    ensures RunnerUp(c, s, rows, job, a) <==> RunnerUp(c, t, rows, job, a)
  {
    hide StringsFor, ParseCPUs, ParseMemory;
    assert s.Runners() == t.Runners();
  }

  /** The runners tracked before stay as they are, and each new one is that of an assigned job whose calls succeeded. */
  lemma OnlyAssigned(c: Setup, s: State, m: Message, answers: Answers, n: string)
    requires c.Valid() && answers.Valid() && Sound(s) && n in Handle(c, s, AssignmentsOf(m), answers).Runners()
    ensures var v := Handle(c, s, AssignmentsOf(m), answers);
            && Extends(s, v)
            && (n !in s.Runners() ==>
                  exists i: nat :: i < |m.assignments|
                    && var p := Jobs(c, m.assignments)[i];
                       n == NameOf(p) && p.profile in c.Profiles() && Succeeds(c, s.rows, p, answers.assign(i))
                       && RunnerUp(c, v, s.rows, p, answers.assign(i)))
  {
    hide AssignAll, Tried, For, ValidSettings, Classifier.Classify, Succeeds, RunnerUp, Handle, Sound, NameOf, Jobs;
    AssignmentsTry(c, s, m, answers);
    var jobs, v := Jobs(c, m.assignments), Handle(c, s, AssignmentsOf(m), answers);
    var t := Tried(c, s, jobs, answers.assign);
    assert t.Runners() == v.Runners();
    TriedKeeps(c, s, jobs, answers.assign);
    if n !in s.Runners() {
      var i := TriedAdds(c, s, jobs, answers.assign, n);
      SameRunnerUp(c, t, v, s.rows, jobs[i], answers.assign(i));
    }
  }

  // ----- The starts of a message -----

  predicate StartedIn(jobs: seq<StartedJob>, name: string) {
    exists i | 0 <= i < |jobs| :: jobs[i].runnerName == name
  }

  predicate CompletedIn(jobs: seq<CompletedJob>, name: string) {
    exists i | 0 <= i < |jobs| :: jobs[i].runnerName == name
  }

  lemma {:induction false} StartAllStatus(s: State, jobs: seq<StartedJob>)
    ensures var t := StartAll(s, jobs);
            && t == s.(pending := t.pending, tracker := t.tracker)
            && t.Runners().Keys == s.Runners().Keys
            && forall n | n in s.Runners() ::
                 t.Runners()[n] == if StartedIn(jobs, n) then s.Runners()[n].(status := Busy) else s.Runners()[n]
  {
    hide Start;
    if jobs != [] {
      var front, last := jobs[..|jobs| - 1], jobs[|jobs| - 1];
      StartAllStatus(s, front);
      StartExactly(StartAll(s, front), last);
      forall n ensures StartedIn(jobs, n) <==> StartedIn(front, n) || n == last.runnerName {
        assert jobs == front + [last];
        assert last == jobs[|jobs| - 1];
        if StartedIn(front, n) {
          var i :| 0 <= i < |front| && front[i].runnerName == n;
          assert jobs[i].runnerName == n;
        }
      }
    }
  }

  // ----- The completions of a message -----

  /** What completions only add to. */
  predicate Grows(s: State, t: State) {
    s.rows <= t.rows && s.sources <= t.sources && s.fleet.stopCalls <= t.fleet.stopCalls
    && |t.rows| - |s.rows| == |t.sources| - |s.sources|
  }

  lemma CompleteGrows(c: Setup, s: State, job: CompletedJob, a: CompletionAnswer)
    ensures Grows(s, Complete(c, s, job, a))
  {
    hide Complete;
    CompleteExactly(c, s, job, a);
  }

  lemma {:induction false} CompleteAllGrows(c: Setup, s: State, jobs: seq<CompletedJob>, a: nat -> CompletionAnswer)
    ensures Grows(s, CompleteAll(c, s, jobs, a))
  {
    hide Complete;
    if jobs != [] {
      CompleteAllGrows(c, s, jobs[..|jobs| - 1], a);
      CompleteGrows(c, CompleteAll(c, s, jobs[..|jobs| - 1], a), jobs[|jobs| - 1], a(|jobs| - 1));
    }
  }

  /** An untracked container is not touched, and no row is recorded for it. */
  ghost predicate Spared(s: State, t: State, id: ContainerID) {
    && !Tracks(t.Runners(), id) && (id in t.fleet.containers <==> id in s.fleet.containers)
    && Grows(s, t) && forall k | |s.sources| <= k < |t.sources| :: t.sources[k].id != id
  }

  lemma CompleteSpares(c: Setup, s: State, job: CompletedJob, a: CompletionAnswer, id: ContainerID)
    requires !Tracks(s.Runners(), id)
    ensures Spared(s, Complete(c, s, job, a), id)
  {
    hide Complete;
    CompleteGrows(c, s, job, a);
    CompleteExactly(c, s, job, a);
    var t, n := Complete(c, s, job, a), job.runnerName;
    assert n in s.Runners() ==> Present(s.Runners(), n, s.Runners()[n].containerID);
    forall m ensures !Present(t.Runners(), m, id) {
      assert !Present(s.Runners(), m, id);
    }
  }

  /** A runner of which the completion is not reported stays as it is, and no row is recorded for it. */
  ghost predicate Unaffected(s: State, t: State, n: string)
    requires n in s.Runners()
  {
    && n in t.Runners() && t.Runners()[n] == s.Runners()[n]
    && Grows(s, t) && forall k | |s.sources| <= k < |t.sources| :: t.sources[k].id != s.Runners()[n].containerID
  }

  lemma CompleteOther(c: Setup, s: State, job: CompletedJob, a: CompletionAnswer, n: string)
    requires Sound(s) && n in s.Runners() && job.runnerName != n
    ensures Unaffected(s, Complete(c, s, job, a), n)
  {
    hide Complete, FleetOk, Accounted, StopsOk, ViewsOk, NoneCompleted;
    CompleteGrows(c, s, job, a);
    CompleteExactly(c, s, job, a);
    TrackedDistinct(s);
  }

  lemma {:induction false} CompleteAllOthers(
      c: Setup, s: State, jobs: seq<CompletedJob>, a: nat -> CompletionAnswer, n: string, base: nat)
    requires c.Valid() && Inv(c, s, base) && n in s.Runners() && !CompletedIn(jobs, n)
    ensures Unaffected(s, CompleteAll(c, s, jobs, a), n) && Inv(c, CompleteAll(c, s, jobs, a), base)
    decreases |jobs|
  {
    hide Complete, Inv, For, ValidSettings, Sound;
    CompleteAllKeeps(c, s, jobs, a, base);
    if jobs != [] {
      var front, last := jobs[..|jobs| - 1], jobs[|jobs| - 1];
      assert forall i | 0 <= i < |front| :: front[i] == jobs[i];
      assert last == jobs[|jobs| - 1] && last.runnerName != n;
      CompleteAllOthers(c, s, front, a, n, base);
      InvSound(c, CompleteAll(c, s, front, a), base);
      CompleteOther(c, CompleteAll(c, s, front, a), last, a(|jobs| - 1), n);
    }
  }

  /**
   The runner's container was stopped, exists only if it could not be removed, and is tracked no more; and exactly if
   scaling is on, its use was measured and the insert succeeded, exactly one row was recorded for it, under the job name
   and profile of the runner, with its strings as numbers and that use.
   */
  ghost predicate Retired(
      c: Setup, s: State, t: State, r: Runner, displayName: string, a: CompletionAnswer, base: nat)
  {
    var id := r.containerID;
    && !Tracks(t.Runners(), id) && id in t.fleet.stopCalls && (id in t.fleet.containers <==> !a.stop.removeOk)
    && Grows(s, t) && |t.rows| == base + |t.sources|
    && if c.settings.adaptive.enabled && a.usage.Some? && a.recordOk then
         exists k: nat :: |s.sources| <= k < |t.sources| && t.sources[k] == Source(id, displayName)
           && t.rows[base + k] == Row(base + k + 1, a.now, MetricsRecord(
                                        r.jobName, r.profile, Trunc(ParseCPUToNano(r.cpus)),
                                        Trunc(ParseMemToBytes(r.memory)), a.usage.value.cpu, a.usage.value.mem))
           && forall l | |s.sources| <= l < |t.sources| && l != k :: t.sources[l].id != id
       else forall l | |s.sources| <= l < |t.sources| :: t.sources[l].id != id
  }

  lemma CompletionRetired(c: Setup, s: State, job: CompletedJob, a: CompletionAnswer, base: nat)
    requires Sound(s) && job.runnerName in s.Runners() && job.runnerName != "" && |s.rows| == base + |s.sources|
    ensures Retired(c, s, Complete(c, s, job, a), s.Runners()[job.runnerName], job.displayName, a, base)
  {
    hide Complete, FleetOk, Accounted, StopsOk, ViewsOk, NoneCompleted, ParseCPUToNano, ParseMemToBytes, Trunc;
    CompleteExactly(c, s, job, a);
    var t, r := Complete(c, s, job, a), s.Runners()[job.runnerName];
    TrackedDistinct(s);
    forall m ensures !Present(t.Runners(), m, r.containerID) {
      assert m in t.Runners() ==> m in s.Runners() && m != job.runnerName;
    }
    CompleteGrows(c, s, job, a);
    if c.settings.adaptive.enabled && a.usage.Some? && a.recordOk {
      assert t.sources[|s.sources|] == Source(r.containerID, job.displayName);
    }
  }

  lemma RetiredSince(
      c: Setup, s: State, t: State, u: State, n: string, displayName: string, a: CompletionAnswer, base: nat)
    requires n in s.Runners() && Unaffected(s, t, n) && Retired(c, t, u, s.Runners()[n], displayName, a, base)
    ensures Retired(c, s, u, s.Runners()[n], displayName, a, base)
  {
    hide ParseCPUToNano, ParseMemToBytes, Trunc, Tracks;
    assert forall k | 0 <= k < |t.sources| :: u.sources[k] == t.sources[k];
  }

  lemma StillRetired(
      c: Setup, s: State, t: State, u: State, r: Runner, displayName: string, a: CompletionAnswer, base: nat)
    requires Retired(c, s, t, r, displayName, a, base) && Spared(t, u, r.containerID)
    requires r.containerID in u.fleet.stopCalls
    ensures Retired(c, s, u, r, displayName, a, base)
  {
    hide ParseCPUToNano, ParseMemToBytes, Trunc, Tracks;
    assert forall k | 0 <= k < |t.sources| :: u.sources[k] == t.sources[k];
    assert forall k | 0 <= k < |t.rows| :: u.rows[k] == t.rows[k];
  }

  /** The first completion that names a tracked runner retires it, whatever is answered about the others. */
  lemma {:induction false} CompletionServed(
      c: Setup, s: State, jobs: seq<CompletedJob>, a: nat -> CompletionAnswer, i: nat, base: nat)
    requires c.Valid() && Inv(c, s, base) && i < |jobs| && jobs[i].runnerName in s.Runners()
    requires forall j | 0 <= j < i :: jobs[j].runnerName != jobs[i].runnerName
    ensures Inv(c, CompleteAll(c, s, jobs, a), base)
    ensures Retired(c, s, CompleteAll(c, s, jobs, a), s.Runners()[jobs[i].runnerName], jobs[i].displayName, a(i), base)
    decreases |jobs|
  {
    hide Complete, Inv, For, ValidSettings, Sound, Retired, Spared, Unaffected;
    var last, n := |jobs| - 1, jobs[i].runnerName;
    var front := jobs[..last];
    var t := CompleteAll(c, s, front, a);
    CompleteAllKeeps(c, s, jobs, a, base);
    CompleteAllKeeps(c, s, front, a, base);
    if i == last {
      CompleteAllOthers(c, s, front, a, n, base);
      RetiredLast(c, s, t, jobs[last], a(last), base);
    } else {
      CompletionServed(c, s, front, a, i, base);
      StillRetiredLater(c, s, t, jobs[last], a(last), s.Runners()[n], jobs[i].displayName, a(i), base);
    }
  }

  lemma RetiredLast(c: Setup, s: State, t: State, job: CompletedJob, a: CompletionAnswer, base: nat)
    requires c.Valid() && Inv(c, s, base) && Inv(c, t, base)
    requires job.runnerName in s.Runners() && Unaffected(s, t, job.runnerName)
    ensures Retired(c, s, Complete(c, t, job, a), s.Runners()[job.runnerName], job.displayName, a, base)
  {
    hide Complete, For, ValidSettings, Sound, Retired, LimitsOk, GrantsOk, RoutedJob;
    assert job.runnerName != "";
    CompletionRetired(c, t, job, a, base);
    RetiredSince(c, s, t, Complete(c, t, job, a), job.runnerName, job.displayName, a, base);
  }

  lemma StillRetiredLater(
      c: Setup, s: State, t: State, job: CompletedJob, last: CompletionAnswer, r: Runner, displayName: string,
      a: CompletionAnswer, base: nat)
    requires Retired(c, s, t, r, displayName, a, base)
    ensures Retired(c, s, Complete(c, t, job, last), r, displayName, a, base)
  {
    hide Complete, Tracks, ParseCPUToNano, ParseMemToBytes, Trunc;
    CompleteSpares(c, t, job, last, r.containerID);
    StillRetired(c, s, t, Complete(c, t, job, last), r, displayName, a, base);
  }

  // ----- The runners of a message -----

  lemma Stages(c: Setup, s: State, m: Message, answers: Answers, base: nat)
    requires c.Valid() && answers.Valid() && Inv(c, s, base)
    ensures var v := Handle(c, s, AssignmentsOf(m), answers);
            var w := StartAll(v, m.started);
            var x := CompleteAll(c, w, m.completed, answers.complete);
            var t := Handle(c, s, m, answers);
            && Inv(c, v, base) && Inv(c, w, base) && Inv(c, x, base) && Inv(c, t, base)
            && (t == x || Extends(x, t))
  {
    hide Inv, AssignAll, StartAll, CompleteAll, Reconcile, For, ValidSettings;
    AssignmentsTry(c, s, m, answers);
    HandleKeeps(c, s, AssignmentsOf(m), answers, base);
    var v := Handle(c, s, AssignmentsOf(m), answers);
    StartAllKeeps(c, v, m.started, base);
    HandleKeeps(c, s, m, answers, base);
    if m.totalAssigned.Some? {
      RoundExtends(c, HandleJobs(c, s, m, answers), m.totalAssigned.value, answers, base);
    }
  }

  /**
   Of the runners tracked once a message's assignments are handled, those it reports completed are stopped and gone
   afterwards, and the others stay, not stopped: busy if it reports them started, and otherwise as they were.
   */
  lemma StatusAfter(c: Setup, s: State, m: Message, answers: Answers, base: nat, n: string)
    requires c.Valid() && answers.Valid() && Inv(c, s, base)
    requires n in Handle(c, s, AssignmentsOf(m), answers).Runners()
    ensures var r, t := Handle(c, s, AssignmentsOf(m), answers).Runners()[n], Handle(c, s, m, answers);
            if exists i | 0 <= i < |m.completed| :: m.completed[i].runnerName == n then
              r.containerID in t.fleet.stopCalls
              && forall x | x in t.Runners() :: t.Runners()[x].containerID != r.containerID
            else
              && r.containerID !in t.fleet.stopCalls && r.containerID in t.fleet.containers && n in t.Runners()
              && t.Runners()[n] == if exists i | 0 <= i < |m.started| :: m.started[i].runnerName == n
                                   then r.(status := Busy) else r
  {
    hide Inv, StartAll, CompleteAll, Handle, For, ValidSettings, Retired, Sound, Tracks;
    Stages(c, s, m, answers, base);
    var v, t := Handle(c, s, AssignmentsOf(m), answers), Handle(c, s, m, answers);
    var w := StartAll(v, m.started);
    StartAllStatus(v, m.started);
    if i: nat :| i < |m.completed| && m.completed[i].runnerName == n {
      var first := FirstCompletion(m.completed, i);
      CompletedServed(c, s, m, answers, base, first);
      RetiredStopped(c, v, t, v.Runners()[n], m.completed[first].displayName, answers.complete(first), base);
    } else {
      CompleteAllOthers(c, w, m.completed, answers.complete, n, base);
      TrackedNotStopped(c, t, base, n);
    }
  }

  lemma {:induction false} FirstCompletion(jobs: seq<CompletedJob>, i: nat) returns (first: nat)
    requires i < |jobs|
    ensures first <= i && jobs[first].runnerName == jobs[i].runnerName
    ensures forall j | 0 <= j < first :: jobs[j].runnerName != jobs[i].runnerName
    decreases i
  {
    if j: nat :| j < i && jobs[j].runnerName == jobs[i].runnerName {
      first := FirstCompletion(jobs, j);
    } else {
      first := i;
    }
  }

  lemma RetiredStopped(
      c: Setup, s: State, t: State, r: Runner, displayName: string, a: CompletionAnswer, base: nat)
    requires Retired(c, s, t, r, displayName, a, base)
    ensures r.containerID in t.fleet.stopCalls
    ensures forall x | x in t.Runners() :: t.Runners()[x].containerID != r.containerID
  {
    hide Grows, ParseCPUToNano, ParseMemToBytes, Trunc;
    forall x | x in t.Runners() ensures t.Runners()[x].containerID != r.containerID {
      assert !Present(t.Runners(), x, r.containerID);
    }
  }

  lemma TrackedNotStopped(c: Setup, s: State, base: nat, n: string)
    requires c.Valid() && Inv(c, s, base) && n in s.Runners()
    ensures s.Runners()[n].containerID !in s.fleet.stopCalls && s.Runners()[n].containerID in s.fleet.containers
  {
    InvSound(c, s, base);
    hide Inv, FleetOk, Accounted, ViewsOk, NoneCompleted;
    assert Present(s.Runners(), n, s.Runners()[n].containerID);
  }

  /** The status of the runner does not matter. */
  lemma RetiredAnyStatus(
      c: Setup, s: State, t: State, u: State, r: Runner, q: Runner, displayName: string, a: CompletionAnswer, base: nat)
    requires Retired(c, t, u, q, displayName, a, base) && q == r.(status := q.status)
    requires t.rows == s.rows && t.sources == s.sources && t.fleet == s.fleet
    ensures Retired(c, s, u, r, displayName, a, base)
  {
    hide ParseCPUToNano, ParseMemToBytes, Trunc, Tracks;
  }

  /** A container that was stopped stays untracked in the round that follows. */
  lemma RetiredRound(
      c: Setup, s: State, t: State, u: State, r: Runner, displayName: string, a: CompletionAnswer, base: nat)
    requires c.Valid() && Retired(c, s, t, r, displayName, a, base) && Extends(t, u)
    requires Inv(c, t, base) && Inv(c, u, base)
    ensures Retired(c, s, u, r, displayName, a, base)
  {
    InvSound(c, t, base);
    InvSound(c, u, base);
    hide Inv, FleetOk, TrackedOk, Accounted, ViewsOk, NoneCompleted, Tracks, ParseCPUToNano, ParseMemToBytes, Trunc;
    assert Spared(t, u, r.containerID);
    StillRetired(c, s, t, u, r, displayName, a, base);
  }

  /**
   The first completion in a message that names a tracked runner retires it and records its run, whatever is answered
   about the other jobs, and whether or not the message reports its start as well.
   */
  lemma CompletedServed(c: Setup, s: State, m: Message, answers: Answers, base: nat, i: nat)
    requires c.Valid() && answers.Valid() && Inv(c, s, base) && i < |m.completed|
    requires m.completed[i].runnerName in Handle(c, s, AssignmentsOf(m), answers).Runners()
    requires forall j | 0 <= j < i :: m.completed[j].runnerName != m.completed[i].runnerName
    ensures var v, t := Handle(c, s, AssignmentsOf(m), answers), Handle(c, s, m, answers);
            Retired(c, v, t, v.Runners()[m.completed[i].runnerName], m.completed[i].displayName, answers.complete(i),
                    base)
  {
    hide Inv, StartAll, CompleteAll, Handle, For, ValidSettings, Retired, Sound;
    Stages(c, s, m, answers, base);
    var v, t := Handle(c, s, AssignmentsOf(m), answers), Handle(c, s, m, answers);
    var w := StartAll(v, m.started);
    var x, job := CompleteAll(c, w, m.completed, answers.complete), m.completed[i];
    var r := v.Runners()[job.runnerName];
    StartAllStatus(v, m.started);
    CompletionServed(c, w, m.completed, answers.complete, i, base);
    RetiredAnyStatus(c, v, w, x, r, w.Runners()[job.runnerName], job.displayName, answers.complete(i), base);
    if t != x {
      RetiredRound(c, v, x, t, r, job.displayName, answers.complete(i), base);
    }
  }

  // ----- Job by job -----

  /** A message without a total handles its assignments, starts and completions in this order, one after the other. */
  lemma JobByJob(c: Setup, s: State, m: Message, answers: Answers)
    requires c.Valid() && answers.Valid() && m.totalAssigned == None
    ensures var i, k, n := |m.assignments| - 1, |m.started| - 1, |m.completed| - 1;
            Handle(c, s, m, answers) ==
            if 0 <= n then
              Complete(c, Handle(c, s, m.(completed := m.completed[..n]), answers), m.completed[n], answers.complete(n))
            else if 0 <= k then
              ScalerModel.Start(Handle(c, s, m.(started := m.started[..k]), answers), m.started[k])
            else if 0 <= i then
              Assign(c, Handle(c, s, m.(assignments := m.assignments[..i]), answers), m.assignments[i],
                     answers.assign(i))
            else s
  {
    hide Assign, ScalerModel.Start, Complete, For, ValidSettings;
  }

  // ----- Polls -----

  /**
   A poll asks for messages after the last one, with the free capacity; without a message nothing else happens, and a
   message is acknowledged and then handled.
   */
  lemma TurnExactly(c: Setup, m: Machine, poll: Poll)
    requires c.Valid() && poll.Valid() && Sound(m.state)
    ensures var free := c.settings.maxRunners - |m.state.Runners()|;
            var polled := m.state.log + [Polled(m.lastID, if free < 0 then 0 else free)];
            Turn(c, m, poll) ==
            match poll
            case Failed => Machine(m.state.(log := polled), m.lastID)
            case Empty => Machine(m.state.(log := polled), m.lastID)
            case Delivered(msg, _, answers) =>
              Machine(Handle(c, m.state.(log := polled + [Acked(msg.id)]), msg, answers), msg.id)
  {
    hide Handle, Sound, State.ActiveCount, For, ValidSettings;
    SoundActive(m.state);
  }

  // ----- Over runs -----

  /** The poll with the total left out of its message. */
  function WithoutTotal(p: Poll): Poll
    requires p.Delivered?
  {
    p.(message := p.message.(totalAssigned := None))
  }

  /**
   `t` is `u` after a round of reconciliation: if every attempt of the round succeeds, the total is reached exactly when
   there were not more runners and the missing ones' names are free and pairwise distinct, and every pending job has its
   container when at least as many runners were missing as jobs are pending.
   */
  ghost predicate Reconciled(c: Setup, u: State, t: State, total: int, answers: Answers)
    requires c.Valid() && Enumerates(answers.order(u.pending.Keys), u.pending.Keys)
  {
    RoundSucceeds(c, u, total, answers) ==>
      && (|t.Runners()| == total <==> |u.Runners()| <= total && NamesFree(c, u, total, answers.order))
      && (|u.pending| <= total - |u.Runners()| ==>
            forall j | j in u.pending ::
              exists id :: id in t.fleet.containers
                           && t.fleet.containers[id].name == "runner-" + u.pending[j].profile + "-" + j)
  }

  lemma RoundReconciles(c: Setup, s: State, m: Message, answers: Answers, base: nat)
    requires c.Valid() && answers.Valid() && Inv(c, s, base) && m.totalAssigned.Some?
    ensures var u := Handle(c, s, m.(totalAssigned := None), answers);
            Enumerates(answers.order(u.pending.Keys), u.pending.Keys)
            && Reconciled(c, u, Handle(c, s, m, answers), m.totalAssigned.value, answers)
  {
    hide Inv, Handle, For, ValidSettings, Enumerates, RoundSucceeds, NamesFree, MissingJob;
    var u := Handle(c, s, m.(totalAssigned := None), answers);
    RoundFills(c, s, m, answers, base);
    forall j | j in u.pending && |u.pending| <= m.totalAssigned.value - |u.Runners()|
               && RoundSucceeds(c, u, m.totalAssigned.value, answers)
      ensures exists id :: id in Handle(c, s, m, answers).fleet.containers
                           && Handle(c, s, m, answers).fleet.containers[id].name ==
                              "runner-" + u.pending[j].profile + "-" + j
    {
      RoundServesPending(c, s, m, answers, base, j);
    }
  }

  /** After any run, a message reconciles the state that its jobs alone would have led to. */
  lemma PollReconciles(
      c: Setup, existing: map<ContainerID, Container>, nextId: ContainerID, rows: seq<Row>, polls: seq<Poll>, p: Poll)
    requires Runs.Start(c, existing, nextId, polls + [p]) && p.Delivered? && p.message.totalAssigned.Some?
    ensures Runs.Start(c, existing, nextId, polls + [WithoutTotal(p)])
    ensures var u := Runs.Final(c, existing, nextId, rows, polls + [WithoutTotal(p)]);
            Enumerates(p.answers.order(u.pending.Keys), u.pending.Keys)
            && Reconciled(c, u, Runs.Final(c, existing, nextId, rows, polls + [p]), p.message.totalAssigned.value,
                          p.answers)
  {
    hide Inv, Handle, For, ValidSettings, Enumerates, Reconciled, Run, Turn, DockerWorld, Answers.Valid;
    assert forall q | q in polls :: q in polls + [p];
    assert p in polls + [p];
    LastPoll(c, existing, nextId, rows, polls, p);
    LastPoll(c, existing, nextId, rows, polls, WithoutTotal(p));
    RoundReconciles(c, BeforeMessage(c, existing, nextId, rows, polls, p), p.message, p.answers, |rows|);
  }

  /** The state in which the message of the poll after a run is handled. */
  ghost function BeforeMessage(
      c: Setup, existing: map<ContainerID, Container>, nextId: ContainerID, rows: seq<Row>, polls: seq<Poll>, p: Poll)
      : State
    requires Runs.Start(c, existing, nextId, polls) && p.Delivered?
  {
    var m := Run(c, Initial(existing, nextId, rows), polls);
    Log(Log(m.state, Polled(m.lastID, ScalerModel.Capacity(c, m.state))), Acked(p.message.id))
  }

  lemma LastPoll(
      c: Setup, existing: map<ContainerID, Container>, nextId: ContainerID, rows: seq<Row>, polls: seq<Poll>, p: Poll)
    requires Runs.Start(c, existing, nextId, polls) && p.Valid() && p.Delivered?
    ensures Runs.Start(c, existing, nextId, polls + [p])
    ensures var s := BeforeMessage(c, existing, nextId, rows, polls, p);
            Inv(c, s, |rows|)
            && Runs.Final(c, existing, nextId, rows, polls + [p]) == Handle(c, s, p.message, p.answers)
  {
    hide Inv, Handle, For, ValidSettings, ScalerModel.Capacity, DockerWorld, Answers.Valid, Initial;
    assert (polls + [p])[..|polls|] == polls;
    Runs.FinalInv(c, existing, nextId, rows, polls);
    var m := Run(c, Initial(existing, nextId, rows), polls);
    var s1 := Log(m.state, Polled(m.lastID, ScalerModel.Capacity(c, m.state)));
    LogKeeps(c, m.state, s1.log, |rows|);
    LogKeeps(c, s1, s1.log + [Acked(p.message.id)], |rows|);
  }

  /** In particular, a message without jobs reconciles the state that there was before it. */
  lemma QuietPollReconciles(
      c: Setup, existing: map<ContainerID, Container>, nextId: ContainerID, rows: seq<Row>, polls: seq<Poll>, p: Poll)
    requires Runs.Start(c, existing, nextId, polls + [p]) && p.Delivered? && p.message.totalAssigned.Some?
    requires p.message.assignments == [] && p.message.started == [] && p.message.completed == []
    ensures Runs.Start(c, existing, nextId, polls)
    ensures var s := Runs.Final(c, existing, nextId, rows, polls);
            Enumerates(p.answers.order(s.pending.Keys), s.pending.Keys)
            && Reconciled(c, s, Runs.Final(c, existing, nextId, rows, polls + [p]), p.message.totalAssigned.value,
                          p.answers)
  {
    hide Inv, Handle, For, ValidSettings, Enumerates, Run, Turn, DockerWorld, Answers.Valid, Reconciled;
    assert forall q | q in polls :: q in polls + [p];
    PollReconciles(c, existing, nextId, rows, polls, p);
    LastPoll(c, existing, nextId, rows, polls, WithoutTotal(p));
    var s := BeforeMessage(c, existing, nextId, rows, polls, p);
    JobByJob(c, s, WithoutTotal(p).message, p.answers);
    SameReconciled(c, s, Runs.Final(c, existing, nextId, rows, polls),
                   Runs.Final(c, existing, nextId, rows, polls + [p]), p.message.totalAssigned.value, p.answers);
  }

  lemma SameReconciled(c: Setup, s: State, u: State, t: State, total: int, answers: Answers)
    requires c.Valid() && Enumerates(answers.order(s.pending.Keys), s.pending.Keys)
    requires s == u.(log := s.log) && Reconciled(c, s, t, total, answers)
    ensures Reconciled(c, u, t, total, answers)
  {
    hide MissingJob, Succeeds, Enumerates, For, ValidSettings, NameOf;
    assert s.Runners() == u.Runners();
    SameMissing(c, s, u, answers.order);
    forall i: nat ensures AttemptSucceeds(c, s, answers, i) <==> AttemptSucceeds(c, u, answers, i) {}
    assert NamesFree(c, s, total, answers.order) <==> NamesFree(c, u, total, answers.order);
  }

  lemma SameMissing(c: Setup, s: State, u: State, order: set<string> -> seq<string>)
    requires Enumerates(order(s.pending.Keys), s.pending.Keys) && s.pending == u.pending
    ensures forall i: nat :: MissingJob(c, s, order, i) == MissingJob(c, u, order, i)
  {
    hide Itoa, Enumerates;
  }
}
