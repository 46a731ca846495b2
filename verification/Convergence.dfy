/**
 The feedback loop over whole runs of the scaler: other jobs' messages, starts, reconciliation and failures may come
 between the runs of a job, and its runs may overlap.
 */
module Convergence {
  import opened Decimal
  import opened Quantities
  import opened Configuration
  import opened Classification
  import opened MetricsStore
  import opened Adjustment
  import opened Feedback
  import opened RunnerStore
  import opened Provisioning
  import opened ScalerModel
  import opened Conservation
  import opened Grants
  import opened Invariants
  import opened JobHistory
  import Runs

  // ----- The table only grows -----

  predicate RowsGrow(s: State, t: State) {
    s.rows <= t.rows && (Numbered(s.rows) ==> Numbered(t.rows))
  }

  lemma CompleteRows(c: Setup, s: State, job: CompletedJob, a: CompletionAnswer)
    ensures RowsGrow(s, Complete(c, s, job, a))
  {}

  lemma {:induction false} CompleteAllRows(c: Setup, s: State, jobs: seq<CompletedJob>, a: nat -> CompletionAnswer)
    ensures RowsGrow(s, CompleteAll(c, s, jobs, a))
  {
    hide Complete, Numbered;
    if jobs != [] {
      var n := |jobs| - 1;
      CompleteAllRows(c, s, jobs[..n], a);
      CompleteRows(c, CompleteAll(c, s, jobs[..n], a), jobs[n], a(n));
    }
  }

  lemma {:induction false} AssignAllRows(c: Setup, s: State, jobs: seq<AssignedJob>, a: nat -> ProvisionAnswer)
    requires c.Valid()
    ensures AssignAll(c, s, jobs, a).rows == s.rows
  {
    hide Provision, Classifier.Classify;
    if jobs != [] {
      AssignAllRows(c, s, jobs[..|jobs| - 1], a);
    }
  }

  lemma {:induction false} StartAllRows(s: State, jobs: seq<StartedJob>)
    ensures StartAll(s, jobs).rows == s.rows
  {
    if jobs != [] {
      StartAllRows(s, jobs[..|jobs| - 1]);
    }
  }

  lemma HandleRows(c: Setup, s: State, m: Message, answers: Answers)
    requires c.Valid() && answers.Valid()
    ensures RowsGrow(s, Handle(c, s, m, answers))
  {
    hide AssignAll, StartAll, CompleteAll, Reconcile, Numbered;
    var s1 := AssignAll(c, s, m.assignments, answers.assign);
    AssignAllRows(c, s, m.assignments, answers.assign);
    StartAllRows(s1, m.started);
    CompleteAllRows(c, StartAll(s1, m.started), m.completed, answers.complete);
  }

  lemma {:induction false} RunRows(c: Setup, s: State, polls: seq<Poll>)
    requires c.Valid() && forall p | p in polls :: p.Valid()
    ensures RowsGrow(s, Run(c, s, polls).state)
  {
    hide Handle, Capacity, Numbered;
    if polls != [] {
      var m, last := Run(c, s, polls[..|polls| - 1]), polls[|polls| - 1];
      RunRows(c, s, polls[..|polls| - 1]);
      assert last in polls && last.Valid();
      if last.Delivered? {
        var s1 := Log(Log(m.state, Polled(m.lastID, Capacity(c, m.state))), Acked(last.message.id));
        HandleRows(c, s1, last.message, last.answers);
      }
    }
  }

  // ----- The rows of a job are rounds of its lane -----

  /**
   Every run of the job that was recorded by this scaler had its history read when it was provisioned, and at most `lag`
   other runs of the job were recorded since.
   */
  ghost predicate Prompt(s: State, base: nat, name: string, lag: nat) {
    forall k: nat | k < |s.sources| && base + k < |s.rows| && s.rows[base + k].record.jobName == name ::
      PromptRow(s, base, name, lag, k)
  }

  predicate PromptRow(s: State, base: nat, name: string, lag: nat, k: nat)
    requires k < |s.sources| && base + k < |s.rows|
  {
    var id := s.sources[k].id;
    id in s.basis && s.basis[id] <= base + k && |ForJob(s.rows[s.basis[id]..base + k], name)| <= lag
  }

  /** Jobs of this name share a profile with any reconciliation placeholder that has the same name. */
  ghost predicate OneProfile(c: Setup, name: string) {
    name == "unknown-reconcile" ==> c.classifier.Classify(name) == c.settings.defaultProfile
  }

  /** A further sample, granted from all but at most `lag` of the runs recorded before it. */
  lemma GrownMore(l: Lane, s: seq<Sample>, all: seq<Sample>, x: Sample, lag: nat, k: nat)
    requires l.a.Valid() && Grown(l, s, all, lag)
    requires k <= lag && k <= |all| - |s| && x.granted == l.Grant(all[k..])
    ensures Grown(l, s, [x] + all, lag)
  {
    hide Lane.Grant;
    var more := [x] + all;
    assert more[|more| - |s|..] == all[|all| - |s|..];
    forall i: nat | i < |more| - |s| ensures GrantedAt(l, s, more, i, lag) {
      if i == 0 {
        assert more[k + 1..] == all[k..];
      } else {
        assert GrantedAt(l, s, all, i - 1, lag);
        var j :| i - 1 < j <= i + lag && j <= |all| - |s| && all[i - 1].granted == l.Grant(all[j..]);
        assert more[j + 1..] == all[j..];
      }
    }
  }

  /** The allocation of a row of the job is the lane's grant from the rows its history was read from. */
  lemma RowIsGrant(c: Setup, s: State, base: nat, k: nat, name: string, l: Lane, lag: nat)
    requires c.Valid() && c.settings.adaptive.enabled && GrantsOk(c, s, base) && k < |s.sources|
    requires base + k < |s.rows| && s.rows[base + k].record.jobName == name && PromptRow(s, base, name, lag, k)
    requires IsLaneOf(c, name, l) && OneProfile(c, name)
    ensures l.a.Valid() && base <= s.basis[s.sources[k].id] <= base + k
    ensures SampleOf(l.resource, s.rows[base + k].record).granted ==
            l.Grant(JobSamples(l.resource, s.rows[..s.basis[s.sources[k].id]], name))
  {
    hide Effective, JobSamples, Lane.Grant, ParseCPUToNano, ParseMemToBytes, ForJob, Classifier.Classify;
    assert RowGranted(c, s, base, k);
    EffectiveIsGrant(c, s.rows[..s.basis[s.sources[k].id]], name, l);
  }

  /** Over the rows of a run, the samples of a job grow as the lane's rounds do. */
  lemma {:induction false} RowsAreRounds(c: Setup, s: State, base: nat, n: nat, name: string, l: Lane, lag: nat)
    requires c.Valid() && c.settings.adaptive.enabled && GrantsOk(c, s, base) && Prompt(s, base, name, lag)
    requires Numbered(s.rows) && Nondecreasing(ForJob(s.rows, name))
    requires IsLaneOf(c, name, l) && OneProfile(c, name) && l.a.Valid() && base <= n <= |s.rows|
    ensures Grown(l, JobSamples(l.resource, s.rows[..base], name), JobSamples(l.resource, s.rows[..n], name), lag)
    decreases n
  {
    hide JobSamples, GrantsOk, ForJob, Lane.Grant, IsLaneOf, Nondecreasing, Numbered, Grown, For, ValidSettings;
    if n == base {
      NothingGrown(l, JobSamples(l.resource, s.rows[..base], name), lag);
    } else {
      RowsAreRounds(c, s, base, n - 1, name, l, lag);
      var before, row := s.rows[..n - 1], s.rows[n - 1];
      assert s.rows[..n] == before + [row];
      EarlierInOrder(s.rows, n, name);
      EarlierInOrder(s.rows, n - 1, name);
      SampleLeads(l.resource, before, row, name);
      if row.record.jobName == name {
        SourcesCount(c, s, base);
        assert PromptRow(s, base, name, lag, n - 1 - base);
        RowIsGrant(c, s, base, n - 1 - base, name, l, lag);
        RowGrows(s, base, n, name, l, lag, s.basis[s.sources[n - 1 - base].id]);
      } else {
        assert [] + JobSamples(l.resource, before, name) == JobSamples(l.resource, before, name);
      }
    }
  }

  lemma NothingGrown(l: Lane, s: seq<Sample>, lag: nat)
    requires l.a.Valid()
    ensures Grown(l, s, s, lag)
  {}

  lemma SourcesCount(c: Setup, s: State, base: nat)
    requires c.Valid() && GrantsOk(c, s, base)
    ensures |s.rows| == base + |s.sources|
  {}

  lemma RowGrows(s: State, base: nat, n: nat, name: string, l: Lane, lag: nat, m: nat)
    requires l.a.Valid() && base <= m < n <= |s.rows| && |ForJob(s.rows[m..n - 1], name)| <= lag
    requires Numbered(s.rows[..n - 1]) && Nondecreasing(ForJob(s.rows[..n - 1], name))
    requires var sample := SampleOf(l.resource, s.rows[n - 1].record);
             && sample.granted == l.Grant(JobSamples(l.resource, s.rows[..m], name))
             && JobSamples(l.resource, s.rows[..n], name) == [sample] + JobSamples(l.resource, s.rows[..n - 1], name)
    requires Grown(l, JobSamples(l.resource, s.rows[..base], name), JobSamples(l.resource, s.rows[..n - 1], name), lag)
    ensures Grown(l, JobSamples(l.resource, s.rows[..base], name), JobSamples(l.resource, s.rows[..n], name), lag)
  {
    hide JobSamples, ForJob, Lane.Grant, Nondecreasing, Numbered, Grown;
    var before, early, first := s.rows[..n - 1], s.rows[..m], s.rows[..base];
    assert before[..m] == early && before[m..] == s.rows[m..n - 1] && early[..base] == first;
    EarlierInOrder(before, m, name);
    EarlierSamples(l.resource, before, m, name);
    EarlierSamples(l.resource, early, base, name);
    GrownMore(l, JobSamples(l.resource, first, name), JobSamples(l.resource, before, name),
              SampleOf(l.resource, s.rows[n - 1].record), lag, |ForJob(s.rows[m..n - 1], name)|);
  }

  // ----- Convergence over runs -----

  /** How many runs of the job this scaler recorded. */
  function Recorded(s: State, base: nat, name: string): nat {
    if base <= |s.rows| then |ForJob(s.rows[base..], name)| else 0
  }

  /**
   A run of the scaler over which a job's allocation is followed: the job's rows are stamped in order, and its runs are
   prompt up to `lag`.
   */
  ghost predicate Followed(
      c: Setup, existing: map<ContainerID, Container>, nextId: ContainerID, rows: seq<Row>, polls: seq<Poll>,
      name: string, lag: nat)
  {
    && Runs.Start(c, existing, nextId, polls) && c.settings.adaptive.enabled && Numbered(rows) && OneProfile(c, name)
    && var t := Runs.Final(c, existing, nextId, rows, polls);
       Nondecreasing(ForJob(t.rows, name)) && Prompt(t, |rows|, name, lag)
  }

  lemma FollowedGrows(
      c: Setup, existing: map<ContainerID, Container>, nextId: ContainerID, rows: seq<Row>, polls: seq<Poll>,
      name: string, l: Lane, lag: nat)
    requires Followed(c, existing, nextId, rows, polls, name, lag) && IsLaneOf(c, name, l)
    ensures l.a.Valid()
    ensures var t := Runs.Final(c, existing, nextId, rows, polls);
            var s, all := JobSamples(l.resource, rows, name), JobSamples(l.resource, t.rows, name);
            rows <= t.rows && Grown(l, s, all, lag) && |all| - |s| == Recorded(t, |rows|, name)
  {
    var t := Runs.Final(c, existing, nextId, rows, polls);
    Runs.FinalInv(c, existing, nextId, rows, polls);
    RunRows(c, Initial(existing, nextId, rows), polls);
    AdjusterValid(c);
    assert l.a == c.Scaling();
    assert GrantsOk(c, t, |rows|) by {
      hide Sound, Routing, LimitsOk, RecordsOk, GrantsOk;
    }
    hide JobSamples, GrantsOk, ForJob, Inv, Runs.Final, Run, Grown, Prompt, OneProfile, IsLaneOf, Nondecreasing,
      Numbered;
    assert t.rows[..|rows|] == rows && t.rows[..|t.rows|] == t.rows;
    RowsAreRounds(c, t, |rows|, |t.rows|, name, l, lag);
    EarlierSamples(l.resource, t.rows, |rows|, name);
  }

  /** The strings that would be chosen for the next runner of the job, read back. */
  function NextAllocation(c: Setup, rows: seq<Row>, name: string, r: Resource): int
    requires c.Valid() && c.classifier.Classify(name) in c.Profiles()
  {
    var e := Effective(c, rows, name, c.Profiles()[c.classifier.Classify(name)], true);
    Trunc(Parse(r, TextOf(r, e)))
  }

  lemma NextIsGrant(
      c: Setup, existing: map<ContainerID, Container>, nextId: ContainerID, rows: seq<Row>, polls: seq<Poll>,
      name: string, l: Lane, lag: nat)
    requires Followed(c, existing, nextId, rows, polls, name, lag) && IsLaneOf(c, name, l)
    ensures l.a.Valid()
    ensures var t := Runs.Final(c, existing, nextId, rows, polls);
            NextAllocation(c, t.rows, name, l.resource) == l.Grant(JobSamples(l.resource, t.rows, name))
  {
    hide JobSamples, Runs.Final, Lane.Grant, Effective, Prompt, ForJob, Nondecreasing, Numbered;
    EffectiveIsGrant(c, Runs.Final(c, existing, nextId, rows, polls).rows, name, l);
  }

  /**
   Whatever else happens in a run of the scaler, and whatever was recorded before: when the runs of a job that the
   scaler records are above the upper threshold, and enough of them are recorded, the newest was granted the effective
   ceiling, and so is the next runner of the job. The `known` last runs before are above the threshold, too.
   */
  lemma RunReachesCeiling(
      c: Setup, existing: map<ContainerID, Container>, nextId: ContainerID, rows: seq<Row>, polls: seq<Poll>,
      name: string, l: Lane, known: nat, lag: nat)
    requires Followed(c, existing, nextId, rows, polls, name, lag) && IsLaneOf(c, name, l) && l.Movable()
    requires var s := JobSamples(l.resource, rows, name);
             var t := Runs.Final(c, existing, nextId, rows, polls);
             var n := Recorded(t, |rows|, name);
             && known <= |s| && Settled(l, s, known)
             && AllAbove(Recent(s, JobSamples(l.resource, t.rows, name), known), l.a.scaleUpThreshold)
             && l.Warmup(known) <= n && ReachesCeiling(l, Moves(l, known, n, lag))
    ensures var t := Runs.Final(c, existing, nextId, rows, polls);
            NewestAllocation(l, t.rows, name) == l.ceiling
            && NextAllocation(c, t.rows, name, l.resource) as real == l.ceiling
  {
    hide JobSamples, Runs.Final, Grown, Prompt, Nondecreasing, Numbered, ForJob, IsLaneOf, AllAbove, Lane.Movable,
      Settled, Lane.Grant, ReachesCeiling, Moves, Recorded, Effective, Recent;
    FollowedGrows(c, existing, nextId, rows, polls, name, l, lag);
    var t := Runs.Final(c, existing, nextId, rows, polls);
    OverloadReachesCeiling(l, JobSamples(l.resource, rows, name), JobSamples(l.resource, t.rows, name), known, lag);
    NextIsGrant(c, existing, nextId, rows, polls, name, l, lag);
  }

  /** Likewise, when the recorded runs are below the lower threshold, the job is back at the baseline. */
  lemma RunReachesBaseline(
      c: Setup, existing: map<ContainerID, Container>, nextId: ContainerID, rows: seq<Row>, polls: seq<Poll>,
      name: string, l: Lane, known: nat, lag: nat)
    requires Followed(c, existing, nextId, rows, polls, name, lag) && IsLaneOf(c, name, l) && l.Movable()
    requires var s := JobSamples(l.resource, rows, name);
             var t := Runs.Final(c, existing, nextId, rows, polls);
             var n := Recorded(t, |rows|, name);
             && known <= |s| && Settled(l, s, known)
             && AllBelow(Recent(s, JobSamples(l.resource, t.rows, name), known), l.a.scaleDownThreshold)
             && l.Warmup(known) <= n && ReachesFloor(l, StartsFrom(l, s, known), Moves(l, known, n, lag))
    ensures var t := Runs.Final(c, existing, nextId, rows, polls);
            NewestAllocation(l, t.rows, name) == l.floor
            && NextAllocation(c, t.rows, name, l.resource) as real == l.floor
  {
    hide JobSamples, Runs.Final, Grown, Prompt, Nondecreasing, Numbered, ForJob, IsLaneOf, AllBelow, Lane.Movable,
      Settled, Lane.Grant, ReachesFloor, Moves, Recorded, Effective, Recent, StartsFrom;
    FollowedGrows(c, existing, nextId, rows, polls, name, l, lag);
    var t := Runs.Final(c, existing, nextId, rows, polls);
    IdlenessReachesBaseline(l, JobSamples(l.resource, rows, name), JobSamples(l.resource, t.rows, name), known, lag);
    NextIsGrant(c, existing, nextId, rows, polls, name, l, lag);
  }
}
