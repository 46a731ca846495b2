/** The round of reconciliation after a message's jobs: what it requests, what each attempt leaves, what it reaches. */
module Rounds {
  import opened Wrappers
  import opened Strings
  import opened Decimal
  import opened Quantities
  import opened Configuration
  import opened Classification
  import opened MetricsStore
  import opened Provisioning
  import opened ScalerModel
  import opened Conservation
  import opened Invariants
  import opened Reconciliation
  import opened Series

  // ----- The round of reconciliation -----

  /** The job for which the i-th missing runner is started: a pending one, in iteration order, or a placeholder. */
  function MissingJob(c: Setup, s: State, order: set<string> -> seq<string>, i: nat): PendingJob
    requires Enumerates(order(s.pending.Keys), s.pending.Keys)
  {
    var ids := order(s.pending.Keys);
    if i < |ids| then assert ids[i] in ids; s.pending[ids[i]]
    else PendingJob("reconcile-" + Itoa(i), "unknown-reconcile", c.settings.defaultProfile)
  }

  function MissingJobs(c: Setup, s: State, order: set<string> -> seq<string>, n: nat): (jobs: seq<PendingJob>)
    requires Enumerates(order(s.pending.Keys), s.pending.Keys)
    ensures |jobs| == n
  {
    seq(n, i requires 0 <= i => MissingJob(c, s, order, i))
  }

  lemma {:induction false} AttemptsTry(
      c: Setup, s: State, list: seq<PendingJob>, a: nat -> ProvisionAnswer, jobs: seq<PendingJob>)
    requires c.Valid() && forall i | 0 <= i < |jobs| :: jobs[i] == CandidateAt(c, list, i)
    ensures Attempts(c, s, list, a, |jobs|) == Tried(c, s, jobs, a)
    decreases |jobs|
  {
    hide Attempt, CandidateAt, For, ValidSettings;
    if jobs != [] {
      AttemptsTry(c, s, list, a, jobs[..|jobs| - 1]);
    }
  }

  lemma MissingIsCandidate(c: Setup, s: State, order: set<string> -> seq<string>)
    requires Enumerates(order(s.pending.Keys), s.pending.Keys)
    ensures forall i: nat :: MissingJob(c, s, order, i) == CandidateAt(c, PendingList(s, order), i)
  {
    hide Itoa, Enumerates;
  }

  lemma MissingRoutable(c: Setup, s: State, order: set<string> -> seq<string>, n: nat)
    requires c.Valid() && Routing(c, s) && Enumerates(order(s.pending.Keys), s.pending.Keys)
    ensures Routable(c, MissingJobs(c, s, order, n))
  {
    hide Routing, CandidateAt, PendingList, MissingJob, For, ValidSettings, Enumerates, RoutedJob;
    MissingIsCandidate(c, s, order);
    forall i: nat | i < n ensures MissingJob(c, s, order, i).profile in c.Profiles() {
      CandidateRouted(c, s, order, i);
      RoutedProfile(c, MissingJob(c, s, order, i));
    }
  }

  lemma RoundTries(c: Setup, s: State, total: int, answers: Answers, base: nat)
    requires c.Valid() && answers.Valid() && Inv(c, s, base)
    ensures Enumerates(answers.order(s.pending.Keys), s.pending.Keys)
    ensures var n, t := total - |s.Runners()|, Reconcile(c, s, total, answers);
            if n <= 0 then t == s
            else
              var jobs := MissingJobs(c, s, answers.order, n);
              Routable(c, jobs) && t == Tried(c, s, jobs, answers.reconcile)
  {
    InvRouting(c, s, base);
    InvSound(c, s, base);
    hide Inv, Sound, Routing, Attempts, CandidateAt, PendingList, Tried, For, ValidSettings, MissingJob, Routable,
      Enumerates, State.ActiveCount;
    assert Enumerates(answers.order(s.pending.Keys), s.pending.Keys);
    SoundActive(s);
    var n := total - |s.Runners()|;
    if 0 < n {
      MissingRoutable(c, s, answers.order, n);
      MissingIsCandidate(c, s, answers.order);
      AttemptsTry(c, s, PendingList(s, answers.order), answers.reconcile, MissingJobs(c, s, answers.order, n));
    }
  }

  lemma RoutedProfile(c: Setup, job: PendingJob)
    requires Job(c, job)
    ensures job.profile in c.Profiles()
  {}

  lemma RoundExtends(c: Setup, s: State, total: int, answers: Answers, base: nat)
    requires c.Valid() && answers.Valid() && Inv(c, s, base)
    ensures Extends(s, Reconcile(c, s, total, answers))
  {
    InvSound(c, s, base);
    RoundTries(c, s, total, answers, base);
    hide Inv, Reconcile, MissingJobs, Tried, For, ValidSettings, Enumerates, Routable;
    if 0 < total - |s.Runners()| {
      TriedKeeps(c, s, MissingJobs(c, s, answers.order, total - |s.Runners()|), answers.reconcile);
    }
  }

  lemma InvSound(c: Setup, s: State, base: nat)
    requires c.Valid() && Inv(c, s, base)
    ensures Sound(s)
  {}

  /** A message with a total first does what it does without one, and then a round for the runners that are missing. */
  lemma RoundAfterJobs(c: Setup, s: State, m: Message, answers: Answers, base: nat)
    requires c.Valid() && answers.Valid() && Inv(c, s, base) && m.totalAssigned.Some?
    ensures var u := Handle(c, s, m.(totalAssigned := None), answers);
            Inv(c, u, base) && Handle(c, s, m, answers) == Reconcile(c, u, m.totalAssigned.value, answers)
  {
    hide Inv, AssignAll, StartAll, CompleteAll, Reconcile, For, ValidSettings;
    HandleKeeps(c, s, m.(totalAssigned := None), answers, base);
  }

  /**
   After its jobs a message requests one runner for each that is missing, whatever is answered: first for the pending
   jobs in the order of iteration, then for placeholders. When none is missing, nothing happens.
   */
  lemma RoundRequests(c: Setup, s: State, m: Message, answers: Answers, base: nat)
    requires c.Valid() && answers.Valid() && Inv(c, s, base) && m.totalAssigned.Some?
    ensures var u := Handle(c, s, m.(totalAssigned := None), answers);
            var t, n := Handle(c, s, m, answers), m.totalAssigned.value - |u.Runners()|;
            var ids := answers.order(u.pending.Keys);
            && Enumerates(ids, u.pending.Keys) && t.pending == u.pending
            && if n <= 0 then t == u
               else
                 && |t.log| == |u.log| + n && u.log <= t.log
                 && forall i: nat | i < n ::
                      t.log[|u.log| + i] ==
                      Requested(if i < |ids| && ids[i] in u.pending
                                then "runner-" + u.pending[ids[i]].profile + "-" + ids[i]
                                else "runner-" + c.settings.defaultProfile + "-reconcile-" + Itoa(i))
  {
    hide Inv, Handle, Reconcile, Tried, For, ValidSettings, Enumerates, Routable, MissingJob, MissingJobs, Itoa;
    var u := Handle(c, s, m.(totalAssigned := None), answers);
    var total := m.totalAssigned.value;
    RoundAfterJobs(c, s, m, answers, base);
    RoundTries(c, u, total, answers, base);
    if 0 < total - |u.Runners()| {
      RequestsOf(c, u, answers, total - |u.Runners()|, base);
    }
  }

  lemma RequestsOf(c: Setup, u: State, answers: Answers, n: nat, base: nat)
    requires c.Valid() && Inv(c, u, base) && Enumerates(answers.order(u.pending.Keys), u.pending.Keys)
    requires Routable(c, MissingJobs(c, u, answers.order, n))
    ensures var t := Tried(c, u, MissingJobs(c, u, answers.order, n), answers.reconcile);
            var ids := answers.order(u.pending.Keys);
            && t.pending == u.pending && |t.log| == |u.log| + n && u.log <= t.log
            && forall i: nat | i < n ::
                 t.log[|u.log| + i] ==
                 Requested(if i < |ids| && ids[i] in u.pending
                           then "runner-" + u.pending[ids[i]].profile + "-" + ids[i]
                           else "runner-" + c.settings.defaultProfile + "-reconcile-" + Itoa(i))
  {
    hide Inv, Tried, For, ValidSettings, Enumerates, Routable, MissingJob, Itoa;
    var jobs := MissingJobs(c, u, answers.order, n);
    TriedRequests(c, u, jobs, answers.reconcile);
    forall i: nat | i < n
      ensures var ids := answers.order(u.pending.Keys);
              "runner-" + jobs[i].profile + "-" + jobs[i].jobID ==
              if i < |ids| && ids[i] in u.pending then "runner-" + u.pending[ids[i]].profile + "-" + ids[i]
              else "runner-" + c.settings.defaultProfile + "-reconcile-" + Itoa(i)
    {
      MissingName(c, u, answers.order, i, base);
    }
  }

  lemma MissingName(c: Setup, s: State, order: set<string> -> seq<string>, i: nat, base: nat)
    requires c.Valid() && Inv(c, s, base) && Enumerates(order(s.pending.Keys), s.pending.Keys)
    ensures var job, ids := MissingJob(c, s, order, i), order(s.pending.Keys);
            "runner-" + job.profile + "-" + job.jobID ==
            if i < |ids| && ids[i] in s.pending then "runner-" + s.pending[ids[i]].profile + "-" + ids[i]
            else "runner-" + c.settings.defaultProfile + "-reconcile-" + Itoa(i)
  {
    hide Sound, LimitsOk, RecordsOk, RoutedJob, Classifier.Classify, Itoa, For, ValidSettings;
    InvRouting(c, s, base);
    var ids := order(s.pending.Keys);
    if i < |ids| {
      assert ids[i] in ids;
    } else {
      assert "runner-" + c.settings.defaultProfile + "-" + ("reconcile-" + Itoa(i)) ==
             "runner-" + c.settings.defaultProfile + "-reconcile-" + Itoa(i);
    }
  }

  /** The i-th attempt of the round succeeds. */
  predicate AttemptSucceeds(c: Setup, u: State, answers: Answers, i: nat)
    requires c.Valid() && Enumerates(answers.order(u.pending.Keys), u.pending.Keys)
  {
    var job := MissingJob(c, u, answers.order, i);
    job.profile in c.Profiles() && Succeeds(c, u.rows, job, answers.reconcile(i))
  }

  /**
   An attempt of the round whose own calls succeed leaves its container, whatever is answered about the others; and its
   runner, if the name was free and no attempt before it has the same one.
   */
  lemma RoundServes(c: Setup, s: State, m: Message, answers: Answers, base: nat, i: nat)
    requires c.Valid() && answers.Valid() && Inv(c, s, base) && m.totalAssigned.Some?
    ensures var u := Handle(c, s, m.(totalAssigned := None), answers);
            var t, n := Handle(c, s, m, answers), m.totalAssigned.value - |u.Runners()|;
            && Enumerates(answers.order(u.pending.Keys), u.pending.Keys)
            && (i < n && AttemptSucceeds(c, u, answers, i) ==>
                  var job := MissingJob(c, u, answers.order, i);
                  && NameTaken(t.fleet.containers, NameOf(job))
                  && (!NameTaken(u.fleet.containers, NameOf(job)) && FirstOfName(MissingJobs(c, u, answers.order, n), i)
                      ==> RunnerUp(c, t, u.rows, job, answers.reconcile(i))))
  {
    hide Inv, Handle, Reconcile, Tried, For, ValidSettings, Enumerates, Routable, MissingJob, Sound, Succeeds, RunnerUp,
      NameOf, NameTaken, FirstOfName;
    var u, total := Handle(c, s, m.(totalAssigned := None), answers), m.totalAssigned.value;
    RoundAfterJobs(c, s, m, answers, base);
    InvSound(c, u, base);
    RoundTries(c, u, total, answers, base);
    if i < total - |u.Runners()| && AttemptSucceeds(c, u, answers, i) {
      TriedServes(c, u, MissingJobs(c, u, answers.order, total - |u.Runners()|), answers.reconcile, i);
    }
  }

  /** Tracked runners stay, and each new one is that of an attempt of the round that succeeded. */
  lemma OnlyMissing(c: Setup, s: State, m: Message, answers: Answers, base: nat, name: string)
    requires c.Valid() && answers.Valid() && Inv(c, s, base) && m.totalAssigned.Some?
    requires name in Handle(c, s, m, answers).Runners()
    ensures var u := Handle(c, s, m.(totalAssigned := None), answers);
            var t, n := Handle(c, s, m, answers), m.totalAssigned.value - |u.Runners()|;
            && Enumerates(answers.order(u.pending.Keys), u.pending.Keys)
            && Extends(u, t)
            && (name !in u.Runners() ==>
                  exists i: nat :: i < n && AttemptSucceeds(c, u, answers, i)
                    && name == NameOf(MissingJob(c, u, answers.order, i))
                    && RunnerUp(c, t, u.rows, MissingJob(c, u, answers.order, i), answers.reconcile(i)))
  {
    hide Inv, Handle, Reconcile, Tried, For, ValidSettings, Enumerates, Routable, MissingJob, Sound, Succeeds, RunnerUp,
      NameOf;
    var u, total := Handle(c, s, m.(totalAssigned := None), answers), m.totalAssigned.value;
    RoundAfterJobs(c, s, m, answers, base);
    InvSound(c, u, base);
    RoundExtends(c, u, total, answers, base);
    RoundTries(c, u, total, answers, base);
    if name !in u.Runners() {
      var i := TriedAdds(c, u, MissingJobs(c, u, answers.order, total - |u.Runners()|), answers.reconcile, name);
      assert AttemptSucceeds(c, u, answers, i);
    }
  }

  // ----- When the round reaches the total -----

  /** Every attempt of a round up to `total` succeeds. */
  ghost predicate RoundSucceeds(c: Setup, u: State, total: int, answers: Answers)
    requires c.Valid() && Enumerates(answers.order(u.pending.Keys), u.pending.Keys)
  {
    forall i: nat | i < total - |u.Runners()| :: AttemptSucceeds(c, u, answers, i)
  }

  lemma SucceedsIsSmooth(c: Setup, rows: seq<Row>, job: PendingJob, a: ProvisionAnswer)
    requires c.Valid() && job.profile in c.Profiles() && Succeeds(c, rows, job, a)
    ensures Smooth(a) && Startable(c, rows, job, a)
  {
    hide Effective, ParseCPUs, ParseMemory, For, ValidSettings;
  }

  lemma RoundIsSmooth(c: Setup, u: State, total: int, answers: Answers)
    requires c.Valid() && answers.Valid() && Enumerates(answers.order(u.pending.Keys), u.pending.Keys)
    requires |u.Runners()| < total && RoundSucceeds(c, u, total, answers)
    ensures SmoothRound(c, u, total, answers)
  {
    hide Succeeds, Smooth, Startable, PendingList, CandidateAt, MissingJob, For, ValidSettings, Enumerates;
    MissingIsCandidate(c, u, answers.order);
    var list := PendingList(u, answers.order);
    forall i: nat | i < total - |u.Runners()|
      ensures Smooth(answers.reconcile(i)) && Startable(c, u.rows, CandidateAt(c, list, i), answers.reconcile(i))
    {
      assert AttemptSucceeds(c, u, answers, i);
      assert MissingJob(c, u, answers.order, i) == CandidateAt(c, list, i);
      SucceedsIsSmooth(c, u.rows, CandidateAt(c, list, i), answers.reconcile(i));
    }
  }

  /** The missing runners' names are free and pairwise distinct. */
  predicate NamesFree(c: Setup, u: State, total: int, order: set<string> -> seq<string>)
    requires Enumerates(order(u.pending.Keys), u.pending.Keys)
  {
    var n := total - |u.Runners()|;
    && (forall i: nat | i < n ::
          forall id | id in u.fleet.containers ::
            u.fleet.containers[id].name != NameOf(MissingJob(c, u, order, i)))
    && (forall i: nat, k: nat | i < k && k < n ::
          NameOf(MissingJob(c, u, order, i)) != NameOf(MissingJob(c, u, order, k)))
  }

  lemma NamesFreeIs(c: Setup, u: State, total: int, order: set<string> -> seq<string>)
    requires Enumerates(order(u.pending.Keys), u.pending.Keys) && |u.Runners()| <= total
    ensures var list, n := PendingList(u, order), total - |u.Runners()|;
            NamesFree(c, u, total, order) <==> AllFree(c, u.fleet, list, n) && DistinctNames(c, list, n)
  {
    hide NameOf, PendingList, CandidateAt, MissingJob, Enumerates;
    MissingIsCandidate(c, u, order);
  }

  /**
   Reconciliation after a message's jobs is exact: when every attempt of the round succeeds, as many runners as the
   message reports assigned jobs are tracked if and only if there were not more and the missing runners' names are free
   and pairwise distinct. The runners are then the old ones and one under each free name.
   */
  lemma RoundFills(c: Setup, s: State, m: Message, answers: Answers, base: nat)
    requires c.Valid() && answers.Valid() && Inv(c, s, base) && m.totalAssigned.Some?
    ensures var u := Handle(c, s, m.(totalAssigned := None), answers);
            var t, total := Handle(c, s, m, answers), m.totalAssigned.value;
            && Enumerates(answers.order(u.pending.Keys), u.pending.Keys)
            && (RoundSucceeds(c, u, total, answers) ==>
                  && (|t.Runners()| == total <==> |u.Runners()| <= total && NamesFree(c, u, total, answers.order))
                  && (forall x :: x in t.Runners() <==>
                        x in u.Runners()
                        || (!NameTaken(u.fleet.containers, x)
                            && exists i: nat :: i < total - |u.Runners()|
                                                && x == NameOf(MissingJob(c, u, answers.order, i)))))
  {
    hide Inv, Handle, Reconcile, For, ValidSettings, Enumerates, MissingJob, Sound, NameOf, NameTaken, RoundSucceeds,
      NamesFree, PendingList, CandidateAt, AllFree, DistinctNames, SmoothRound, CandidateNames, Free;
    var u, total := Handle(c, s, m.(totalAssigned := None), answers), m.totalAssigned.value;
    RoundAfterJobs(c, s, m, answers, base);
    InvSound(c, u, base);
    RoundTries(c, u, total, answers, base);
    if RoundSucceeds(c, u, total, answers) && |u.Runners()| < total {
      RoundIsSmooth(c, u, total, answers);
      GapFilledExactly(c, u, total, answers);
      NamesFreeIs(c, u, total, answers.order);
      ReconcileExact(c, u, total, answers);
      FreeMissing(c, u, answers.order, total - |u.Runners()|);
    } else if |u.Runners()| == total {
      NoneMissing(c, u, total, answers.order);
    }
  }

  lemma NoneMissing(c: Setup, u: State, total: int, order: set<string> -> seq<string>)
    requires Enumerates(order(u.pending.Keys), u.pending.Keys) && |u.Runners()| == total
    ensures NamesFree(c, u, total, order)
  {}

  lemma FreeMissing(c: Setup, u: State, order: set<string> -> seq<string>, n: nat)
    requires Enumerates(order(u.pending.Keys), u.pending.Keys)
    ensures forall x :: x in Free(u.fleet, CandidateNames(c, PendingList(u, order), n)) <==>
                        !NameTaken(u.fleet.containers, x)
                        && exists i: nat :: i < n && x == NameOf(MissingJob(c, u, order, i))
  {
    hide NameOf, PendingList, CandidateAt, MissingJob, Enumerates, CandidateNames, NameTaken;
    MissingIsCandidate(c, u, order);
    NamesAre(c, PendingList(u, order), n);
  }

  /** When at least as many runners are missing as jobs are pending, every pending job has its container afterwards. */
  lemma RoundServesPending(c: Setup, s: State, m: Message, answers: Answers, base: nat, j: string)
    requires c.Valid() && answers.Valid() && Inv(c, s, base) && m.totalAssigned.Some?
    ensures var u := Handle(c, s, m.(totalAssigned := None), answers);
            var t, total := Handle(c, s, m, answers), m.totalAssigned.value;
            && Enumerates(answers.order(u.pending.Keys), u.pending.Keys)
            && (j in u.pending && |u.pending| <= total - |u.Runners()| && RoundSucceeds(c, u, total, answers) ==>
                exists id :: id in t.fleet.containers
                             && t.fleet.containers[id].name == "runner-" + u.pending[j].profile + "-" + j)
  {
    hide Inv, Handle, Reconcile, For, ValidSettings, Enumerates, MissingJob, Sound, RoundSucceeds, SmoothRound;
    var u, total := Handle(c, s, m.(totalAssigned := None), answers), m.totalAssigned.value;
    RoundAfterJobs(c, s, m, answers, base);
    InvSound(c, u, base);
    RoundTries(c, u, total, answers, base);
    if j in u.pending && |u.pending| <= total - |u.Runners()| && RoundSucceeds(c, u, total, answers) {
      assert |u.pending.Keys| > 0;
      RoundIsSmooth(c, u, total, answers);
      PendingServed(c, u, total, answers, j);
      PendingID(c, u, j, base);
    }
  }

  lemma PendingID(c: Setup, s: State, j: string, base: nat)
    requires c.Valid() && Inv(c, s, base) && j in s.pending
    ensures s.pending[j].jobID == j
  {}
}
