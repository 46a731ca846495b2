/** Reconciliation is exact: which runners it adds, for any iteration order of the pending map. */
module Reconciliation {
  import opened Strings
  import opened Configuration
  import opened Classification
  import opened MetricsStore
  import opened RunnerStore
  import opened Provisioning
  import opened ScalerModel
  import opened Conservation
  import opened Invariants
  import opened Capacity
  import opened Decimal
  import opened Names

  /** No call fails. */
  predicate Smooth(a: ProvisionAnswer) {
    a.jitOk && a.start.createOk && a.start.startOk && a.start.inspectOk
  }

  function NameOf(job: PendingJob): string {
    RunnerName(job.profile, job.jobID)
  }

  /** The profile exists and the runner accepts the resource strings chosen for the job. */
  predicate Startable(c: Setup, rows: seq<Row>, job: PendingJob, a: ProvisionAnswer)
    requires c.Valid()
  {
    job.profile in c.Profiles()
    && var e := Effective(c, rows, job.displayName, c.Profiles()[job.profile], a.historyOk);
       Limits(e.cpus, e.memory).Some?
  }

  /** Without failures an attempt adds its runner if the container name is free, and changes nothing otherwise. */
  lemma SmoothAttempt(c: Setup, s: State, job: PendingJob, a: ProvisionAnswer)
    requires c.Valid() && Sound(s) && Smooth(a) && Startable(c, s.rows, job, a)
    ensures var t := Attempt(c, s, job, a);
            if NameTaken(s.fleet.containers, NameOf(job)) then
              t.tracker == s.tracker && t.fleet == s.fleet
            else
              NameOf(job) !in s.Runners()
              && t.Runners() == s.Runners()[NameOf(job) := t.Runners()[NameOf(job)]]
              && t.Runners()[NameOf(job)].jobID == job.jobID
              && (forall x :: NameTaken(t.fleet.containers, x) <==>
                              NameTaken(s.fleet.containers, x) || x == NameOf(job))
    ensures Sound(Attempt(c, s, job, a))
  {
    hide Effective, RunnerName, FleetOk, Accounted, StopsOk, ViewsOk, NoneCompleted, NameTaken, Limits;
    var e := Effective(c, s.rows, job.displayName, c.Profiles()[job.profile], a.historyOk);
    var o := StartOutcome(s.fleet, NameOf(job), e.cpus, e.memory, a.start);
    var s1 := Consulted(c, s.(log := s.log + [Requested(NameOf(job))]), a.historyOk);
    OutcomeAllowed(s.fleet, NameOf(job), e.cpus, e.memory, a.start);
    SoundSame(s, s1);
    LaunchKeeps(s1, o, NewRunner(job.displayName, job.jobID, job.profile, e));
    if !NameTaken(s.fleet.containers, NameOf(job)) {
      FreeNameUntracked(s, NameOf(job));
      CreatedName(s.fleet, o.container);
    }
  }

  lemma CreatedName(f: Fleet, k: Container)
    requires FleetOk(f)
    ensures forall x :: NameTaken(Create(f, k).containers, x) <==> NameTaken(f.containers, x) || x == k.name
  {
    var g := Create(f, k);
    assert f.nextId !in f.containers;
    forall x ensures NameTaken(g.containers, x) <==> NameTaken(f.containers, x) || x == k.name {
      assert g.containers[f.nextId].name == k.name;
      if NameTaken(f.containers, x) {
        var id :| id in f.containers && f.containers[id].name == x;
        assert g.containers[id].name == x;
      }
      if NameTaken(g.containers, x) {
        var id :| id in g.containers && g.containers[id].name == x;
        assert id != f.nextId ==> f.containers[id].name == x;
      }
    }
  }

  /** The container names of the first `n` candidates. */
  function CandidateNames(c: Setup, list: seq<PendingJob>, n: nat): set<string> {
    if n == 0 then {} else CandidateNames(c, list, n - 1) + {NameOf(CandidateAt(c, list, n - 1))}
  }

  /** Those of the names that no existing container has. */
  function Free(f: Fleet, names: set<string>): set<string> {
    set x | x in names && !NameTaken(f.containers, x)
  }

  /** All attempts of the round can go through. */
  ghost predicate AllSmooth(c: Setup, rows: seq<Row>, list: seq<PendingJob>, a: nat -> ProvisionAnswer, n: nat)
    requires c.Valid()
  {
    forall i: nat | i < n :: Smooth(a(i)) && Startable(c, rows, CandidateAt(c, list, i), a(i))
  }

  lemma {:induction false} AttemptsExact(c: Setup, s: State, list: seq<PendingJob>, a: nat -> ProvisionAnswer, n: nat)
    requires c.Valid() && Sound(s) && AllSmooth(c, s.rows, list, a, n)
    ensures var t := Attempts(c, s, list, a, n);
            && Sound(t)
            && t.Runners().Keys == s.Runners().Keys + Free(s.fleet, CandidateNames(c, list, n))
            && (forall x | x in s.Runners() :: t.Runners()[x] == s.Runners()[x])
            && (forall x :: NameTaken(t.fleet.containers, x) <==>
                            NameTaken(s.fleet.containers, x) || x in CandidateNames(c, list, n))
    decreases n
  {
    hide Sound, Smooth, Startable, Attempt, NameOf, NameTaken, CandidateAt;
    if n != 0 {
      AttemptsExact(c, s, list, a, n - 1);
      var t := Attempts(c, s, list, a, n - 1);
      var job := CandidateAt(c, list, n - 1);
      assert Smooth(a(n - 1)) && Startable(c, s.rows, job, a(n - 1));
      SmoothAttempt(c, t, job, a(n - 1));
    }
  }

  /** The first attempts of a round are for the pending jobs, each once. */
  lemma CandidatesArePending(c: Setup, s: State, order: set<string> -> seq<string>)
    requires Enumerates(order(s.pending.Keys), s.pending.Keys)
    ensures var list := PendingList(s, order);
            && |list| == |s.pending|
            && (forall i | 0 <= i < |list| :: CandidateAt(c, list, i) in s.pending.Values)
            && (forall j | j in s.pending :: s.pending[j] in list)
            && ((forall j | j in s.pending :: s.pending[j].jobID == j) ==>
                forall i, k | 0 <= i < k < |list| :: list[i].jobID != list[k].jobID)
  {
    var ids := order(s.pending.Keys);
    var list := PendingList(s, order);
    EnumeratesSize(ids, s.pending.Keys);
    forall i | 0 <= i < |list| ensures CandidateAt(c, list, i) in s.pending.Values {
      assert ids[i] in ids;
      assert ids[i] in s.pending.Keys;
    }
    forall j | j in s.pending ensures s.pending[j] in list {
      assert j in ids;
      var i :| 0 <= i < |ids| && ids[i] == j;
      assert list[i] == s.pending[j];
    }
    assert forall i | 0 <= i < |ids| :: ids[i] in ids;
  }

  /** Nothing fails in a reconciliation up to `total` runners. */
  ghost predicate SmoothRound(c: Setup, s: State, total: int, answers: Answers)
    requires c.Valid() && answers.Valid()
  {
    assert Enumerates(answers.order(s.pending.Keys), s.pending.Keys);
    |s.Runners()| < total
    && AllSmooth(c, s.rows, PendingList(s, answers.order), answers.reconcile, total - |s.Runners()|)
  }

  /**
   Without failures, the names tracked after reconciliation are the old ones plus exactly the free ones among the names
   of as many candidates as runners were missing; the runners tracked before are untouched.
   */
  lemma ReconcileExact(c: Setup, s: State, total: int, answers: Answers)
    requires c.Valid() && answers.Valid() && Sound(s) && SmoothRound(c, s, total, answers)
    ensures Enumerates(answers.order(s.pending.Keys), s.pending.Keys)
    ensures var t := Reconcile(c, s, total, answers);
            var names := CandidateNames(c, PendingList(s, answers.order), total - |s.Runners()|);
            && t.Runners().Keys == s.Runners().Keys + Free(s.fleet, names)
            && (forall x | x in s.Runners() :: t.Runners()[x] == s.Runners()[x])
            && (forall x | x in names :: NameTaken(t.fleet.containers, x))
  {
    hide Sound, AllSmooth, Attempts, NameTaken, PendingList, CandidateNames, State.ActiveCount, For, ValidSettings,
      Enumerates, Free, State.Runners;
    SoundActive(s);
    AttemptsExact(c, s, PendingList(s, answers.order), answers.reconcile, total - |s.Runners()|);
  }

  lemma SoundActive(s: State)
    requires Sound(s)
    ensures s.ActiveCount() == |s.Runners()|
  {
    hide Core;
    AllActive(s);
  }

  /** When at least as many runners are missing as jobs are pending, every pending job has a container afterwards. */
  lemma PendingServed(c: Setup, s: State, total: int, answers: Answers, j: string)
    requires c.Valid() && answers.Valid() && Sound(s) && SmoothRound(c, s, total, answers)
    requires |s.pending| <= total - |s.Runners()| && j in s.pending
    ensures NameTaken(Reconcile(c, s, total, answers).fleet.containers, NameOf(s.pending[j]))
  {
    hide Sound, SmoothRound, NameTaken, NameOf, Reconcile, PendingList, Enumerates, CandidateNames, Free, For,
      ValidSettings, Answers.Valid;
    ReconcileExact(c, s, total, answers);
    var list := PendingList(s, answers.order);
    CandidatesArePending(c, s, answers.order);
    assert s.pending[j] in list;
    var i :| 0 <= i < |list| && list[i] == s.pending[j];
    NamedWithin(c, list, i, total - |s.Runners()|);
  }

  lemma {:induction false} NamedWithin(c: Setup, list: seq<PendingJob>, i: nat, n: nat)
    requires i < n
    ensures NameOf(CandidateAt(c, list, i)) in CandidateNames(c, list, n)
  {
    if i < n - 1 {
      NamedWithin(c, list, i, n - 1);
    }
  }

  // ----- When the round fills the gap -----

  predicate AllFree(c: Setup, f: Fleet, list: seq<PendingJob>, n: nat) {
    forall i: nat | i < n :: !NameTaken(f.containers, NameOf(CandidateAt(c, list, i)))
  }

  predicate DistinctNames(c: Setup, list: seq<PendingJob>, n: nat) {
    forall i: nat, k: nat | i < k < n :: NameOf(CandidateAt(c, list, i)) != NameOf(CandidateAt(c, list, k))
  }

  lemma {:induction false} NamesAre(c: Setup, list: seq<PendingJob>, n: nat)
    ensures forall x :: x in CandidateNames(c, list, n) <==>
                        exists i: nat :: i < n && x == NameOf(CandidateAt(c, list, i))
    decreases n
  {
    hide NameOf, CandidateAt;
    if n != 0 {
      NamesAre(c, list, n - 1);
    }
  }

  lemma OneMoreName(names: set<string>, x: string)
    ensures |names + {x}| == |names| + (if x in names then 0 else 1)
  {
    assert x in names ==> names + {x} == names;
  }

  /** As many names as candidates exactly when the names are distinct. */
  lemma {:induction false} NamesCount(c: Setup, list: seq<PendingJob>, n: nat)
    ensures |CandidateNames(c, list, n)| <= n
    ensures |CandidateNames(c, list, n)| == n <==> DistinctNames(c, list, n)
    decreases n
  {
    hide NameOf, CandidateAt;
    if n != 0 {
      NamesCount(c, list, n - 1);
      NamesAre(c, list, n - 1);
      var names, x := CandidateNames(c, list, n - 1), NameOf(CandidateAt(c, list, n - 1));
      OneMoreName(names, x);
      hide CandidateNames;
      DistinctMore(c, list, n - 1);
    }
  }

  lemma DistinctMore(c: Setup, list: seq<PendingJob>, n: nat)
    ensures DistinctNames(c, list, n + 1) <==>
            DistinctNames(c, list, n) && NameOf(CandidateAt(c, list, n)) !in CandidateNames(c, list, n)
  {
    NamesAre(c, list, n);
    hide NameOf, CandidateAt, CandidateNames;
  }

  /** All names free and distinct exactly when as many free names as candidates. */
  lemma FreeCount(c: Setup, f: Fleet, list: seq<PendingJob>, n: nat)
    ensures |Free(f, CandidateNames(c, list, n))| == n <==> AllFree(c, f, list, n) && DistinctNames(c, list, n)
  {
    hide NameOf, CandidateAt, NameTaken, CandidateNames, DistinctNames;
    NamesCount(c, list, n);
    NamesAre(c, list, n);
    var names := CandidateNames(c, list, n);
    var free := Free(f, names);
    SubsetSize(free, names);
    if AllFree(c, f, list, n) {
      assert free == names;
    }
    if |free| == n {
      assert |names - free| == |names| - |free|;
      forall i: nat | i < n ensures !NameTaken(f.containers, NameOf(CandidateAt(c, list, i))) {
        assert NameOf(CandidateAt(c, list, i)) in names;
        assert NameOf(CandidateAt(c, list, i)) !in names - free;
      }
    }
  }

  /**
   Without failures a round ends with as many runners as jobs are assigned exactly when the names of its candidates are
   free and pairwise distinct.
   */
  lemma GapFilledExactly(c: Setup, s: State, total: int, answers: Answers)
    requires c.Valid() && answers.Valid() && Sound(s) && SmoothRound(c, s, total, answers)
    ensures Enumerates(answers.order(s.pending.Keys), s.pending.Keys)
    ensures var list, n := PendingList(s, answers.order), total - |s.Runners()|;
            |Reconcile(c, s, total, answers).Runners()| == total <==>
            AllFree(c, s.fleet, list, n) && DistinctNames(c, list, n)
  {
    hide Sound, SmoothRound, Reconcile, PendingList, CandidateNames, Free, AllFree, DistinctNames, Setup.Valid,
      Answers.Valid, Enumerates, NameTaken;
    RoundMissing(c, s, total, answers);
    ReconcileExact(c, s, total, answers);
    var list, n := PendingList(s, answers.order), total - |s.Runners()|;
    var names := CandidateNames(c, list, n);
    FreeCount(c, s.fleet, list, n);
    FreeAreNew(s, names);
    DisjointCount(Reconcile(c, s, total, answers).Runners(), s.Runners(), Free(s.fleet, names));
  }

  lemma RoundMissing(c: Setup, s: State, total: int, answers: Answers)
    requires c.Valid() && answers.Valid() && SmoothRound(c, s, total, answers)
    ensures |s.Runners()| < total
  {
    hide AllSmooth, PendingList, Setup.Valid, Enumerates;
  }

  /** No tracked runner has a free name. */
  lemma FreeAreNew(s: State, names: set<string>)
    requires Sound(s)
    ensures s.Runners().Keys !! Free(s.fleet, names)
  {
    hide FleetOk, Accounted, StopsOk, ViewsOk, NoneCompleted, NameTaken;
    forall x | x in Free(s.fleet, names) ensures x !in s.Runners() {
      FreeNameUntracked(s, x);
    }
  }

  lemma DisjointCount(after: Contents, before: Contents, extra: set<string>)
    requires after.Keys == before.Keys + extra && before.Keys !! extra
    ensures |after| == |before| + |extra|
  {
    assert |after.Keys| == |before.Keys| + |extra|;
  }

  /** No pending job has the profile and the ID of one of the round's placeholders. */
  predicate NoPlaceholderPending(c: Setup, s: State, n: nat) {
    forall k: nat | |s.pending| <= k < n ::
      "reconcile-" + Itoa(k) in s.pending ==> s.pending["reconcile-" + Itoa(k)].profile != c.settings.defaultProfile
  }

  /** When no profile name is ambiguous, candidates share a name only if a pending job poses as a placeholder. */
  lemma DistinctExactly(c: Setup, s: State, order: set<string> -> seq<string>, n: nat)
    requires c.Valid() && Routing(c, s) && !Ambiguous(c.Profiles().Keys)
    requires Enumerates(order(s.pending.Keys), s.pending.Keys)
    ensures DistinctNames(c, PendingList(s, order), n) <==> NoPlaceholderPending(c, s, n)
  {
    hide Classifier.Classify, NameOf, PendingList, Ambiguous, For, ValidSettings, Enumerates, CandidateAt, RunnerName,
      Itoa;
    var list := PendingList(s, order);
    CandidatesArePending(c, s, order);
    if NoPlaceholderPending(c, s, n) {
      forall i: nat, k: nat | i < k < n ensures NameOf(CandidateAt(c, list, i)) != NameOf(CandidateAt(c, list, k)) {
        CandidatesDiffer(c, s, order, i, k);
      }
    }
    if DistinctNames(c, list, n) {
      forall k: nat | |s.pending| <= k < n && "reconcile-" + Itoa(k) in s.pending
        ensures s.pending["reconcile-" + Itoa(k)].profile != c.settings.defaultProfile
      {
        var j := "reconcile-" + Itoa(k);
        assert s.pending[j] in list;
        var i :| 0 <= i < |list| && list[i] == s.pending[j];
        PosesAsPlaceholder(c, list, i, k);
        assert i < k;
        assert NameOf(CandidateAt(c, list, i)) != NameOf(CandidateAt(c, list, k));
      }
    }
  }

  lemma PosesAsPlaceholder(c: Setup, list: seq<PendingJob>, i: nat, k: nat)
    requires i < |list| <= k && list[i].jobID == "reconcile-" + Itoa(k)
    ensures list[i].profile == c.settings.defaultProfile ==>
              NameOf(CandidateAt(c, list, i)) == NameOf(CandidateAt(c, list, k))
  {}

  /** Profile and ID of candidates: those of pending jobs, or the default and a numbered one. */
  lemma CandidatesDiffer(c: Setup, s: State, order: set<string> -> seq<string>, i: nat, k: nat)
    requires c.Valid() && Routing(c, s) && !Ambiguous(c.Profiles().Keys) && i < k
    requires Enumerates(order(s.pending.Keys), s.pending.Keys)
    requires |s.pending| <= k ==> "reconcile-" + Itoa(k) in s.pending ==>
               s.pending["reconcile-" + Itoa(k)].profile != c.settings.defaultProfile
    ensures NameOf(CandidateAt(c, PendingList(s, order), i)) != NameOf(CandidateAt(c, PendingList(s, order), k))
  {
    hide Classifier.Classify, PendingList, Ambiguous, For, ValidSettings, Enumerates, RunnerName, Itoa, Placeholder,
      CandidateAt;
    var list := PendingList(s, order);
    var a, b := CandidateAt(c, list, i), CandidateAt(c, list, k);
    CandidatesArePending(c, s, order);
    CandidateRouted(c, s, order, i);
    CandidateRouted(c, s, order, k);
    InjectiveExactly(c.Profiles().Keys);
    if a.profile == b.profile && a.jobID == b.jobID {
      SameCandidates(c, s, list, i, k);
    }
  }

  lemma SameCandidates(c: Setup, s: State, list: seq<PendingJob>, i: nat, k: nat)
    requires i < k && |list| == |s.pending| && forall j | j in s.pending :: s.pending[j].jobID == j
    requires (forall n | 0 <= n < |list| :: CandidateAt(c, list, n) in s.pending.Values)
    requires forall m, n | 0 <= m < n < |list| :: list[m].jobID != list[n].jobID
    requires CandidateAt(c, list, i).profile == CandidateAt(c, list, k).profile
    requires CandidateAt(c, list, i).jobID == CandidateAt(c, list, k).jobID
    ensures i < |list| <= k
    ensures var j := "reconcile-" + Itoa(k); j in s.pending && s.pending[j].profile == c.settings.defaultProfile
  {
    hide Itoa;
    NumbersDiffer(i, k);
    if i < |list| {
      assert CandidateAt(c, list, i) in s.pending.Values;
    }
  }

  lemma NumbersDiffer(i: nat, k: nat)
    requires i != k
    ensures "reconcile-" + Itoa(i) != "reconcile-" + Itoa(k)
  {
    ParseItoa(i);
    ParseItoa(k);
    hide Itoa, ParseFloat, ParseInt;
    assert ("reconcile-" + Itoa(i))[|"reconcile-"|..] == Itoa(i);
    assert ("reconcile-" + Itoa(k))[|"reconcile-"|..] == Itoa(k);
  }

  /**
   With unambiguous profile names, a failure-free round fills the gap exactly when its candidates' names are free and no
   pending job has the profile and ID of one of its placeholders.
   */
  lemma UnambiguousFills(c: Setup, s: State, total: int, answers: Answers)
    requires c.Valid() && answers.Valid() && Sound(s) && SmoothRound(c, s, total, answers)
    requires Routing(c, s) && !Ambiguous(c.Profiles().Keys)
    ensures Enumerates(answers.order(s.pending.Keys), s.pending.Keys)
    ensures var n := total - |s.Runners()|;
            |Reconcile(c, s, total, answers).Runners()| == total <==>
            AllFree(c, s.fleet, PendingList(s, answers.order), n) && NoPlaceholderPending(c, s, n)
  {
    hide Sound, SmoothRound, Routing, Reconcile, NameTaken, PendingList, For, ValidSettings, AllFree, DistinctNames,
      Ambiguous, NoPlaceholderPending, Enumerates;
    RoundMissing(c, s, total, answers);
    GapFilledExactly(c, s, total, answers);
    DistinctExactly(c, s, answers.order, total - |s.Runners()|);
  }
}
