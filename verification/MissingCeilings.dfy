/**
 What becomes of jobs whose ceilings are not configured. Validation does not ask for them, and a ceiling that is not
 set counts as zero.
 */
module MissingCeilings {
  import opened Wrappers
  import opened Quantities
  import opened Configuration
  import opened MetricsStore
  import opened Adjustment
  import opened Provisioning
  import opened ScalerModel
  import opened Reconciliation

  /** The history of the job is read and fills the window. */
  ghost predicate Adapts(c: Setup, s: State, job: PendingJob, a: ProvisionAnswer)
    requires c.Valid()
  {
    c.settings.adaptive.enabled && a.historyOk && job.profile in c.Profiles()
    && c.settings.adaptive.historyWindow <= |ForJob(s.rows, job.displayName)|
  }

  lemma AdaptedStrings(c: Setup, s: State, job: PendingJob, a: ProvisionAnswer)
    requires c.Valid() && Adapts(c, s, job, a)
    ensures c.Scaling().Valid()
    ensures var h := History(s.rows, job.displayName, c.Scaling().historyWindow);
            var p := c.Profiles()[job.profile];
            && FullWindow(c.Scaling(), h)
            && Effective(c, s.rows, job.displayName, p, true) ==
               Adjusted(Chosen(Cpu, c.Scaling(), p, h), Chosen(Mem, c.Scaling(), p, h))
  {
    hide ForJob, History, Chosen;
    AdjusterValid(c);
    HistorySize(s.rows, job.displayName, c.Scaling().historyWindow);
  }

  lemma UnsetCeiling(r: Resource, a: Adjuster, p: Profile)
    requires match r case Cpu => a.maxCPUs == "" case Mem => a.maxMemory == ""
    ensures Ceiling(r, a, p) <= 0.0
    ensures var own := match r case Cpu => p.maxCPUs case Mem => p.maxMemory;
            own == "" || 0.0 <= Parse(r, own) ==> Ceiling(r, a, p) == 0.0
  {}

  lemma ZeroCeiling(r: Resource, a: Adjuster, p: Profile, h: seq<MetricsRecord>)
    requires a.Valid() && FullWindow(a, h) && 0.0 <= Baseline(r, p) && Ceiling(r, a, p) == 0.0
    ensures Enforced(r, Chosen(r, a, p, h)) == match r case Cpu => Ok(0) case Mem => Err
  {
    hide Parse, Ceiling, Format, Baseline, Chosen, Next, Enforced;
    ChosenFull(r, a, p, h);
    NextBetween(a, Baseline(r, p), 0.0, Samples(r, h));
    PrintedIsEnforced(r, 0.0);
    SnapOnGrid(r, 0.0);
  }

  /**
   The global memory ceiling is left out. A ceiling of the profile does not help: it counts only when it is lower, and
   nothing is lower than the zero that the missing one counts as, short of a negative quantity.
   */
  predicate NoMemoryCeiling(c: Setup, p: Profile) {
    c.settings.adaptive.maxMemory == "" && (p.maxMemory == "" || 0.0 <= Parse(Mem, p.maxMemory))
    && 0.0 <= Baseline(Mem, p)
  }

  /** The global CPU ceiling is left out. */
  predicate NoCPUCeiling(c: Setup, p: Profile) {
    c.settings.adaptive.maxCPUs == "" && (p.maxCPUs == "" || 0.0 <= Parse(Cpu, p.maxCPUs)) && 0.0 <= Baseline(Cpu, p)
  }

  /**
   Without a global memory ceiling no attempt ever starts a runner for a job with a full window, whatever Docker
   answers: the printed memory is zero, which the runner refuses.
   */
  lemma UnsetMemoryStartsNothing(c: Setup, s: State, job: PendingJob, a: ProvisionAnswer)
    requires c.Valid() && Adapts(c, s, job, a) && NoMemoryCeiling(c, c.Profiles()[job.profile])
    ensures var t := Attempt(c, s, job, a); t.tracker == s.tracker && t.fleet == s.fleet
  {
    hide Effective, ForJob, Chosen, Baseline, RunnerName, Parse;
    AdaptedStrings(c, s, job, a);
    var p := c.Profiles()[job.profile];
    UnsetCeiling(Mem, c.Scaling(), p);
    ZeroCeiling(Mem, c.Scaling(), p, History(s.rows, job.displayName, c.Scaling().historyWindow));
  }

  /** The memory bounds are such that the runner accepts every adjusted memory. */
  ghost predicate MemoryFits(c: Setup, p: Profile) {
    && 10.0 <= Baseline(Mem, p) && 10.0 <= Ceiling(Mem, c.Scaling(), p)
    && InInt64(Baseline(Mem, p)) && InInt64(Ceiling(Mem, c.Scaling(), p))
  }

  lemma UnlimitedStrings(c: Setup, s: State, job: PendingJob, a: ProvisionAnswer)
    requires c.Valid() && Adapts(c, s, job, a)
    requires NoCPUCeiling(c, c.Profiles()[job.profile]) && MemoryFits(c, c.Profiles()[job.profile])
    ensures var e := Effective(c, s.rows, job.displayName, c.Profiles()[job.profile], true);
            Limits(e.cpus, e.memory).Some? && Limits(e.cpus, e.memory).value.0 == 0
  {
    hide Effective, ForJob, Chosen, Baseline, Ceiling, ParseCPUs, ParseMemory, Parse;
    AdaptedStrings(c, s, job, a);
    var p := c.Profiles()[job.profile];
    var h := History(s.rows, job.displayName, c.Scaling().historyWindow);
    UnsetCeiling(Cpu, c.Scaling(), p);
    ZeroCeiling(Cpu, c.Scaling(), p, h);
    MemoryAcceptedExactly(c.Scaling(), p);
    assert Enforced(Mem, Chosen(Mem, c.Scaling(), p, h)).Ok?;
  }

  /**
   Without a global CPU ceiling, but with a memory ceiling, a runner for a job with a full window is started with a CPU
   limit of zero, which Docker reads as no limit.
   */
  lemma UnsetCPUIsUnlimited(c: Setup, s: State, job: PendingJob, a: ProvisionAnswer)
    requires c.Valid() && Adapts(c, s, job, a)
    requires NoCPUCeiling(c, c.Profiles()[job.profile]) && MemoryFits(c, c.Profiles()[job.profile])
    requires Smooth(a) && !NameTaken(s.fleet.containers, NameOf(job))
    ensures var t := Attempt(c, s, job, a);
            && s.fleet.nextId in t.fleet.containers && t.fleet.containers[s.fleet.nextId].nanoCPUs == 0
            && NameOf(job) in t.Runners() && t.Runners()[NameOf(job)].containerID == s.fleet.nextId
  {
    hide Effective, ForJob, RunnerName, NameTaken, Limits, NoCPUCeiling, MemoryFits;
    UnlimitedStrings(c, s, job, a);
  }
}
