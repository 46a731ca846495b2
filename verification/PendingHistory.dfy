/** The pending map is determined by the job events received so far, whether or not provisioning succeeded. */
module PendingHistory {
  import opened Classification
  import opened ScalerModel

  /** A job's events: its assignment under a display name, and its start or completion. */
  datatype JobEvent = Arrives(jobID: string, displayName: string) | Ends(jobID: string)

  function Arrivals(jobs: seq<AssignedJob>): seq<JobEvent> {
    if jobs == [] then []
    else Arrivals(jobs[..|jobs| - 1]) + [Arrives(jobs[|jobs| - 1].jobID, jobs[|jobs| - 1].displayName)]
  }

  function StartEnds(jobs: seq<StartedJob>): seq<JobEvent> {
    if jobs == [] then [] else StartEnds(jobs[..|jobs| - 1]) + [Ends(jobs[|jobs| - 1].jobID)]
  }

  function CompletionEnds(jobs: seq<CompletedJob>): seq<JobEvent> {
    if jobs == [] then [] else CompletionEnds(jobs[..|jobs| - 1]) + [Ends(jobs[|jobs| - 1].jobID)]
  }

  /** Within a message: assigned, then started, then completed. */
  function MessageEvents(m: Message): seq<JobEvent> {
    Arrivals(m.assignments) + StartEnds(m.started) + CompletionEnds(m.completed)
  }

  function Events(polls: seq<Poll>): seq<JobEvent> {
    if polls == [] then []
    else
      var last := polls[|polls| - 1];
      Events(polls[..|polls| - 1]) + (if last.Delivered? then MessageEvents(last.message) else [])
  }

  /** The display names of pending jobs. */
  function Names(pending: map<string, PendingJob>): map<string, string> {
    map j | j in pending :: pending[j].displayName
  }

  function After(names: map<string, string>, e: JobEvent): map<string, string> {
    match e
    case Arrives(j, d) => names[j := d]
    case Ends(j) => names - {j}
  }

  function AfterAll(names: map<string, string>, es: seq<JobEvent>): map<string, string> {
    if es == [] then names else After(AfterAll(names, es[..|es| - 1]), es[|es| - 1])
  }

  lemma AfterMore(names: map<string, string>, es: seq<JobEvent>, e: JobEvent)
    ensures AfterAll(names, es + [e]) == After(AfterAll(names, es), e)
  {
    assert (es + [e])[..|es|] == es;
  }

  lemma {:induction false} AfterConcat(names: map<string, string>, es: seq<JobEvent>, fs: seq<JobEvent>)
    ensures AfterAll(names, es + fs) == AfterAll(AfterAll(names, es), fs)
  {
    if fs == [] {
      assert es + fs == es;
    } else {
      var front := fs[..|fs| - 1];
      AfterConcat(names, es, front);
      assert es + fs == (es + front) + [fs[|fs| - 1]];
      AfterMore(names, es + front, fs[|fs| - 1]);
    }
  }

  // ----- The scaler follows its events -----

  lemma AssignNames(c: Setup, s: State, job: AssignedJob, a: ProvisionAnswer)
    requires c.Valid()
    ensures Names(Assign(c, s, job, a).pending) == After(Names(s.pending), Arrives(job.jobID, job.displayName))
  {
    hide Provision, Classifier.Classify;
    ClassifyFindsProfile(c.settings, c.classifier.matches, job.displayName);
  }

  lemma {:induction false} AssignAllNames(c: Setup, s: State, jobs: seq<AssignedJob>, a: nat -> ProvisionAnswer)
    requires c.Valid()
    ensures Names(AssignAll(c, s, jobs, a).pending) == AfterAll(Names(s.pending), Arrivals(jobs))
  {
    hide Names, After, Assign;
    if jobs != [] {
      var n := |jobs| - 1;
      AssignAllNames(c, s, jobs[..n], a);
      AssignNames(c, AssignAll(c, s, jobs[..n], a), jobs[n], a(n));
      AfterMore(Names(s.pending), Arrivals(jobs[..n]), Arrives(jobs[n].jobID, jobs[n].displayName));
    }
  }

  lemma RemoveName(pending: map<string, PendingJob>, j: string)
    ensures Names(pending - {j}) == After(Names(pending), Ends(j))
  {}

  lemma {:induction false} StartAllNames(s: State, jobs: seq<StartedJob>)
    ensures Names(StartAll(s, jobs).pending) == AfterAll(Names(s.pending), StartEnds(jobs))
  {
    hide Names, After;
    if jobs != [] {
      var n := |jobs| - 1;
      StartAllNames(s, jobs[..n]);
      RemoveName(StartAll(s, jobs[..n]).pending, jobs[n].jobID);
      AfterMore(Names(s.pending), StartEnds(jobs[..n]), Ends(jobs[n].jobID));
    }
  }

  lemma {:induction false} CompleteAllNames(c: Setup, s: State, jobs: seq<CompletedJob>, a: nat -> CompletionAnswer)
    ensures Names(CompleteAll(c, s, jobs, a).pending) == AfterAll(Names(s.pending), CompletionEnds(jobs))
  {
    hide Names, After, Complete;
    if jobs != [] {
      var n := |jobs| - 1;
      CompleteAllNames(c, s, jobs[..n], a);
      RemoveName(CompleteAll(c, s, jobs[..n], a).pending, jobs[n].jobID);
      AfterMore(Names(s.pending), CompletionEnds(jobs[..n]), Ends(jobs[n].jobID));
    }
  }

  lemma HandleNames(c: Setup, s: State, m: Message, answers: Answers)
    requires c.Valid() && answers.Valid()
    ensures Names(Handle(c, s, m, answers).pending) == AfterAll(Names(s.pending), MessageEvents(m))
  {
    hide Names, AfterAll, Handle, AssignAll, StartAll, CompleteAll;
    var names := Names(s.pending);
    var s1 := AssignAll(c, s, m.assignments, answers.assign);
    AssignAllNames(c, s, m.assignments, answers.assign);
    StartAllNames(s1, m.started);
    CompleteAllNames(c, StartAll(s1, m.started), m.completed, answers.complete);
    AfterConcat(names, Arrivals(m.assignments), StartEnds(m.started));
    AfterConcat(names, Arrivals(m.assignments) + StartEnds(m.started), CompletionEnds(m.completed));
  }

  lemma {:induction false} RunNames(c: Setup, s: State, polls: seq<Poll>)
    requires c.Valid() && forall p | p in polls :: p.Valid()
    ensures Names(Run(c, s, polls).state.pending) == AfterAll(Names(s.pending), Events(polls))
  {
    hide Names, Handle, Capacity, AfterAll, MessageEvents;
    if polls == [] {
      NoEvents(Names(s.pending));
    } else {
      var front, last := polls[..|polls| - 1], polls[|polls| - 1];
      RunNames(c, s, front);
      assert last in polls && last.Valid();
      if last.Delivered? {
        var m := Run(c, s, front);
        var s1 := Log(Log(m.state, Polled(m.lastID, Capacity(c, m.state))), Acked(last.message.id));
        HandleNames(c, s1, last.message, last.answers);
        AfterConcat(Names(s.pending), Events(front), MessageEvents(last.message));
      } else {
        assert Events(front) + [] == Events(front);
      }
    }
  }

  lemma NoEvents(names: map<string, string>)
    ensures AfterAll(names, []) == names
  {}

  // ----- What the events say -----

  /** The assignment at `i` is the job's latest, and neither a start nor a completion came after it. */
  predicate OpenAt(es: seq<JobEvent>, i: nat, j: string, displayName: string) {
    i < |es| && es[i] == Arrives(j, displayName) && forall k | i < k < |es| :: es[k].jobID != j
  }

  lemma {:induction false} PendingMeans(es: seq<JobEvent>, j: string, displayName: string)
    ensures j in AfterAll(map[], es) && AfterAll(map[], es)[j] == displayName <==>
            exists i :: OpenAt(es, i, j, displayName)
  {
    if es != [] {
      var front, last := es[..|es| - 1], es[|es| - 1];
      PendingMeans(front, j, displayName);
      if last.jobID == j {
        if last == Arrives(j, displayName) {
          assert OpenAt(es, |es| - 1, j, displayName);
        }
      } else {
        if i :| OpenAt(front, i, j, displayName) {
          assert OpenAt(es, i, j, displayName);
        }
        if i :| OpenAt(es, i, j, displayName) {
          assert OpenAt(front, i, j, displayName);
        }
      }
    }
  }

  /**
   Over any run from a fresh scaler, a job is pending with a display name exactly when that name is from its latest
   assignment and no start or completion followed.
   */
  lemma PendingIsHistory(c: Setup, s: State, polls: seq<Poll>, j: string, displayName: string)
    requires c.Valid() && (forall p | p in polls :: p.Valid()) && s.pending == map[]
    ensures var pending := Run(c, s, polls).state.pending;
            (j in pending && pending[j].displayName == displayName) <==>
            exists i :: OpenAt(Events(polls), i, j, displayName)
  {
    hide Run, AfterAll, Events, OpenAt;
    RunNames(c, s, polls);
    assert Names(s.pending) == map[];
    PendingMeans(Events(polls), j, displayName);
    var pending := Run(c, s, polls).state.pending;
    assert j in pending <==> j in Names(pending);
  }
}
