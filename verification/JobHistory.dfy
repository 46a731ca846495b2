/** All runs of one job, newest first, and how they grow row by row. */
module JobHistory {
  import opened Decimal
  import opened Quantities
  import opened Configuration
  import opened MetricsStore
  import opened Adjustment
  import opened Feedback
  import opened ScalerModel

  /** All runs of a job, newest first. */
  function FullHistory(rows: seq<Row>, name: string): seq<MetricsRecord> {
    Records(SortNewest(ForJob(rows, name)))
  }

  /** What all runs of a job say about a resource, newest first. */
  function JobSamples(r: Resource, rows: seq<Row>, name: string): seq<Sample> {
    Samples(r, FullHistory(rows, name))
  }

  lemma HistoryIsWindow(rows: seq<Row>, name: string, w: int)
    ensures History(rows, name, w) == Limit(FullHistory(rows, name), w)
  {
    hide SortNewest, ForJob;
  }

  lemma RowLeads(rows: seq<Row>, row: Row, name: string)
    requires Numbered(rows + [row]) && Nondecreasing(ForJob(rows + [row], name))
    ensures FullHistory(rows + [row], name) ==
            (if row.record.jobName == name then [row.record] else []) + FullHistory(rows, name)
  {
    hide SortNewest, ForJob;
    SortedAppend(rows, row, name);
  }

  /** A row of the job adds its sample in front; any other row changes nothing. */
  lemma SampleLeads(r: Resource, rows: seq<Row>, row: Row, name: string)
    requires Numbered(rows + [row]) && Nondecreasing(ForJob(rows + [row], name))
    ensures JobSamples(r, rows + [row], name) ==
            (if row.record.jobName == name then [SampleOf(r, row.record)] else []) + JobSamples(r, rows, name)
  {
    hide FullHistory, ForJob;
    RowLeads(rows, row, name);
  }

  lemma ForJobConcat(rows: seq<Row>, more: seq<Row>, name: string)
    ensures ForJob(rows + more, name) == ForJob(rows, name) + ForJob(more, name)
  {
    if more == [] {
      assert rows + more == rows;
    } else {
      var front, last := more[..|more| - 1], more[|more| - 1];
      ForJobConcat(rows, front, name);
      assert rows + more == (rows + front) + [last];
      assert more == front + [last];
      ForJobAppend(rows + front, last, name);
      ForJobAppend(front, last, name);
    }
  }

  /** Of a table whose job's rows are in order, so are those of every earlier table. */
  lemma EarlierInOrder(rows: seq<Row>, n: nat, name: string)
    requires n <= |rows| && Numbered(rows) && Nondecreasing(ForJob(rows, name))
    ensures Numbered(rows[..n]) && Nondecreasing(ForJob(rows[..n], name))
  {
    assert rows == rows[..n] + rows[n..];
    ForJobConcat(rows[..n], rows[n..], name);
    var early, all := ForJob(rows[..n], name), ForJob(rows, name);
    assert forall i | 0 <= i < |early| :: early[i] == all[i];
  }

  /** The samples of an earlier table are those of the later one without the newest. */
  lemma {:induction false} EarlierSamples(r: Resource, rows: seq<Row>, n: nat, name: string)
    requires n <= |rows| && Numbered(rows) && Nondecreasing(ForJob(rows, name))
    ensures |ForJob(rows[n..], name)| <= |JobSamples(r, rows, name)|
    ensures JobSamples(r, rows, name)[|ForJob(rows[n..], name)|..] == JobSamples(r, rows[..n], name)
    decreases |rows|
  {
    hide JobSamples, ForJob, Nondecreasing, Numbered;
    if n == |rows| {
      NoRows(name);
      assert rows[..n] == rows && rows[n..] == [];
    } else {
      var front, last := rows[..|rows| - 1], rows[|rows| - 1];
      assert rows == front + [last] && front[..n] == rows[..n] && rows[n..] == front[n..] + [last];
      EarlierInOrder(rows, |rows| - 1, name);
      EarlierSamples(r, front, n, name);
      SampleLeads(r, front, last, name);
      ForJobAppend(front[n..], last, name);
    }
  }

  lemma NoRows(name: string)
    ensures ForJob([], name) == []
  {}

  /** `l` is the lane of a resource of the profile that jobs of this name are routed to. */
  ghost predicate IsLaneOf(c: Setup, name: string, l: Lane) {
    c.classifier.Classify(name) in c.Profiles()
    && l == LaneOf(l.resource, c.Scaling(), c.Profiles()[c.classifier.Classify(name)])
  }

  /** The allocation in the newest row of a job; the baseline when there is none. */
  function NewestAllocation(l: Lane, rows: seq<Row>, name: string): real {
    l.Newest(JobSamples(l.resource, rows, name))
  }

  function TextOf(r: Resource, e: Adjusted): string {
    match r
    case Cpu => e.cpus
    case Mem => e.memory
  }

  lemma EffectiveText(c: Setup, rows: seq<Row>, name: string, p: Profile, r: Resource)
    requires c.Valid() && c.settings.adaptive.enabled
    ensures c.Scaling().Valid()
    ensures TextOf(r, Effective(c, rows, name, p, true)) ==
            Chosen(r, c.Scaling(), p, History(rows, name, c.Scaling().historyWindow))
  {
    AdjusterValid(c);
    hide History, Chosen;
  }

  /** What the strings chosen from these rows stand for: the lane's grant. */
  lemma EffectiveIsGrant(c: Setup, rows: seq<Row>, name: string, l: Lane)
    requires c.Valid() && c.settings.adaptive.enabled && IsLaneOf(c, name, l)
    ensures l.a == c.Scaling() && l.a.Valid()
    ensures var e := Effective(c, rows, name, c.Profiles()[c.classifier.Classify(name)], true);
            Trunc(Parse(l.resource, TextOf(l.resource, e))) == l.Grant(JobSamples(l.resource, rows, name))
  {
    var p := c.Profiles()[c.classifier.Classify(name)];
    hide Effective, FullHistory, History, Chosen, Parse, Lane.Grant, Samples, Baseline, Ceiling, TextOf;
    EffectiveText(c, rows, name, p, l.resource);
    HistoryIsWindow(rows, name, c.Scaling().historyWindow);
    ChosenIsGrant(l.resource, c.Scaling(), p, FullHistory(rows, name));
  }
}
