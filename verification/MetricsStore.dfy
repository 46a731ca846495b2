/** The table of completed job runs and its windowed, newest-first query. */
module MetricsStore {
  import opened Wrappers

  datatype MetricsRecord = MetricsRecord(
    jobName: string,
    profile: string,
    cpuAllocated: int,
    memAllocated: int,
    cpuUsed: int,
    memPeak: int
  )

  /** A row as stored: ids count up, the creation time is whatever the clock said. */
  datatype Row = Row(id: nat, createdAt: int, record: MetricsRecord)

  // ----- The meaning of the query -----

  function ForJob(rows: seq<Row>, job: string): seq<Row> {
    if rows == [] then []
    else
      var last := rows[|rows| - 1];
      ForJob(rows[..|rows| - 1], job) + (if last.record.jobName == job then [last] else [])
  }

  /** ORDER BY created_at DESC, id DESC */
  predicate Newer(a: Row, b: Row) {
    a.createdAt > b.createdAt || (a.createdAt == b.createdAt && a.id > b.id)
  }

  function InsertRow(x: Row, s: seq<Row>): seq<Row> {
    if s == [] || Newer(x, s[0]) then [x] + s else [s[0]] + InsertRow(x, s[1..])
  }

  function SortNewest(rows: seq<Row>): seq<Row> {
    if rows == [] then [] else InsertRow(rows[|rows| - 1], SortNewest(rows[..|rows| - 1]))
  }

  /** LIMIT; a negative limit is no limit. */
  function Limit<T>(s: seq<T>, limit: int): seq<T> {
    if 0 <= limit < |s| then s[..limit] else s
  }

  function QueryRows(rows: seq<Row>, job: string, limit: int): seq<Row> {
    Limit(SortNewest(ForJob(rows, job)), limit)
  }

  function Records(rows: seq<Row>): (r: seq<MetricsRecord>)
    ensures |r| == |rows|
  {
    seq(|rows|, i requires 0 <= i < |rows| => rows[i].record)
  }

  function History(rows: seq<Row>, job: string, limit: int): seq<MetricsRecord> {
    Records(QueryRows(rows, job, limit))
  }

  // ----- The table -----

  predicate Numbered(rows: seq<Row>) {
    forall i | 0 <= i < |rows| :: rows[i].id == i + 1
  }

  class Store {
    var rows: seq<Row>

    ghost predicate Valid()
      reads this
    {
      Numbered(rows)
    }

    constructor ()
      ensures Valid() && rows == []
    {
      rows := [];
    }

    /** Appends a row, stamped with the time at which the database stores it. */
    method Record(r: MetricsRecord, now: int, insertOk: bool) returns (ok: bool)
      requires Valid()
      modifies this
      ensures Valid() && ok == insertOk
      ensures rows == if insertOk then old(rows) + [Row(|old(rows)| + 1, now, r)] else old(rows)
    {
      if insertOk {
        rows := rows + [Row(|rows| + 1, now, r)];
      }
      ok := insertOk;
    }

    method GetHistory(job: string, limit: int, queryOk: bool) returns (records: Option<seq<MetricsRecord>>)
      ensures records == if queryOk then Some(History(rows, job, limit)) else None
    {
      if !queryOk {
        return None;
      }
      var found := QueryRows(rows, job, limit);
      var list: seq<MetricsRecord> := [];
      for i := 0 to |found|
        invariant list == Records(found)[..i]
      {
        list := list + [found[i].record];
      }
      assert list == Records(found);
      records := Some(list);
    }
  }

  // ----- The query answers with the last runs, newest first -----

  function Reverse<T>(s: seq<T>): (r: seq<T>)
    ensures |r| == |s| && forall i | 0 <= i < |s| :: r[i] == s[|s| - 1 - i]
  {
    if s == [] then [] else [s[|s| - 1]] + Reverse(s[..|s| - 1])
  }

  predicate Nondecreasing(rows: seq<Row>) {
    forall i, j | 0 <= i < j < |rows| :: rows[i].createdAt <= rows[j].createdAt
  }

  predicate IdsIncrease(rows: seq<Row>) {
    forall i, j | 0 <= i < j < |rows| :: rows[i].id < rows[j].id
  }

  lemma {:induction false} ForJobKeepsOrder(rows: seq<Row>, job: string)
    requires IdsIncrease(rows)
    ensures IdsIncrease(ForJob(rows, job))
    ensures forall r :: r in ForJob(rows, job) <==> r in rows && r.record.jobName == job
  {
    if rows != [] {
      var front, last := rows[..|rows| - 1], rows[|rows| - 1];
      assert rows == front + [last];
      ForJobKeepsOrder(front, job);
      assert forall r :: r in front ==> r.id < last.id;
      assert forall i | 0 <= i < |ForJob(front, job)| :: ForJob(front, job)[i] in front;
    }
  }

  lemma {:induction false} SortNewestSize(rows: seq<Row>)
    ensures |SortNewest(rows)| == |rows|
  {
    if rows != [] {
      SortNewestSize(rows[..|rows| - 1]);
      InsertRowSize(rows[|rows| - 1], SortNewest(rows[..|rows| - 1]));
    }
  }

  lemma InsertRowSize(x: Row, s: seq<Row>)
    ensures |InsertRow(x, s)| == |s| + 1
  {}

  predicate NewestFirst(s: seq<Row>) {
    forall i, j | 0 <= i < j < |s| :: !Newer(s[j], s[i])
  }

  lemma {:induction false} InsertRowOrders(x: Row, s: seq<Row>)
    requires NewestFirst(s)
    ensures NewestFirst(InsertRow(x, s))
    ensures forall r :: r in InsertRow(x, s) <==> r == x || r in s
  {
    if s == [] || Newer(x, s[0]) {
      assert forall r :: r in s ==> !Newer(r, s[0]);
    } else {
      InsertRowOrders(x, s[1..]);
      assert s == [s[0]] + s[1..];
      assert forall r :: r in s[1..] ==> !Newer(r, s[0]);
    }
  }

  lemma {:induction false} SortNewestOrders(rows: seq<Row>)
    ensures NewestFirst(SortNewest(rows))
  {
    if rows != [] {
      SortNewestOrders(rows[..|rows| - 1]);
      InsertRowOrders(rows[|rows| - 1], SortNewest(rows[..|rows| - 1]));
    }
  }

  lemma {:induction false} ChronologicalReverses(rows: seq<Row>)
    requires IdsIncrease(rows) && Nondecreasing(rows)
    ensures SortNewest(rows) == Reverse(rows)
  {
    if rows != [] {
      ChronologicalReverses(rows[..|rows| - 1]);
    }
  }

  /**
   For every window, the query returns the last rows of the job, newest first, exactly when the clock did not
   step back between two rows of that job. Rows of other jobs do not matter.
   */
  lemma WindowIsLastRuns(rows: seq<Row>, job: string)
    requires Numbered(rows)
    ensures Nondecreasing(ForJob(rows, job)) <==>
            forall w: nat :: QueryRows(rows, job, w) == Limit(Reverse(ForJob(rows, job)), w)
  {
    hide SortNewest, ForJob, Reverse;
    var mine := ForJob(rows, job);
    ForJobKeepsOrder(rows, job);
    if Nondecreasing(mine) {
      ChronologicalReverses(mine);
    }
    if forall w: nat :: QueryRows(rows, job, w) == Limit(Reverse(mine), w) {
      SortNewestSize(mine);
      assert QueryRows(rows, job, |mine|) == Limit(Reverse(mine), |mine|);
      SortNewestOrders(mine);
      ReversedNondecreasing(mine);
    }
  }

  /** By creation time, and by position in the table for equal times. */
  predicate Later(rows: seq<Row>, i: nat, j: nat)
    requires i < |rows| && j < |rows|
  {
    rows[i].createdAt > rows[j].createdAt || (rows[i].createdAt == rows[j].createdAt && i > j)
  }

  /**
   The query, row by row: distinct rows of the job, each later than the next, and later than every row of the job that
   is left out; rows are left out only when the limit is reached. A negative limit is none.
   */
  lemma HistoryExactly(rows: seq<Row>, job: string, limit: int) returns (at: seq<nat>)
    requires Numbered(rows)
    ensures |at| == |History(rows, job, limit)|
    ensures forall i | 0 <= i < |at| ::
              at[i] < |rows| && rows[at[i]].record.jobName == job && History(rows, job, limit)[i] == rows[at[i]].record
    ensures forall i, j | 0 <= i < j < |at| :: Later(rows, at[i], at[j])
    ensures 0 <= limit ==> |at| <= limit
    ensures forall k: nat | k < |rows| && rows[k].record.jobName == job && k !in at ::
              |at| == limit && forall i | 0 <= i < |at| :: Later(rows, at[i], k)
  {
    hide QueryRows, Newer;
    var found := QueryRows(rows, job, limit);
    QueryFinds(rows, job, limit);
    at := seq(|found|, i requires 0 <= i < |found| => RowPosition(rows, found[i]));
    forall i, j | 0 <= i < j < |at| ensures Later(rows, at[i], at[j]) {
      LaterIsNewer(rows, at[i], at[j]);
    }
    forall k: nat | k < |rows| && rows[k].record.jobName == job && k !in at
      ensures |at| == limit && forall i | 0 <= i < |at| :: Later(rows, at[i], k)
    {
      forall i | 0 <= i < |at| ensures found[i] != rows[k] && (Newer(found[i], rows[k]) ==> Later(rows, at[i], k)) {
        LaterIsNewer(rows, at[i], k);
        assert at[i] in at;
      }
    }
  }

  /** The position of a row of a numbered table. */
  function RowPosition(rows: seq<Row>, r: Row): (k: nat)
    requires Numbered(rows) && r in rows
    ensures k < |rows| && rows[k] == r
  {
    var k :| 0 <= k < |rows| && rows[k] == r;
    assert r.id == k + 1;
    r.id - 1
  }

  lemma LaterIsNewer(rows: seq<Row>, i: nat, j: nat)
    requires Numbered(rows) && i < |rows| && j < |rows|
    ensures Later(rows, i, j) <==> Newer(rows[i], rows[j])
    ensures rows[i] == rows[j] ==> i == j
  {}

  lemma QueryFinds(rows: seq<Row>, job: string, limit: int)
    requires Numbered(rows)
    ensures var found := QueryRows(rows, job, limit);
            && (0 <= limit ==> |found| <= limit)
            && (forall i | 0 <= i < |found| :: found[i] in rows && found[i].record.jobName == job)
            && (forall i, j | 0 <= i < j < |found| :: Newer(found[i], found[j]))
            && (forall r | r in rows && r.record.jobName == job && r !in found ::
                  |found| == limit && forall i | 0 <= i < |found| :: Newer(found[i], r))
  {
    hide SortNewest, ForJob, Newer;
    var all := SortNewest(ForJob(rows, job));
    var found := QueryRows(rows, job, limit);
    ForJobKeepsOrder(rows, job);
    SortNewestStrict(ForJob(rows, job));
    assert forall i | 0 <= i < |found| :: found[i] == all[i] && all[i] in all;
    forall r | r in rows && r.record.jobName == job && r !in found
      ensures |found| == limit && forall i | 0 <= i < |found| :: Newer(found[i], r)
    {
      var j :| 0 <= j < |all| && all[j] == r;
      assert |found| <= j;
    }
  }

  lemma {:induction false} SortNewestStrict(rows: seq<Row>)
    requires IdsIncrease(rows)
    ensures forall i, j | 0 <= i < j < |SortNewest(rows)| :: Newer(SortNewest(rows)[i], SortNewest(rows)[j])
    ensures forall r :: r in SortNewest(rows) <==> r in rows
  {
    if rows != [] {
      var front, last := rows[..|rows| - 1], rows[|rows| - 1];
      assert rows == front + [last];
      SortNewestStrict(front);
      assert forall r | r in front :: r.id < last.id;
      InsertRowStrict(last, SortNewest(front));
    }
  }

  lemma {:induction false} InsertRowStrict(x: Row, s: seq<Row>)
    requires forall i, j | 0 <= i < j < |s| :: Newer(s[i], s[j])
    requires forall r | r in s :: r.id != x.id
    ensures forall i, j | 0 <= i < j < |InsertRow(x, s)| :: Newer(InsertRow(x, s)[i], InsertRow(x, s)[j])
    ensures forall r :: r in InsertRow(x, s) <==> r == x || r in s
  {
    if s == [] {
    } else if Newer(x, s[0]) {
      assert forall r | r in s :: r == s[0] || Newer(s[0], r);
    } else {
      assert s == [s[0]] + s[1..];
      InsertRowStrict(x, s[1..]);
      assert s[0] in s;
      assert forall r | r in s[1..] :: Newer(s[0], r);
    }
  }

  lemma ReversedNondecreasing(rows: seq<Row>)
    requires NewestFirst(Reverse(rows))
    ensures Nondecreasing(rows)
  {
    var r := Reverse(rows);
    forall i, j | 0 <= i < j < |rows| ensures rows[i].createdAt <= rows[j].createdAt {
      assert !Newer(r[|rows| - 1 - i], r[|rows| - 1 - j]);
    }
  }

  lemma HistorySize(rows: seq<Row>, job: string, limit: int)
    requires 0 <= limit
    ensures |History(rows, job, limit)| == if |ForJob(rows, job)| < limit then |ForJob(rows, job)| else limit
  {
    SortNewestSize(ForJob(rows, job));
  }

  /** A new row, stamped no earlier than the rows of its job, leads its job's history and leaves the others alone. */
  lemma RecordLeadsHistory(rows: seq<Row>, row: Row, job: string, w: nat)
    requires Numbered(rows + [row]) && Nondecreasing(ForJob(rows + [row], job)) && 0 < w
    ensures History(rows + [row], job, w) ==
            if row.record.jobName == job then [row.record] + Limit(History(rows, job, w), w - 1)
            else History(rows, job, w)
  {
    hide SortNewest, ForJob, Reverse;
    ForJobAppend(rows, row, job);
    SortedAppend(rows, row, job);
    if row.record.jobName == job {
      var before, after := SortNewest(ForJob(rows, job)), SortNewest(ForJob(rows + [row], job));
      assert Limit(after, w) == [row] + Limit(before, w - 1);
      assert Records(Limit(after, w)) == [row.record] + Limit(Records(Limit(before, w)), w - 1);
    }
  }

  lemma ForJobAppend(rows: seq<Row>, row: Row, job: string)
    ensures ForJob(rows + [row], job) == ForJob(rows, job) + (if row.record.jobName == job then [row] else [])
  {
    assert (rows + [row])[..|rows|] == rows;
  }

  lemma SortedAppend(rows: seq<Row>, row: Row, job: string)
    requires Numbered(rows + [row]) && Nondecreasing(ForJob(rows + [row], job))
    ensures SortNewest(ForJob(rows + [row], job)) ==
            (if row.record.jobName == job then [row] else []) + SortNewest(ForJob(rows, job))
  {
    ForJobKeepsOrder(rows + [row], job);
    hide SortNewest, ForJob, Newer, Numbered, Nondecreasing, IdsIncrease;
    var mine := ForJob(rows, job);
    ForJobAppend(rows, row, job);
    if row.record.jobName == job {
      NewestLast(mine, row);
    } else {
      assert mine + [] == mine;
    }
  }

  lemma NewestLast(rows: seq<Row>, row: Row)
    requires IdsIncrease(rows + [row]) && Nondecreasing(rows + [row])
    ensures SortNewest(rows + [row]) == [row] + SortNewest(rows)
  {
    hide SortNewest;
    var more := rows + [row];
    assert forall i | 0 <= i < |rows| :: rows[i] == more[i];
    ChronologicalReverses(rows);
    ChronologicalReverses(more);
    assert more[..|rows|] == rows;
  }
}
