/**
 The store of tracked runners. Each method is one critical section; `views` keeps every content the store has
 had between critical sections, which is what a concurrent reader such as the proxy can see.
 */
module RunnerStore {
  import opened Strings

  type ContainerID = nat

  datatype Status = Idle | Busy | Completed

  /** The value of a record. */
  datatype Runner = Runner(
    name: string,
    containerID: ContainerID,
    containerIP: string,
    profile: string,
    jobID: string,
    jobName: string,
    cpus: string,
    memory: string,
    status: Status
  )

  // ----- The store as a value -----

  type Contents = map<string, Runner>

  datatype Tracker = Tracker(runners: Contents, views: seq<Contents>)

  function Put(t: Tracker, runners: Contents): Tracker {
    Tracker(runners, t.views + [runners])
  }

  function Add(t: Tracker, r: Runner): Tracker {
    Put(t, t.runners[r.name := r.(status := Idle)])
  }

  function SetStatus(t: Tracker, name: string, status: Status): Tracker {
    if name in t.runners then Put(t, t.runners[name := t.runners[name].(status := status)]) else t
  }

  function Drop(t: Tracker, name: string): Tracker {
    Put(t, t.runners - {name})
  }

  predicate Active(r: Runner) {
    r.status != Completed
  }

  function ActiveNames(runners: Contents): set<string> {
    set n | n in runners && Active(runners[n])
  }

  // ----- The store as the program has it: heap records, updated in place -----

  class RunnerInfo {
    var runnerName: string
    var containerID: ContainerID
    var containerIP: string
    var profile: string
    var jobID: string
    var jobName: string
    var allocatedCPUs: string
    var allocatedMemory: string
    var status: Status

    constructor (r: Runner)
      ensures Value() == r
    {
      runnerName := r.name;
      containerID := r.containerID;
      containerIP := r.containerIP;
      profile := r.profile;
      jobID := r.jobID;
      jobName := r.jobName;
      allocatedCPUs := r.cpus;
      allocatedMemory := r.memory;
      status := r.status;
    }

    function Value(): Runner
      reads this
    {
      Runner(runnerName, containerID, containerIP, profile, jobID, jobName, allocatedCPUs, allocatedMemory, status)
    }

    method Copy() returns (c: RunnerInfo)
      ensures fresh(c) && c.Value() == Value()
    {
      c := new RunnerInfo(Value());
    }
  }

  class Store {
    var runners: map<string, RunnerInfo>
    ghost var views: seq<Contents>

    /** Records sit under their own name, so no two names share a record. */
    ghost predicate Valid()
      reads this, runners.Values
    {
      && (forall n | n in runners :: runners[n].runnerName == n)
      && views != [] && views[|views| - 1] == Runners()
    }

    ghost function Runners(): Contents
      reads this`runners, runners.Values
    {
      map n | n in runners :: runners[n].Value()
    }

    ghost function Model(): Tracker
      reads this, runners.Values
    {
      Tracker(Runners(), views)
    }

    constructor ()
      ensures Valid() && Model() == Tracker(map[], [map[]]) && runners == map[]
    {
      runners := map[];
      views := [map[]];
    }

    /** Stores the caller's record itself and marks it idle. */
    method AddRunner(info: RunnerInfo)
      requires Valid() && forall n | n in runners :: runners[n] != info
      modifies this, info
      ensures Valid() && Model() == Add(old(Model()), old(info.Value()))
      ensures runners == old(runners)[old(info.runnerName) := info] && info.status == Idle
      ensures Runners() == old(Runners())[old(info.runnerName) := old(info.Value()).(status := Idle)]
    {
      ghost var was, r := Runners(), info.Value();
      info.status := Idle;
      assert info.Value() == r.(status := Idle);
      assert forall n | n in runners :: runners[n].Value() == was[n];
      runners := runners[info.runnerName := info];
      assert forall n | n in runners :: runners[n].runnerName == n;
      ghost var now := was[r.name := r.(status := Idle)];
      views := views + [now];
      assert Runners() == now;
    }

    method MarkBusy(name: string)
      requires Valid()
      modifies this, runners.Values
      ensures Valid() && Model() == SetStatus(old(Model()), name, Busy)
      ensures runners == old(runners)
      ensures Runners() == if name in old(runners) then old(Runners())[name := old(Runners())[name].(status := Busy)]
                           else old(Runners())
    {
      if name in runners {
        ghost var was := Runners();
        runners[name].status := Busy;
        assert Runners() == was[name := was[name].(status := Busy)];
        views := views + [Runners()];
      }
    }

    method MarkCompleted(name: string)
      requires Valid()
      modifies this, runners.Values
      ensures Valid() && Model() == SetStatus(old(Model()), name, Completed)
      ensures runners == old(runners)
      ensures Runners() == if name in old(runners)
                           then old(Runners())[name := old(Runners())[name].(status := Completed)] else old(Runners())
    {
      if name in runners {
        ghost var was := Runners();
        runners[name].status := Completed;
        assert Runners() == was[name := was[name].(status := Completed)];
        views := views + [Runners()];
      }
    }

    method Remove(name: string)
      requires Valid()
      modifies this
      ensures Valid() && Model() == Drop(old(Model()), name)
      ensures runners == old(runners) - {name} && Runners() == old(Runners()) - {name}
    {
      ghost var was := Runners();
      runners := runners - {name};
      assert Runners() == was - {name};
      views := views + [Runners()];
    }

    /** A private copy of the record, or null. */
    method GetByName(name: string) returns (r: RunnerInfo?)
      requires Valid()
      ensures r == null <==> name !in Runners()
      ensures r != null ==> fresh(r) && r.Value() == Runners()[name]
    {
      if name in runners {
        r := runners[name].Copy();
      } else {
        r := null;
      }
    }

    /** A private copy of some record with that address: the lookup of the proxy. */
    method GetByContainerIP(ip: string) returns (r: RunnerInfo?)
      requires Valid()
      ensures r == null <==> forall n | n in Runners() :: Runners()[n].containerIP != ip
      ensures r != null ==> fresh(r) && r.containerIP == ip
                            && r.runnerName in Runners() && Runners()[r.runnerName] == r.Value()
    {
      var left := runners.Keys;
      while left != {}
        invariant left <= runners.Keys
        invariant forall n | n in runners && n !in left :: runners[n].containerIP != ip
      {
        var name :| name in left;
        if runners[name].containerIP == ip {
          r := runners[name].Copy();
          assert name in Runners() && Runners()[name].containerIP == ip;
          return;
        }
        left := left - {name};
      }
      r := null;
    }

    method GetByJobID(jobID: string) returns (r: RunnerInfo?)
      requires Valid()
      ensures r == null <==> forall n | n in Runners() :: Runners()[n].jobID != jobID
      ensures r != null ==> fresh(r) && r.jobID == jobID
                            && r.runnerName in Runners() && Runners()[r.runnerName] == r.Value()
    {
      var left := runners.Keys;
      while left != {}
        invariant left <= runners.Keys
        invariant forall n | n in runners && n !in left :: runners[n].jobID != jobID
      {
        var name :| name in left;
        if runners[name].jobID == jobID {
          r := runners[name].Copy();
          assert name in Runners() && Runners()[name].jobID == jobID;
          return;
        }
        left := left - {name};
      }
      r := null;
    }

    /** Private copies of all records, in some order. */
    method All() returns (copies: seq<RunnerInfo>, ghost names: seq<string>)
      requires Valid()
      ensures |copies| == |names| && Enumerates(names, Runners().Keys)
      ensures forall i | 0 <= i < |copies| ::
                fresh(copies[i]) && names[i] in Runners() && copies[i].Value() == Runners()[names[i]]
    {
      copies, names := [], [];
      var left := runners.Keys;
      while left != {}
        invariant left <= runners.Keys
        invariant |copies| == |names| && Enumerates(names, runners.Keys - left)
        invariant forall i | 0 <= i < |copies| ::
                    fresh(copies[i]) && names[i] in runners && copies[i].Value() == runners[names[i]].Value()
      {
        var name :| name in left;
        var c := runners[name].Copy();
        EnumeratesMore(names, runners.Keys - left, name);
        assert runners.Keys - (left - {name}) == runners.Keys - left + {name};
        copies, names := copies + [c], names + [name];
        left := left - {name};
      }
      assert runners.Keys - left == Runners().Keys;
    }

    method Count() returns (n: nat)
      requires Valid()
      ensures n == |Runners()|
    {
      assert Runners().Keys == runners.Keys;
      n := |runners|;
    }

    method ActiveCount() returns (n: nat)
      requires Valid()
      ensures n == |ActiveNames(Runners())| == |set m | m in Runners() && Runners()[m].status != Completed|
    {
      hide Counted;
      assert ActiveNames(Runners()) == set m | m in Runners() && Runners()[m].status != Completed;
      n := 0;
      ghost var all := Runners();
      var left := runners.Keys;
      CountedEnds(all);
      while left != {}
        invariant left <= all.Keys && runners.Keys == all.Keys
        invariant n == Counted(all, left)
      {
        var name :| name in left;
        CountedNext(all, left, name);
        if runners[name].status == Idle || runners[name].status == Busy {
          n := n + 1;
        }
        left := left - {name};
      }
    }
  }

  /** How many runners outside `left` are active. */
  ghost function Counted(all: Contents, left: set<string>): nat {
    |ActiveNames(all) - left|
  }

  lemma CountedEnds(all: Contents)
    ensures Counted(all, all.Keys) == 0 && Counted(all, {}) == |ActiveNames(all)|
  {
    assert ActiveNames(all) - all.Keys == {};
    assert ActiveNames(all) - {} == ActiveNames(all);
  }

  lemma CountedNext(all: Contents, left: set<string>, name: string)
    requires name in left && left <= all.Keys
    ensures Counted(all, left - {name}) == Counted(all, left) + (if Active(all[name]) then 1 else 0)
  {
    if Active(all[name]) {
      assert ActiveNames(all) - (left - {name}) == (ActiveNames(all) - left) + {name};
    } else {
      assert ActiveNames(all) - (left - {name}) == ActiveNames(all) - left;
    }
  }

  /** A caller's change to a record it holds. */
  method Overwrite(c: RunnerInfo, r: Runner)
    modifies c
    ensures c.Value() == r
  {
    c.runnerName, c.containerID, c.containerIP := r.name, r.containerID, r.containerIP;
    c.profile, c.jobID, c.jobName := r.profile, r.jobID, r.jobName;
    c.allocatedCPUs, c.allocatedMemory, c.status := r.cpus, r.memory, r.status;
  }

  /** Whatever a caller does to the copy it got, the store keeps its contents. */
  method MutateCopy(store: Store, name: string, r: Runner)
    requires store.Valid()
    ensures store.Valid() && store.Model() == old(store.Model())
  {
    var c := store.GetByName(name);
    if c != null {
      Overwrite(c, r);
    }
    assert store.Runners() == old(store.Runners());
  }

  // ----- Lifecycle over all views -----

  function Rank(s: Status): nat {
    match s
    case Idle => 0
    case Busy => 1
    case Completed => 2
  }

  predicate Present(view: Contents, name: string, id: ContainerID) {
    name in view && view[name].containerID == id
  }

  /** A container is seen under one name only, its status only advances, and once gone it never returns. */
  ghost predicate Lifecycle(views: seq<Contents>) {
    && (forall i, j, n, m, id | 0 <= i < |views| && 0 <= j < |views|
                                && Present(views[i], n, id) && Present(views[j], m, id)
          :: n == m)
    && (forall i, j, n, id | 0 <= i <= j < |views| && Present(views[i], n, id) && Present(views[j], n, id)
          :: Rank(views[i][n].status) <= Rank(views[j][n].status))
    && (forall i, j, k, n, id | 0 <= i < j < k < |views| && Present(views[i], n, id) && Present(views[k], n, id)
          :: Present(views[j], n, id))
  }

  ghost predicate UsedBelow(views: seq<Contents>, bound: nat) {
    forall i, n | 0 <= i < |views| && n in views[i] :: views[i][n].containerID < bound
  }

  /** `view` keeps, advances or drops what `last` shows, and may add containers numbered from `bound`. */
  ghost predicate Advances(last: Contents, view: Contents, bound: nat) {
    && (forall n | n in view && !Present(last, n, view[n].containerID) :: bound <= view[n].containerID)
    && (forall n | n in view && Present(last, n, view[n].containerID) :: Rank(last[n].status) <= Rank(view[n].status))
    && (forall n, m | n in view && m in view && view[n].containerID == view[m].containerID :: n == m)
  }

  lemma LifecycleContinues(views: seq<Contents>, view: Contents, bound: nat)
    requires views != [] && Lifecycle(views) && UsedBelow(views, bound)
    requires Advances(views[|views| - 1], view, bound)
    ensures Lifecycle(views + [view])
  {
    var last := |views| - 1;
    var more := views + [view];
    assert forall i | 0 <= i < |views| :: more[i] == views[i];
    forall i, n, m, id | 0 <= i < |views| && Present(views[i], n, id) && Present(view, m, id)
      ensures n == m && Present(views[last], n, id) && Rank(views[i][n].status) <= Rank(view[n].status)
    {
      assert views[i][n].containerID < bound;
      assert Present(views[last], m, id);
    }
    forall i, j, n, m, id | 0 <= i < |more| && 0 <= j < |more| && Present(more[i], n, id) && Present(more[j], m, id)
      ensures n == m
    {}
    forall i, j, n, id | 0 <= i <= j < |more| && Present(more[i], n, id) && Present(more[j], n, id)
      ensures Rank(more[i][n].status) <= Rank(more[j][n].status)
    {}
    forall i, j, k, n, id | 0 <= i < j < k < |more| && Present(more[i], n, id) && Present(more[k], n, id)
      ensures Present(more[j], n, id)
    {
      if k == |views| && j != last {
        assert Present(views[last], n, id);
      }
    }
  }
}
