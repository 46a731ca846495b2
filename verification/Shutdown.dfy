/** The cleanup at shutdown, once the message loop has stopped. */
module Shutdown {
  import opened Strings
  import opened RunnerStore
  import opened Provisioning
  import opened ScalerModel
  import opened Conservation

  /** The container IDs of the tracked runners, in the order in which they are listed. */
  function TrackedIDs(runners: Contents, names: seq<string>): (ids: seq<ContainerID>)
    requires forall n | n in names :: n in runners
    ensures |ids| == |names|
  {
    seq(|names|, i requires 0 <= i < |names| => assert names[i] in names; runners[names[i]].containerID)
  }

  /** Some removal of this container succeeds. */
  predicate RemovalSucceeds(ids: seq<ContainerID>, answers: nat -> StopAnswer, id: ContainerID) {
    exists i: nat :: i < |ids| && ids[i] == id && answers(i).removeOk
  }

  /**
   The cleanup goes on whatever fails: stop is called on every listed container in order, a container is gone exactly
   when a removal of it succeeded, and an existing listed one for which none did is a leak.
   */
  lemma {:induction false} StopAllExactly(f: Fleet, ids: seq<ContainerID>, answers: nat -> StopAnswer)
    ensures var g := StopAll(f, ids, answers);
            && g.stopCalls == f.stopCalls + ids && g.created == f.created && g.nextId == f.nextId
            && (forall id :: id in g.containers <==> id in f.containers && !RemovalSucceeds(ids, answers, id))
            && (forall id | id in g.containers :: g.containers[id] == f.containers[id])
            && g.foreign == f.foreign && g.startLeaks == f.startLeaks && g.inspectLeaks == f.inspectLeaks
            && f.stopLeaks <= g.stopLeaks
            && (forall id | id in g.containers && id in ids :: id in g.stopLeaks)
  {
    if ids == [] {
      assert f.stopCalls + ids == f.stopCalls;
    } else {
      var n := |ids| - 1;
      var front, last := ids[..n], ids[n];
      StopAllExactly(f, front, answers);
      assert ids == front + [last] && f.stopCalls + ids == f.stopCalls + front + [last];
      forall id ensures RemovalSucceeds(ids, answers, id) <==>
                        RemovalSucceeds(front, answers, id) || (id == last && answers(n).removeOk)
      {
        if i: nat :| i < |front| && front[i] == id && answers(i).removeOk {
          assert ids[i] == id;
        }
        if id == last && answers(n).removeOk {
          assert ids[n] == id;
        }
        if i: nat :| i < |ids| && ids[i] == id && answers(i).removeOk {
          assert i < n ==> front[i] == id;
        }
      }
    }
  }

  /** Whatever fails, what is left is what was not tracked, and the tracked containers that could not be removed. */
  lemma CleanupExactly(s: State, names: seq<string>, answers: nat -> StopAnswer)
    requires Core(s) && Enumerates(names, s.Runners().Keys)
    ensures var ids := TrackedIDs(s.Runners(), names);
            forall id :: id in StopAll(s.fleet, ids, answers).containers <==>
                         id in s.fleet.containers && (!Tracks(s.Runners(), id) || !RemovalSucceeds(ids, answers, id))
  {
    hide Core, Tracks;
    var ids := TrackedIDs(s.Runners(), names);
    StopAllExactly(s.fleet, ids, answers);
    forall id | RemovalSucceeds(ids, answers, id) ensures Tracks(s.Runners(), id) {
      Listed(s.Runners(), names, id);
    }
  }

  /**
   When every removal succeeds, what is left in Docker after the cleanup is exactly what was there before the scaler
   and what earlier failures leaked.
   */
  lemma OnlyLeaksRemain(s: State, names: seq<string>, answers: nat -> StopAnswer)
    requires Core(s) && Enumerates(names, s.Runners().Keys)
    requires forall i: nat :: answers(i).removeOk
    ensures var g := StopAll(s.fleet, TrackedIDs(s.Runners(), names), answers);
            g.containers.Keys == s.fleet.foreign + s.fleet.startLeaks + s.fleet.inspectLeaks + s.fleet.stopLeaks
  {
    hide FleetOk, TrackedOk, StopsOk, ViewsOk;
    var ids := TrackedIDs(s.Runners(), names);
    var g := StopAll(s.fleet, ids, answers);
    CleanupExactly(s, names, answers);
    forall id: ContainerID
      ensures id in g.containers <==>
              id in s.fleet.foreign + s.fleet.startLeaks + s.fleet.inspectLeaks + s.fleet.stopLeaks
    {
      Listed(s.Runners(), names, id);
      if id in ids {
        var i :| 0 <= i < |ids| && ids[i] == id;
        assert RemovalSucceeds(ids, answers, id);
      }
      assert Places(s, id) == One(id in s.fleet.containers);
    }
  }

  lemma Listed(runners: Contents, names: seq<string>, id: ContainerID)
    requires Enumerates(names, runners.Keys)
    ensures id in TrackedIDs(runners, names) <==> Tracks(runners, id)
  {
    var ids := TrackedIDs(runners, names);
    if Tracks(runners, id) {
      var n :| Present(runners, n, id);
      assert n in names;
      var i :| 0 <= i < |names| && names[i] == n;
      assert ids[i] == id;
    }
    if id in ids {
      var i :| 0 <= i < |ids| && ids[i] == id;
      assert names[i] in names;
      assert Present(runners, names[i], id);
    }
  }
}
