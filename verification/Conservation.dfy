/**
 What every step keeps about containers and runners: each container is accounted for once, names and IDs identify,
 no container is stopped twice, and the observable lifecycle only advances.
 */
module Conservation {
  import opened RunnerStore
  import opened Provisioning
  import opened ScalerModel

  // ----- The invariant -----

  /** Existing containers are remembered, IDs are below the next one, and names identify existing containers. */
  ghost predicate FleetOk(f: Fleet) {
    && (forall id | id in f.containers :: id in f.created && f.created[id] == f.containers[id])
    && (forall id | id in f.created :: id < f.nextId)
    && (forall i, j | i in f.containers && j in f.containers && f.containers[i].name == f.containers[j].name :: i == j)
  }

  /** Every tracked runner is stored under its name, which is also the name of its existing container. */
  ghost predicate TrackedOk(s: State) {
    forall n | n in s.Runners() ::
      s.Runners()[n].name == n
      && s.Runners()[n].containerID in s.fleet.containers
      && s.fleet.containers[s.Runners()[n].containerID].name == n
  }

  ghost predicate Tracks(runners: Contents, id: ContainerID) {
    exists n :: Present(runners, n, id)
  }

  function One(b: bool): nat {
    if b then 1 else 0
  }

  /** In how many of the five places a container is accounted for. */
  ghost function Places(s: State, id: ContainerID): nat {
    One(Tracks(s.Runners(), id)) + One(id in s.fleet.foreign) + One(id in s.fleet.startLeaks)
    + One(id in s.fleet.inspectLeaks) + One(id in s.fleet.stopLeaks)
  }

  /**
   Each existing container is tracked, or was there before, or is in exactly one leak set; nothing else is in any
   of them.
   */
  ghost predicate Accounted(s: State) {
    forall id: ContainerID :: Places(s, id) == One(id in s.fleet.containers)
  }

  /** No container had its stop called twice, and none that is tracked had it called at all. */
  ghost predicate StopsOk(s: State) {
    && (forall i, j | 0 <= i < j < |s.fleet.stopCalls| :: s.fleet.stopCalls[i] != s.fleet.stopCalls[j])
    && (forall id | id in s.fleet.stopCalls :: id < s.fleet.nextId && !Tracks(s.Runners(), id))
  }

  ghost predicate ViewsOk(s: State) {
    var views := s.tracker.views;
    views != [] && views[|views| - 1] == s.Runners() && Lifecycle(views) && UsedBelow(views, s.fleet.nextId)
  }

  ghost predicate Core(s: State) {
    FleetOk(s.fleet) && TrackedOk(s) && Accounted(s) && StopsOk(s) && ViewsOk(s)
  }

  /** A completed runner is only seen while its completion is being handled. */
  ghost predicate NoneCompleted(s: State) {
    forall n | n in s.Runners() :: s.Runners()[n].status != Completed
  }

  // ----- A provisioning attempt -----

  /** The outcome is one that Docker allows for a runner of this name. */
  ghost predicate Allowed(f: Fleet, o: Outcome, name: string) {
    o.Refused? || (o.container.name == name && !NameTaken(f.containers, name))
  }

  lemma OutcomeAllowed(f: Fleet, name: string, cpus: string, memory: string, a: StartAnswer)
    ensures Allowed(f, StartOutcome(f, name, cpus, memory, a), name)
  {
    hide NameTaken, Limits;
  }

  /** A free container name is not tracked, so adding the runner overwrites no other. */
  lemma FreeNameUntracked(s: State, name: string)
    requires TrackedOk(s) && !NameTaken(s.fleet.containers, name)
    ensures name !in s.Runners()
  {}

  lemma FreshId(s: State)
    requires FleetOk(s.fleet) && TrackedOk(s)
    ensures s.fleet.nextId !in s.fleet.containers && s.fleet.nextId !in s.fleet.created
    ensures !Tracks(s.Runners(), s.fleet.nextId)
  {
    assert forall n | n in s.Runners() :: s.Runners()[n].containerID in s.fleet.created;
  }

  lemma LaunchFleet(s: State, o: Outcome, r: Runner)
    requires FleetOk(s.fleet) && Allowed(s.fleet, o, r.name)
    ensures FleetOk(Launch(s, o, r).fleet)
  {
    assert s.fleet.nextId !in s.fleet.containers;
  }

  lemma LaunchTracked(s: State, o: Outcome, r: Runner)
    requires FleetOk(s.fleet) && TrackedOk(s) && Allowed(s.fleet, o, r.name)
    ensures TrackedOk(Launch(s, o, r))
  {
    FreshId(s);
  }

  /** Who is tracked after an attempt. */
  lemma LaunchTracks(s: State, o: Outcome, r: Runner, id: ContainerID)
    requires FleetOk(s.fleet) && TrackedOk(s) && Allowed(s.fleet, o, r.name)
    ensures Tracks(Launch(s, o, r).Runners(), id) <==> Tracks(s.Runners(), id) || (o.Running? && id == s.fleet.nextId)
  {
    var t := Launch(s, o, r);
    if o.Running? {
      FreeNameUntracked(s, r.name);
      assert Present(t.Runners(), r.name, s.fleet.nextId);
      if Tracks(s.Runners(), id) {
        var n :| Present(s.Runners(), n, id);
        assert Present(t.Runners(), n, id);
      }
      if Tracks(t.Runners(), id) {
        var n :| Present(t.Runners(), n, id);
        assert n == r.name || Present(s.Runners(), n, id);
      }
    }
  }

  lemma LaunchAccounted(s: State, o: Outcome, r: Runner)
    requires FleetOk(s.fleet) && TrackedOk(s) && Accounted(s) && Allowed(s.fleet, o, r.name)
    ensures Accounted(Launch(s, o, r))
  {
    hide Tracks, FleetOk, TrackedOk, Allowed;
    var t := Launch(s, o, r);
    var newId := s.fleet.nextId;
    FreshId(s);
    forall id: ContainerID ensures Places(t, id) == One(id in t.fleet.containers) {
      LaunchTracks(s, o, r, id);
      assert Places(s, id) == One(id in s.fleet.containers);
      assert Places(s, newId) == 0;
    }
  }

  lemma LaunchStops(s: State, o: Outcome, r: Runner)
    requires FleetOk(s.fleet) && TrackedOk(s) && StopsOk(s) && Allowed(s.fleet, o, r.name)
    ensures StopsOk(Launch(s, o, r))
  {
    hide Tracks, FleetOk, TrackedOk, Allowed;
    forall id | id in s.fleet.stopCalls ensures !Tracks(Launch(s, o, r).Runners(), id) {
      LaunchTracks(s, o, r, id);
    }
  }

  lemma UsedBelowMore(views: seq<Contents>, view: Contents, bound: nat, more: nat)
    requires UsedBelow(views, bound) && bound <= more && forall n | n in view :: view[n].containerID < more
    ensures UsedBelow(views + [view], more)
  {}

  lemma LaunchViews(s: State, o: Outcome, r: Runner)
    requires FleetOk(s.fleet) && TrackedOk(s) && ViewsOk(s) && Allowed(s.fleet, o, r.name)
    ensures ViewsOk(Launch(s, o, r))
  {
    hide Lifecycle, Advances, UsedBelow, NameTaken;
    var t := Launch(s, o, r);
    if o.Running? {
      FreeNameUntracked(s, r.name);
      FreshId(s);
      LaunchAdvances(s, o, r);
      LifecycleContinues(s.tracker.views, t.Runners(), s.fleet.nextId);
      UsedBelowMore(s.tracker.views, t.Runners(), s.fleet.nextId, t.fleet.nextId);
    } else {
      UsedBelowLater(s.tracker.views, s.fleet.nextId, t.fleet.nextId);
    }
  }

  lemma UsedBelowLater(views: seq<Contents>, bound: nat, more: nat)
    requires UsedBelow(views, bound) && bound <= more
    ensures UsedBelow(views, more)
  {}

  lemma LaunchAdvances(s: State, o: Outcome, r: Runner)
    requires FleetOk(s.fleet) && TrackedOk(s) && Allowed(s.fleet, o, r.name) && o.Running?
    ensures Advances(s.Runners(), Launch(s, o, r).Runners(), s.fleet.nextId)
    ensures forall n | n in Launch(s, o, r).Runners() ::
              Launch(s, o, r).Runners()[n].containerID <= s.fleet.nextId
  {
    FreeNameUntracked(s, r.name);
    FreshId(s);
    TrackedDistinct(s);
  }

  lemma TrackedDistinct(s: State)
    requires TrackedOk(s)
    ensures forall n, m | n in s.Runners() && m in s.Runners()
                          && s.Runners()[n].containerID == s.Runners()[m].containerID :: n == m
  {}

  lemma LaunchKeeps(s: State, o: Outcome, r: Runner)
    requires Core(s) && NoneCompleted(s) && Allowed(s.fleet, o, r.name) && r.status == Idle
    ensures Core(Launch(s, o, r)) && NoneCompleted(Launch(s, o, r))
  {
    LaunchNoneCompleted(s, o, r);
    hide FleetOk, TrackedOk, Accounted, StopsOk, ViewsOk, NoneCompleted, Allowed;
    LaunchFleet(s, o, r);
    LaunchTracked(s, o, r);
    LaunchAccounted(s, o, r);
    LaunchStops(s, o, r);
    LaunchViews(s, o, r);
  }

  lemma LaunchNoneCompleted(s: State, o: Outcome, r: Runner)
    requires NoneCompleted(s)
    ensures NoneCompleted(Launch(s, o, r))
  {
    var t := Launch(s, o, r);
    forall n | n in t.Runners() ensures t.Runners()[n].status != Completed {
      if n in s.Runners() {
        assert s.Runners()[n].status != Completed;
      }
    }
  }

  // ----- Status changes -----

  function Marked(s: State, name: string, status: Status): State {
    s.(tracker := SetStatus(s.tracker, name, status))
  }

  lemma MarkedKeeps(s: State, name: string, status: Status)
    requires Core(s) && (name in s.Runners() ==> Rank(s.Runners()[name].status) <= Rank(status))
    ensures Core(Marked(s, name, status))
  {
    if name in s.Runners() {
      hide FleetOk, Accounted, StopsOk, ViewsOk, TrackedOk;
      MarkedTrackedOk(s, name, status);
      MarkedAccounted(s, name, status);
      MarkedViews(s, name, status);
    }
  }

  lemma MarkedTrackedOk(s: State, name: string, status: Status)
    requires TrackedOk(s)
    ensures TrackedOk(Marked(s, name, status))
  {
    var t := Marked(s, name, status);
    forall n | n in t.Runners() ensures
        t.Runners()[n].name == n && t.Runners()[n].containerID in s.fleet.containers
        && s.fleet.containers[t.Runners()[n].containerID].name == n
    {
      assert n in s.Runners();
    }
  }

  lemma MarkedAccounted(s: State, name: string, status: Status)
    requires Accounted(s) && StopsOk(s)
    ensures Accounted(Marked(s, name, status)) && StopsOk(Marked(s, name, status))
  {
    hide Tracks;
    MarkedTracks(s, name, status);
    var t := Marked(s, name, status);
    forall id: ContainerID ensures Places(t, id) == One(id in t.fleet.containers) {
      assert Places(s, id) == One(id in s.fleet.containers);
    }
  }

  lemma MarkedTracks(s: State, name: string, status: Status)
    ensures forall id :: Tracks(Marked(s, name, status).Runners(), id) <==> Tracks(s.Runners(), id)
  {
    var t := Marked(s, name, status);
    forall id ensures Tracks(t.Runners(), id) <==> Tracks(s.Runners(), id) {
      if Tracks(s.Runners(), id) {
        var n :| Present(s.Runners(), n, id);
        assert Present(t.Runners(), n, id);
      }
      if Tracks(t.Runners(), id) {
        var n :| Present(t.Runners(), n, id);
        assert Present(s.Runners(), n, id);
      }
    }
  }

  lemma MarkedViews(s: State, name: string, status: Status)
    requires ViewsOk(s) && TrackedOk(s)
    requires name in s.Runners() && Rank(s.Runners()[name].status) <= Rank(status)
    ensures ViewsOk(Marked(s, name, status))
  {
    MarkedAdvances(s, name, status);
    hide Lifecycle, Advances, TrackedOk;
    var t := Marked(s, name, status);
    LifecycleContinues(s.tracker.views, t.Runners(), s.fleet.nextId);
    UsedBelowMore(s.tracker.views, t.Runners(), s.fleet.nextId, s.fleet.nextId);
  }

  lemma MarkedAdvances(s: State, name: string, status: Status)
    requires TrackedOk(s) && name in s.Runners() && Rank(s.Runners()[name].status) <= Rank(status)
    ensures Advances(s.Runners(), Marked(s, name, status).Runners(), s.fleet.nextId)
  {
    TrackedDistinct(s);
  }

  // ----- Retiring a runner -----

  lemma RetireTracks(s: State, name: string, id: ContainerID, a: StopAnswer, other: ContainerID)
    requires TrackedOk(s) && Present(s.Runners(), name, id)
    ensures Tracks(Retire(s, name, id, a).Runners(), other) <==> Tracks(s.Runners(), other) && other != id
  {
    var t := Retire(s, name, id, a);
    TrackedDistinct(s);
    if Tracks(s.Runners(), other) && other != id {
      var n :| Present(s.Runners(), n, other);
      assert Present(t.Runners(), n, other);
    }
    if Tracks(t.Runners(), other) {
      var n :| Present(t.Runners(), n, other);
      assert Present(s.Runners(), n, other);
    }
  }

  lemma RetireAccounted(s: State, name: string, id: ContainerID, a: StopAnswer)
    requires TrackedOk(s) && Accounted(s) && Present(s.Runners(), name, id)
    ensures Accounted(Retire(s, name, id, a))
  {
    var t := Retire(s, name, id, a);
    assert id in s.fleet.containers && Tracks(s.Runners(), id);
    hide Tracks, TrackedOk;
    forall i: ContainerID ensures Places(t, i) == One(i in t.fleet.containers) {
      RetireTracks(s, name, id, a, i);
      assert Places(s, i) == One(i in s.fleet.containers);
      assert Places(s, id) == 1;
    }
  }

  lemma RetireStops(s: State, name: string, id: ContainerID, a: StopAnswer)
    requires FleetOk(s.fleet) && TrackedOk(s) && StopsOk(s) && Present(s.Runners(), name, id)
    ensures StopsOk(Retire(s, name, id, a))
  {
    var t := Retire(s, name, id, a);
    assert Tracks(s.Runners(), id) && id < s.fleet.nextId;
    hide Tracks, TrackedOk, FleetOk;
    forall i | i in t.fleet.stopCalls ensures i < t.fleet.nextId && !Tracks(t.Runners(), i) {
      RetireTracks(s, name, id, a, i);
    }
  }

  lemma RetireFleet(s: State, name: string, id: ContainerID, a: StopAnswer)
    requires FleetOk(s.fleet) && TrackedOk(s) && Present(s.Runners(), name, id)
    ensures FleetOk(Retire(s, name, id, a).fleet) && TrackedOk(Retire(s, name, id, a))
  {
    TrackedDistinct(s);
  }

  lemma RetireViews(s: State, name: string, id: ContainerID, a: StopAnswer)
    requires TrackedOk(s) && ViewsOk(s)
    ensures ViewsOk(Retire(s, name, id, a))
  {
    var t := Retire(s, name, id, a);
    TrackedDistinct(s);
    assert Advances(s.Runners(), t.Runners(), s.fleet.nextId);
    hide Lifecycle, Advances, TrackedOk;
    LifecycleContinues(s.tracker.views, t.Runners(), s.fleet.nextId);
    UsedBelowMore(s.tracker.views, t.Runners(), s.fleet.nextId, s.fleet.nextId);
  }

  lemma RetireKeeps(s: State, name: string, id: ContainerID, a: StopAnswer)
    requires Core(s) && Present(s.Runners(), name, id)
    ensures Core(Retire(s, name, id, a))
  {
    hide FleetOk, TrackedOk, Accounted, StopsOk, ViewsOk, Present;
    RetireFleet(s, name, id, a);
    RetireAccounted(s, name, id, a);
    RetireStops(s, name, id, a);
    RetireViews(s, name, id, a);
  }

  // ----- Whole runs -----

  /** The part of a state that the invariant speaks of. */
  predicate SameWorld(s: State, t: State) {
    s.tracker == t.tracker && s.fleet == t.fleet
  }

  lemma SameWorldKeeps(s: State, t: State)
    requires SameWorld(s, t) && Core(s)
    ensures Core(t)
  {
    assert forall id :: Places(t, id) == Places(s, id);
  }

  ghost predicate Sound(s: State) {
    Core(s) && NoneCompleted(s)
  }

  lemma SoundSame(s: State, t: State)
    requires Sound(s) && SameWorld(s, t)
    ensures Sound(t)
  {
    hide Core;
    assert t.Runners() == s.Runners();
    SameWorldKeeps(s, t);
  }
}
