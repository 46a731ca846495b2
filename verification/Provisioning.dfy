/**
 The containers that exist in Docker, and the provisioner that starts and stops them. Docker may fail any call;
 names are unique among existing containers, IDs are never used again, and containers do not go away by themselves.
 */
module Provisioning {
  import opened Wrappers
  import opened Quantities
  import opened RunnerStore

  datatype Container = Container(name: string, nanoCPUs: int, memory: int)

  /** Docker's answers while a runner is started. */
  datatype StartAnswer = StartAnswer(createOk: bool, startOk: bool, removeOk: bool, inspectOk: bool, ip: string)

  datatype StopAnswer = StopAnswer(stopOk: bool, removeOk: bool)

  datatype Started = Started(id: ContainerID, ip: string)

  // ----- Docker and the provisioner's ledger as a value -----

  /**
   `containers` is what exists. `created` remembers every container ever created, `stopCalls` every container on
   which a stop was called, and the leak sets the containers that a failed call left behind.
   */
  datatype Fleet = Fleet(
    containers: map<ContainerID, Container>,
    nextId: ContainerID,
    created: map<ContainerID, Container>,
    stopCalls: seq<ContainerID>,
    foreign: set<ContainerID>,
    startLeaks: set<ContainerID>,
    inspectLeaks: set<ContainerID>,
    stopLeaks: set<ContainerID>
  )

  predicate NameTaken(containers: map<ContainerID, Container>, name: string) {
    exists id | id in containers :: containers[id].name == name
  }

  function Create(f: Fleet, c: Container): Fleet {
    f.(containers := f.containers[f.nextId := c], created := f.created[f.nextId := c], nextId := f.nextId + 1)
  }

  /** The limits a pair of quantity strings stands for, if the runner accepts both. */
  function Limits(cpus: string, memory: string): Option<(int, int)> {
    match ParseCPUs(cpus)
    case Err => None
    case Ok(nano) =>
      match ParseMemory(memory)
      case Err => None
      case Ok(bytes) => Some((nano, bytes))
  }

  /** What comes of an attempt to start a runner: which container was created, and what became of it. */
  datatype Outcome =
    | Refused
    | Discarded(container: Container)
    | NeverStarted(container: Container)
    | Uninspected(container: Container)
    | Running(container: Container, ip: string)

  function StartOutcome(f: Fleet, name: string, cpus: string, memory: string, a: StartAnswer): Outcome {
    match Limits(cpus, memory)
    case None => Refused
    case Some((nano, bytes)) =>
      var c := Container(name, nano, bytes);
      if !a.createOk || NameTaken(f.containers, name) then Refused
      else if !a.startOk then (if a.removeOk then Discarded(c) else NeverStarted(c))
      else if !a.inspectOk then Uninspected(c)
      else Running(c, a.ip)
  }

  function AfterStart(f: Fleet, o: Outcome): (g: Fleet)
    ensures g.foreign == f.foreign
  {
    match o
    case Refused => f
    case Discarded(c) => var g := Create(f, c); g.(containers := g.containers - {f.nextId})
    case NeverStarted(c) => var g := Create(f, c); g.(startLeaks := g.startLeaks + {f.nextId})
    case Uninspected(c) => var g := Create(f, c); g.(inspectLeaks := g.inspectLeaks + {f.nextId})
    case Running(c, _) => Create(f, c)
  }

  /**
   A runner is up exactly when both strings are accepted, the name is free and no call fails. An attempt leaves a
   container behind without a runner exactly when it was created and then either failed to start and to be removed,
   or could not be inspected.
   */
  lemma StartLeavesBehind(f: Fleet, name: string, cpus: string, memory: string, a: StartAnswer)
    requires f.nextId !in f.containers
    ensures var o := StartOutcome(f, name, cpus, memory, a);
            var g := AfterStart(f, o);
            var created := Limits(cpus, memory).Some? && a.createOk && !NameTaken(f.containers, name);
            && (o.Running? <==> created && a.startOk && a.inspectOk)
            && (f.nextId in g.containers && !o.Running? <==>
                created && (if a.startOk then !a.inspectOk else !a.removeOk))
            && (forall id | id != f.nextId ::
                  (id in g.containers <==> id in f.containers)
                  && (id in f.containers ==> g.containers[id] == f.containers[id]))
            && (f.nextId in g.containers ==>
                  g.containers[f.nextId].name == name
                  && Limits(cpus, memory) == Some((g.containers[f.nextId].nanoCPUs, g.containers[f.nextId].memory)))
    ensures var o := StartOutcome(f, name, cpus, memory, a);
            var g := AfterStart(f, o);
            var created := Limits(cpus, memory).Some? && a.createOk && !NameTaken(f.containers, name);
            && g.nextId == f.nextId + (if created then 1 else 0) && g.stopCalls == f.stopCalls
            && g.stopLeaks == f.stopLeaks && (o.Running? ==> o.ip == a.ip)
            && g.startLeaks == f.startLeaks + (if created && !a.startOk && !a.removeOk then {f.nextId} else {})
            && g.inspectLeaks == f.inspectLeaks + (if created && a.startOk && !a.inspectOk then {f.nextId} else {})
            && g.created.Keys == f.created.Keys + (if created then {f.nextId} else {})
  {
    hide NameTaken, Limits;
  }

  function StopRunner(f: Fleet, id: ContainerID, a: StopAnswer): (g: Fleet)
    ensures g.foreign == f.foreign
  {
    var g := f.(stopCalls := f.stopCalls + [id]);
    if id !in g.containers then g
    else if a.removeOk then g.(containers := g.containers - {id})
    else g.(stopLeaks := g.stopLeaks + {id})
  }

  function StopAll(f: Fleet, ids: seq<ContainerID>, answers: nat -> StopAnswer): Fleet {
    if ids == [] then f
    else StopRunner(StopAll(f, ids[..|ids| - 1], answers), ids[|ids| - 1], answers(|ids| - 1))
  }

  // ----- The program -----

  /** The Docker engine. The answers of a call say whether it succeeds. */
  class Docker {
    var containers: map<ContainerID, Container>
    var nextId: ContainerID
    ghost var created: map<ContainerID, Container>
    ghost var stopCalls: seq<ContainerID>

    constructor (existing: map<ContainerID, Container>, nextId: ContainerID)
      ensures containers == created == existing && this.nextId == nextId && stopCalls == []
    {
      containers, created := existing, existing;
      this.nextId := nextId;
      stopCalls := [];
    }

    method ContainerCreate(name: string, nanoCPUs: int, memory: int, ok: bool) returns (id: Option<ContainerID>)
      modifies this
      ensures stopCalls == old(stopCalls)
      ensures if ok && !NameTaken(old(containers), name) then
                id == Some(old(nextId)) && nextId == old(nextId) + 1
                && containers == old(containers)[old(nextId) := Container(name, nanoCPUs, memory)]
                && created == old(created)[old(nextId) := Container(name, nanoCPUs, memory)]
              else
                id == None && nextId == old(nextId) && containers == old(containers) && created == old(created)
    {
      if !ok || NameTaken(containers, name) {
        return None;
      }
      id := Some(nextId);
      containers := containers[nextId := Container(name, nanoCPUs, memory)];
      created := created[nextId := Container(name, nanoCPUs, memory)];
      nextId := nextId + 1;
    }

    /** A stopped container still exists. */
    method ContainerStop(id: ContainerID, stopOk: bool) returns (ok: bool)
      modifies this`stopCalls
      ensures stopCalls == old(stopCalls) + [id] && ok == (stopOk && id in containers)
    {
      stopCalls := stopCalls + [id];
      ok := stopOk && id in containers;
    }

    method ContainerRemove(id: ContainerID, removeOk: bool) returns (ok: bool)
      modifies this`containers
      ensures ok == (removeOk && id in old(containers))
      ensures containers == if ok then old(containers) - {id} else old(containers)
    {
      ok := removeOk && id in containers;
      if ok {
        containers := containers - {id};
      }
    }
  }

  class Provisioner {
    const docker: Docker
    ghost var foreign: set<ContainerID>
    ghost var startLeaks: set<ContainerID>
    ghost var inspectLeaks: set<ContainerID>
    ghost var stopLeaks: set<ContainerID>

    ghost function Model(): Fleet
      reads this, docker
    {
      Fleet(docker.containers, docker.nextId, docker.created, docker.stopCalls,
            foreign, startLeaks, inspectLeaks, stopLeaks)
    }

    constructor (docker: Docker)
      ensures this.docker == docker
      ensures Model() == Fleet(docker.containers, docker.nextId, docker.created, docker.stopCalls,
                               docker.containers.Keys, {}, {}, {})
    {
      this.docker := docker;
      foreign := docker.containers.Keys;
      startLeaks, inspectLeaks, stopLeaks := {}, {}, {};
    }

    method Start(name: string, cpus: string, memory: string, a: StartAnswer) returns (started: Option<Started>)
      modifies this, docker
      ensures var o := StartOutcome(old(Model()), name, cpus, memory, a);
              Model() == AfterStart(old(Model()), o)
              && started == if o.Running? then Some(Started(old(docker.nextId), o.ip)) else None
    {
      hide ParseCPUs, ParseMemory, NameTaken;
      var nano := ParseCPUs(cpus);
      if nano.Err? {
        return None;
      }
      var bytes := ParseMemory(memory);
      if bytes.Err? {
        return None;
      }
      var id := docker.ContainerCreate(name, nano.value, bytes.value, a.createOk);
      if id.None? {
        return None;
      }
      if !a.startOk {
        var removed := docker.ContainerRemove(id.value, a.removeOk);
        if !removed {
          startLeaks := startLeaks + {id.value};
        }
        return None;
      }
      if !a.inspectOk {
        inspectLeaks := inspectLeaks + {id.value};
        return None;
      }
      started := Some(Started(id.value, a.ip));
    }

    /** A failed stop is only logged; the container is removed by force anyway. */
    method Stop(id: ContainerID, a: StopAnswer) returns (ok: bool)
      modifies this, docker
      ensures Model() == StopRunner(old(Model()), id, a)
      ensures ok == (a.removeOk && id in old(Model()).containers)
    {
      var stopped := docker.ContainerStop(id, a.stopOk);
      ok := docker.ContainerRemove(id, a.removeOk);
      if id in docker.containers {
        stopLeaks := stopLeaks + {id};
      }
    }

    method StopEvery(ids: seq<ContainerID>, answers: nat -> StopAnswer)
      modifies this, docker
      ensures Model() == StopAll(old(Model()), ids, answers)
    {
      for i := 0 to |ids|
        invariant Model() == StopAll(old(Model()), ids[..i], answers)
      {
        assert ids[..i + 1][..i] == ids[..i];
        var ok := Stop(ids[i], answers(i));
      }
      assert ids[..|ids|] == ids;
    }
  }
}
