/** The order of polls, acknowledgements and provisioning, and that no message is processed twice. */
module Acknowledgement {
  import opened ScalerModel

  /** The IDs of the messages received, in order. */
  function Received(polls: seq<Poll>): seq<int> {
    if polls == [] then []
    else
      var last := polls[|polls| - 1];
      Received(polls[..|polls| - 1]) + (if last.Delivered? then [last.message.id] else [])
  }

  /** The IDs for which deletion was attempted, in order. */
  function Acks(log: seq<Effect>): seq<int> {
    if log == [] then []
    else
      var last := log[|log| - 1];
      Acks(log[..|log| - 1]) + (if last.Acked? then [last.id] else [])
  }

  function LastAck(log: seq<Effect>): int {
    if log == [] then 0
    else if log[|log| - 1].Acked? then log[|log| - 1].id
    else LastAck(log[..|log| - 1])
  }

  /** A message is being handled: it was acknowledged, and no poll came after. */
  predicate Handling(log: seq<Effect>) {
    log != [] && (log[|log| - 1].Acked? || (log[|log| - 1].Requested? && Handling(log[..|log| - 1])))
  }

  /**
   Every poll carries the ID acknowledged last, every acknowledgement directly follows a poll, and runners are
   requested only for a message that was acknowledged first.
   */
  predicate Ordered(log: seq<Effect>) {
    log == [] ||
    var front := log[..|log| - 1];
    Ordered(front) &&
    match log[|log| - 1]
    case Polled(id, _) => id == LastAck(front)
    case Acked(_) => front != [] && front[|front| - 1].Polled?
    case Requested(_) => Handling(front)
  }

  lemma Appended(log: seq<Effect>, e: Effect)
    ensures (log + [e])[..|log|] == log && (log + [e])[|log|] == e
  {}

  lemma {:induction false} RequestsKeepOrder(before: seq<Effect>, after: seq<Effect>)
    requires OnlyRequests(before, after) && Ordered(before) && Handling(before)
    ensures Ordered(after) && Handling(after) && LastAck(after) == LastAck(before) && Acks(after) == Acks(before)
    decreases |after|
  {
    if before != after {
      var front := after[..|after| - 1];
      assert before <= front;
      RequestsKeepOrder(before, front);
      assert after[|after| - 1].Requested?;
    }
  }

  ghost predicate LogOk(m: Machine, received: seq<int>) {
    Ordered(m.state.log) && m.lastID == LastAck(m.state.log) && Acks(m.state.log) == received
  }

  lemma TurnOrders(c: Setup, m: Machine, poll: Poll, received: seq<int>)
    requires c.Valid() && poll.Valid() && LogOk(m, received)
    ensures LogOk(Turn(c, m, poll), received + (if poll.Delivered? then [poll.message.id] else []))
  {
    hide Handle, Capacity;
    var polled := Polled(m.lastID, Capacity(c, m.state));
    var s1 := Log(m.state, polled);
    Appended(m.state.log, polled);
    assert received + [] == received;
    if poll.Delivered? {
      var s2 := Log(s1, Acked(poll.message.id));
      Appended(s1.log, Acked(poll.message.id));
      RequestsKeepOrder(s2.log, Handle(c, s2, poll.message, poll.answers).log);
    }
  }

  /** Acknowledge first: over any run, deletions are attempted for exactly the received IDs, in order. */
  lemma {:induction false} RunOrders(c: Setup, s: State, polls: seq<Poll>)
    requires c.Valid() && (forall p | p in polls :: p.Valid()) && s.log == []
    ensures LogOk(Run(c, s, polls), Received(polls))
  {
    hide Turn, LogOk;
    if polls == [] {
      EmptyLog(s);
    } else {
      var front, last := polls[..|polls| - 1], polls[|polls| - 1];
      assert last in polls && last.Valid();
      RunOrders(c, s, front);
      TurnOrders(c, Run(c, s, front), last, Received(front));
    }
  }

  lemma EmptyLog(s: State)
    requires s.log == []
    ensures LogOk(Machine(s, 0), [])
  {}

  /** The server only returns messages newer than the ID it was polled with. */
  ghost predicate NewerOnly(c: Setup, s: State, polls: seq<Poll>)
    requires c.Valid() && forall p | p in polls :: p.Valid()
  {
    forall k | 0 <= k < |polls| && polls[k].Delivered? :: Run(c, s, polls[..k]).lastID < polls[k].message.id
  }

  /** At most once: against such a server the processed IDs increase strictly, even when deletions fail. */
  lemma {:induction false} ProcessedOnce(c: Setup, s: State, polls: seq<Poll>)
    requires c.Valid() && (forall p | p in polls :: p.Valid()) && NewerOnly(c, s, polls)
    ensures forall i, j | 0 <= i < j < |Received(polls)| :: Received(polls)[i] < Received(polls)[j]
    ensures forall i | 0 <= i < |Received(polls)| :: Received(polls)[i] <= Run(c, s, polls).lastID
  {
    hide Turn, Answers.Valid;
    if polls != [] {
      var front, last := polls[..|polls| - 1], polls[|polls| - 1];
      assert forall k | 0 <= k < |front| :: front[k] == polls[k] && front[..k] == polls[..k];
      assert last in polls && last.Valid();
      ProcessedOnce(c, s, front);
      LastProcessed(c, Run(c, s, front), last);
    }
  }

  lemma LastProcessed(c: Setup, m: Machine, poll: Poll)
    requires c.Valid() && poll.Valid()
    ensures Turn(c, m, poll).lastID == if poll.Delivered? then poll.message.id else m.lastID
  {
    hide Handle, Capacity;
  }
}
