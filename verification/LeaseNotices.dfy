/** Exactly what the managers send, envelope by envelope, and that the peers of a running manager know of it. */
module LeaseNotices {
  import opened Prelude
  import opened LeaseManager
  import opened LeaseProtocol

  /** The manager opens a lease round: it is told that it leads, or the cluster comes up with it as the leader. */
  predicate Opens(v: View, e: Event) {
    || (e.LeaderChanged? && e.leader == v.id && (v.state.Idle? || v.state.Stopping?))
    || (e.MemberUp? && e.leader == v.id)
  }

  /** The peers that a manager knows after the event. */
  function KnownAfter(v: View, e: Event): set<NodeId> {
    match e
    case MemberUp(_, _, members) => v.managers + (members - {v.id})
    case NodeAdded(_, other) => v.managers + ({other} - {v.id})
    case NodeRemoved(_, other) => v.managers - {other}
    case _ => v.managers
  }

  predicate MeetsNew(v: View, e: Event, y: NodeId) {
    e.NodeAdded? && e.other == y && y != v.id && y !in v.managers
  }

  /** The counts of every kind of envelope that a manager addresses to `y`. */
  ghost predicate SendsTo(v: View, e: Event, y: NodeId, sent: multiset<Envelope>) {
    && sent[Request(v.id, y)]
       == (if (Opens(v, e) && y in KnownAfter(v, e)) || (v.state.Starting? && MeetsNew(v, e, y)) then 1 else 0)
    && sent[StartedNotice(v.id, y)]
       == (if (e.Complete? && e.started && y in v.managers) || (v.state.Running? && MeetsNew(v, e, y)) then 1 else 0)
    && sent[StoppedNotice(v.id, y)]
       == (if e.Deliver? && e.envelope.Request? && v.state.Running? && y in v.managers then 1 else 0)
    && sent[Ack(v.id, y)] == (if Grants(v, e, y) then 1 else 0)
  }

  /** The lease is granted to a known peer that asks while the manager neither starts nor runs, or that was put
      aside while it joined or stopped. */
  predicate Grants(v: View, e: Event, y: NodeId) {
    && y in KnownAfter(v, e)
    && match e
       case Deliver(Request(src, _)) => src == y && (v.state.Idle? || v.state.Stopping?)
       case MemberUp(_, _, _) => v.state == Joining(Some(y))
       case ChildStopped(_) => v.state == Stopping(y)
       case _ => false
  }

  lemma BroadcastTo(kind: Kind, src: NodeId, managers: set<NodeId>, y: NodeId)
    ensures
      var all := Broadcast(kind, src, managers);
      && all[Request(src, y)] == (if kind.RequestKind? && y in managers then 1 else 0)
      && all[StartedNotice(src, y)] == (if kind.StartedKind? && y in managers then 1 else 0)
      && all[StoppedNotice(src, y)] == (if kind.StoppedKind? && y in managers then 1 else 0)
      && all[Ack(src, y)] == 0 && all[StartResult(src)] == 0
  {
    BroadcastCount(kind, src, managers, Request(src, y));
    BroadcastCount(kind, src, managers, StartedNotice(src, y));
    BroadcastCount(kind, src, managers, StoppedNotice(src, y));
    BroadcastCount(kind, src, managers, Ack(src, y));
    BroadcastCount(kind, src, managers, StartResult(src));
  }

  lemma MemberUpSendsTo(v: View, e: Event, y: NodeId)
    requires e.MemberUp?
    ensures SendsTo(v, e, y, OnMemberUp(v, e.leader, e.members).sent)
  {
    BroadcastTo(RequestKind, v.id, v.managers + (e.members - {v.id}), y);
  }

  lemma RequestSendsTo(v: View, e: Event, y: NodeId)
    requires e.Deliver? && e.envelope.Request?
    ensures SendsTo(v, e, y, OnRequest(v, e.envelope.src).sent)
  {
    BroadcastTo(StoppedKind, v.id, v.managers, y);
  }

  lemma LeaderChangedSendsTo(v: View, e: Event, y: NodeId)
    requires e.LeaderChanged?
    ensures SendsTo(v, e, y, OnLeaderChanged(v, e.leader).sent)
  {
    BroadcastTo(RequestKind, v.id, v.managers, y);
  }

  lemma CompleteSendsTo(v: View, e: Event, y: NodeId)
    requires e.Complete?
    ensures SendsTo(v, e, y, OnStartResult(v, e.started).sent)
  {
    BroadcastTo(StartedKind, v.id, v.managers, y);
  }

  lemma NodeAddedSendsTo(v: View, e: Event, y: NodeId)
    requires e.NodeAdded?
    ensures SendsTo(v, e, y, OnNodeAdded(v, e.other).sent)
  {
  }

  lemma QuietSendsTo(v: View, e: Event, y: NodeId)
    requires e.ChildStopped? || e.NodeRemoved? || (e.Deliver? && !e.envelope.Request?)
    ensures SendsTo(v, e, y, Respond(v, e).sent)
  {
    assert LaunchesOnly(v, e);
  }

  predicate LaunchesOnly(v: View, e: Event)
    requires !e.Lose? && !e.Crash?
  {
    e.ChildStopped? || Respond(v, e).sent <= multiset{StartResult(v.id)}
  }

  /** Whatever the event, a manager sends each peer exactly these requests, notices and acknowledgements. */
  lemma EnvelopesAreExact(v: View, e: Event, y: NodeId)
    requires !e.Lose? && !e.Crash?
    ensures SendsTo(v, e, y, Respond(v, e).sent)
  {
    match e
    case Deliver(Request(_, _)) => RequestSendsTo(v, e, y);
    case MemberUp(_, _, _) => MemberUpSendsTo(v, e, y);
    case LeaderChanged(_, _) => LeaderChangedSendsTo(v, e, y);
    case Complete(_, _) => CompleteSendsTo(v, e, y);
    case NodeAdded(_, _) => NodeAddedSendsTo(v, e, y);
    case _ => QuietSendsTo(v, e, y);
  }

  /** Who is known after an event. */
  lemma PeersAreExact(v: View, e: Event)
    requires !e.Lose? && !e.Crash?
    ensures Respond(v, e).view.managers == KnownAfter(v, e) && Respond(v, e).view.id == v.id
  {
  }

  /** When a manager runs after an event: it ran before, or its start succeeded. */
  lemma RunsAfter(v: View, e: Event)
    requires !e.Lose? && !e.Crash? && Respond(v, e).view.state.Running?
    ensures (e.Complete? && e.started) || (v.state.Running? && !e.MemberUp?)
  {
  }

  // ---------------------------------------------------------------------------------------------
  // Over runs

  /** Step `k` is a handler of `x` that sends the envelope. */
  predicate SentAt(s: System, e: Event, x: NodeId, envelope: Envelope) {
    Enabled(s, e) && !e.Lose? && !e.Crash? && Target(e) == x && envelope in Handle(s, e).sent
  }

  /** `x` runs from state `k + 1` to state `j`. */
  ghost predicate RunsSince(states: seq<System>, k: nat, j: nat, x: NodeId) {
    k < j < |states| && forall i :: k < i <= j ==> x in states[i].nodes && states[i].nodes[x].state.Running?
  }

  ghost predicate ToldAt(states: seq<System>, events: seq<Event>, k: nat, j: nat, x: NodeId, y: NodeId) {
    k < |events| && RunsSince(states, k, j, x) && SentAt(states[k], events[k], x, StartedNotice(x, y))
  }

  /** A peer of a manager that runs after a step was told in that step, or the manager ran before and knew it. */
  lemma ToldOrKnown(s: System, e: Event, x: NodeId, y: NodeId)
    requires Enabled(s, e) && x in s.nodes && x in Next(s, e).nodes
    requires Next(s, e).nodes[x].state.Running? && y in Next(s, e).nodes[x].managers
    ensures SentAt(s, e, x, StartedNotice(x, y)) || (s.nodes[x].state.Running? && y in s.nodes[x].managers)
  {
    if !e.Lose? && !e.Crash? && Target(e) == x {
      var v := s.nodes[x];
      PeersAreExact(v, e);
      RunsAfter(v, e);
      EnvelopesAreExact(v, e, y);
    }
  }

  /** In every run, each peer that a running manager knows was sent a notice by it since it has been running:
      when its start succeeded, or when it met the peer. */
  lemma {:induction false} PeersAreTold(states: seq<System>, events: seq<Event>, j: nat, x: NodeId, y: NodeId)
    requires Run(states, events) && j < |states| && x in states[j].nodes
    requires states[j].nodes[x].state.Running? && y in states[j].nodes[x].managers
    ensures exists k :: ToldAt(states, events, k, j, x, y)
    decreases j
  {
    if j > 0 {
      var i := j - 1;
      assert Step(states[i], events[i], states[j]);
      ToldOrKnown(states[i], events[i], x, y);
      if SentAt(states[i], events[i], x, StartedNotice(x, y)) {
        assert ToldAt(states, events, i, j, x, y);
      } else {
        PeersAreTold(states, events, i, x, y);
        var k :| ToldAt(states, events, k, i, x, y);
        StillRuns(states, events, k, i, x, y);
      }
    }
  }

  lemma StillRuns(states: seq<System>, events: seq<Event>, k: nat, i: nat, x: NodeId, y: NodeId)
    requires ToldAt(states, events, k, i, x, y) && i + 1 < |states|
    requires x in states[i + 1].nodes && states[i + 1].nodes[x].state.Running?
    ensures ToldAt(states, events, k, i + 1, x, y)
  {
  }

  /** In every run, a manager that stops tells exactly the peers it knows, in the step in which it stops. */
  lemma PeersAreToldOfStop(states: seq<System>, events: seq<Event>, i: nat, x: NodeId, y: NodeId)
    requires Run(states, events) && i < |events| && x in states[i].nodes && x in states[i + 1].nodes
    requires states[i].nodes[x].state.Running? && states[i + 1].nodes[x].state.Stopping?
    ensures SentAt(states[i], events[i], x, StoppedNotice(x, y)) <==> y in states[i].nodes[x].managers
  {
    var s, e := states[i], events[i];
    assert Step(s, e, states[i + 1]);
    assert !e.Lose? && !e.Crash? && Target(e) == x;
    EnvelopesAreExact(s.nodes[x], e, y);
    StopsOnRequest(s.nodes[x], e);
  }

  lemma StopsOnRequest(v: View, e: Event)
    requires !e.Lose? && !e.Crash? && v.state.Running? && Respond(v, e).view.state.Stopping?
    ensures e.Deliver? && e.envelope.Request?
  {
  }
}
