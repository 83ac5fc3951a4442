/** When a lease request goes unanswered: exactly which steps lose it, and that a requester whose request is lost
    waits for as long as that peer lives. */
module LeaseStarvation {
  import opened Prelude
  import opened LeaseManager
  import opened LeaseProtocol
  import opened LeaseRuns
  import opened LeaseLimits

  /** `x` waits for `y`'s acknowledgement, and nothing is left of its request. */
  predicate Starved(s: System, x: NodeId, y: NodeId) {
    && Shape(s) && x in s.nodes && y in s.nodes && x != y
    && s.nodes[x].state.Starting? && y in s.nodes[x].managers
    && Traces(s, x, y) == 0
  }

  /** What a delivered request leaves behind: nothing if the receiver is starting, and otherwise one trace,
      provided that the receiver can answer, being still joining or knowing the sender. */
  lemma RequestAnsweredIffNotStarting(s: System, x: NodeId, y: NodeId)
    requires Inv(s) && Enabled(s, Deliver(Request(x, y))) && x in s.nodes && x != y
    requires s.nodes[y].state.Joining? || x in s.nodes[y].managers
    ensures
      var s' := Next(s, Deliver(Request(x, y)));
      Traces(s', x, y) == if s.nodes[y].state.Starting? then 0 else 1
  {
    assert PairOk(s, x, y);
    RequestSends(s.nodes[y], x);
  }

  /** A request that reaches a live manager while it is starting starves the requester. */
  lemma DroppedRequestStarves(states: seq<System>, events: seq<Event>, i: nat, x: NodeId, y: NodeId)
    requires Run(states, events) && i < |events| && events[i] == Deliver(Request(x, y))
    requires x in states[i].nodes && x != y && y in states[i].nodes && states[i].nodes[y].state.Starting?
    ensures Starved(states[i + 1], x, y)
  {
    RunInv(states, events, i);
    var s, s' := states[i], states[i + 1];
    assert Step(s, events[i], s');
    assert PairOk(s, x, y) && NodeOk(s, x);
    RequestSends(s.nodes[y], x);
  }

  /** So does a request that reaches a joining manager which has already put another one aside: there is
      room for one only, and the earlier requester is forgotten. */
  lemma OverwrittenRequestStarves(states: seq<System>, events: seq<Event>, i: nat, x: NodeId, y: NodeId, z: NodeId)
    requires Run(states, events) && i < |events| && events[i] == Deliver(Request(x, y))
    requires y in states[i].nodes && states[i].nodes[y].state == Joining(Some(z))
    requires z in states[i].nodes && z != x && z != y
    ensures Starved(states[i + 1], z, y)
  {
    RunInv(states, events, i);
    var s, s' := states[i], states[i + 1];
    assert Step(s, events[i], s');
    assert PairOk(s, z, y) && NodeOk(s, z);
  }

  /** `v` is starting and waits for `y`. */
  predicate WaitsFor(v: View, y: NodeId) {
    v.state.Starting? && y in v.managers && y !in v.state.acks
  }

  /** The events that leave a manager waiting for `y`, as far as they depend on that manager. */
  predicate Harmless(v: View, e: Event, y: NodeId) {
    match e
    case Deliver(Ack(src, _)) => src != y
    case Complete(_, _) => false
    case MemberUp(_, _, _) => false
    case NodeRemoved(_, other) => other != y
    case Lose(_) => false
    case Crash(_) => false
    case _ => true
  }

  lemma StillWaits(v: View, e: Event, y: NodeId)
    requires WaitsFor(v, y) && Harmless(v, e, y)
    ensures WaitsFor(Respond(v, e).view, y) && Respond(v, e).view.id == v.id
    ensures Request(v.id, y) !in Respond(v, e).sent && Ack(y, v.id) !in Respond(v, e).sent
  {
  }

  lemma StarvedIsHarmless(s: System, e: Event, x: NodeId, y: NodeId)
    requires Inv(s) && Enabled(s, e) && Admissible(s, e) && Starved(s, x, y) && y in s.live
    requires !e.Lose? && !e.Crash? && Target(e) == x
    ensures Harmless(s.nodes[x], e, y) && WaitsFor(s.nodes[x], y)
  {
    assert NodeOk(s, x);
    assert Ack(y, x) !in s.net;
  }

  /** `x` still waits for `y`, and the step neither puts `x` aside at `y` nor sends anything between them. */
  lemma StarvedAfter(s: System, e: Event, x: NodeId, y: NodeId, effect: Effect)
    requires Enabled(s, e) && !e.Lose? && !e.Crash? && Starved(s, x, y)
    requires effect == Handle(s, e) && effect.view.id == Target(e)
    requires Target(e) == x ==> WaitsFor(effect.view, y)
    requires Target(e) == y ==> !Deferred(effect.view, x)
    requires Request(x, y) !in effect.sent && Ack(y, x) !in effect.sent
    ensures Starved(Next(s, e), x, y)
  {
    var s' := Next(s, e);
    assert s'.nodes == s.nodes[Target(e) := effect.view] && s'.net == s.net - Taken(e) + effect.sent;
    assert s'.net[Request(x, y)] == 0 && s'.net[Ack(y, x)] == 0;
  }

  /** The requester's own steps. */
  lemma StarvedOwnStep(s: System, e: Event, x: NodeId, y: NodeId)
    requires Inv(s) && Enabled(s, e) && Admissible(s, e) && Starved(s, x, y) && y in s.live
    requires !e.Lose? && !e.Crash? && Target(e) == x
    ensures Starved(Next(s, e), x, y)
  {
    StarvedIsHarmless(s, e, x, y);
    StillWaits(s.nodes[x], e, y);
    StarvedAfter(s, e, x, y, Respond(s.nodes[x], e));
  }

  /** Announcements carry no acknowledgement, and are sent in the manager's own name. */
  lemma BroadcastIsOwn(kind: Kind, src: NodeId, managers: set<NodeId>)
    ensures forall e :: e in Broadcast(kind, src, managers) ==> !e.Ack? && !e.StartResult? && e.src == src
  {
  }

  /** Everything in `sent` is in the name of `id`. */
  ghost predicate InNameOf(sent: multiset<Envelope>, id: NodeId) {
    forall e :: e in sent ==> e.StartResult? || e.src == id
  }

  lemma BeginsAsItself(v: View)
    ensures InNameOf(RequestLease(v), v.id)
  {
    BroadcastIsOwn(RequestKind, v.id, v.managers);
  }

  lemma MemberUpAsItself(v: View, leader: NodeId, members: set<NodeId>)
    ensures InNameOf(OnMemberUp(v, leader, members).sent, v.id)
  {
    BeginsAsItself(View(v.id, Idle, v.managers + (members - {v.id})));
  }

  lemma RequestAsItself(v: View, src: NodeId)
    ensures InNameOf(OnRequest(v, src).sent, v.id)
  {
    BroadcastIsOwn(StoppedKind, v.id, v.managers);
  }

  lemma AckAsItself(v: View, src: NodeId)
    ensures InNameOf(OnAck(v, src).sent, v.id) && InNameOf(OnNodeRemoved(v, src).sent, v.id)
  {
    assert InNameOf(multiset{StartResult(v.id)}, v.id);
  }

  lemma OthersAsItself(v: View, other: NodeId)
    ensures InNameOf(OnNodeAdded(v, other).sent, v.id) && InNameOf(OnChildStopped(v).sent, v.id)
  {
  }

  lemma SendsInOwnName(v: View, e: Event)
    requires !e.Lose? && !e.Crash?
    ensures InNameOf(Respond(v, e).sent, v.id)
  {
    match e
    case Deliver(Request(src, _)) => RequestAsItself(v, src);
    case Deliver(Ack(src, _)) => AckAsItself(v, src);
    case Deliver(_) =>
    case MemberUp(_, leader, members) => MemberUpAsItself(v, leader, members);
    case Complete(_, _) => BroadcastIsOwn(StartedKind, v.id, v.managers);
    case LeaderChanged(_, _) => BeginsAsItself(v);
    case NodeAdded(_, other) => OthersAsItself(v, other);
    case NodeRemoved(_, other) => AckAsItself(v, other);
    case ChildStopped(_) => OthersAsItself(v, v.id);
  }

  /** A manager sends in its own name, and keeps it. */
  lemma SendsAsItself(v: View, e: Event)
    requires !e.Lose? && !e.Crash?
    ensures InNameOf(Respond(v, e).sent, v.id) && Respond(v, e).view.id == v.id
  {
    SendsInOwnName(v, e);
  }

  predicate Answers(effect: Effect, x: NodeId) {
    Ack(effect.view.id, x) in effect.sent || Deferred(effect.view, x)
  }

  lemma MemberUpAnswers(v: View, leader: NodeId, members: set<NodeId>, x: NodeId)
    requires !Deferred(v, x)
    ensures !Answers(OnMemberUp(v, leader, members), x)
  {
    BroadcastIsOwn(RequestKind, v.id, v.managers + (members - {v.id}));
  }

  lemma RequestAnswers(v: View, src: NodeId, x: NodeId)
    requires !Deferred(v, x) && src != x
    ensures !Answers(OnRequest(v, src), x)
  {
    RequestSends(v, src);
  }

  lemma LeaderChangedAnswers(v: View, leader: NodeId, x: NodeId)
    requires !Deferred(v, x)
    ensures !Answers(OnLeaderChanged(v, leader), x)
  {
    BroadcastIsOwn(RequestKind, v.id, v.managers);
  }

  lemma StartResultAnswers(v: View, started: bool, x: NodeId)
    requires !Deferred(v, x)
    ensures !Answers(OnStartResult(v, started), x)
  {
    BroadcastIsOwn(StartedKind, v.id, v.managers);
  }

  lemma NodeAddedAnswers(v: View, other: NodeId, x: NodeId)
    requires !Deferred(v, x)
    ensures !Answers(OnNodeAdded(v, other), x)
  {
  }

  lemma NodeRemovedAnswers(v: View, other: NodeId, x: NodeId)
    requires !Deferred(v, x)
    ensures !Answers(OnNodeRemoved(v, other), x)
  {
    assert Ack(v.id, x) !in multiset{StartResult(v.id)};
  }

  lemma AckAnswers(v: View, other: NodeId, x: NodeId)
    requires !Deferred(v, x)
    ensures !Answers(OnAck(v, other), x)
  {
    assert Ack(v.id, x) !in multiset{StartResult(v.id)};
  }

  lemma ChildStoppedAnswers(v: View, x: NodeId)
    requires !Deferred(v, x)
    ensures !Answers(OnChildStopped(v), x)
  {
  }

  /** A manager acknowledges, or puts aside, only who has asked. */
  lemma AnswersWhoAsked(v: View, e: Event, x: NodeId)
    requires !e.Lose? && !e.Crash? && !Deferred(v, x)
    requires e.Deliver? && e.envelope.Request? ==> e.envelope.src != x
    ensures !Answers(Respond(v, e), x)
  {
    match e
    case Deliver(Request(src, _)) => RequestAnswers(v, src, x);
    case Deliver(Ack(src, _)) => AckAnswers(v, src, x);
    case Deliver(_) =>
    case MemberUp(_, leader, members) => MemberUpAnswers(v, leader, members, x);
    case Complete(_, started) => StartResultAnswers(v, started, x);
    case LeaderChanged(_, leader) => LeaderChangedAnswers(v, leader, x);
    case NodeAdded(_, other) => NodeAddedAnswers(v, other, x);
    case NodeRemoved(_, other) => NodeRemovedAnswers(v, other, x);
    case ChildStopped(_) => ChildStoppedAnswers(v, x);
  }

  /** The steps of everybody else, the silent peer included. */
  lemma StarvedOtherStep(s: System, e: Event, x: NodeId, y: NodeId)
    requires Enabled(s, e) && Starved(s, x, y)
    requires !e.Lose? && !e.Crash? && Target(e) != x
    ensures Starved(Next(s, e), x, y)
  {
    var n := Target(e);
    var effect := Respond(s.nodes[n], e);
    SendsAsItself(s.nodes[n], e);
    if n == y {
      assert Request(x, y) !in s.net;
      AnswersWhoAsked(s.nodes[y], e, x);
    }
    StarvedAfter(s, e, x, y, effect);
  }

  lemma StepKeepsStarved(s: System, e: Event, s': System, x: NodeId, y: NodeId)
    requires Inv(s) && Step(s, e, s') && Starved(s, x, y) && y in s'.live
    ensures Starved(s', x, y) && y in s.live
  {
    if e.Lose? || e.Crash? {
    } else if Target(e) == x {
      StarvedOwnStep(s, e, x, y);
    } else {
      StarvedOtherStep(s, e, x, y);
    }
  }

  lemma StarvedMeansIdle(s: System, x: NodeId, y: NodeId)
    requires Inv(s) && Starved(s, x, y)
    ensures !s.nodes[x].state.Running? && StartResult(x) !in s.net
  {
    assert NodeOk(s, x);
  }

  lemma StarvedNext(states: seq<System>, events: seq<Event>, k: nat, x: NodeId, y: NodeId)
    requires Run(states, events) && k < |events| && Starved(states[k], x, y) && y in states[k + 1].live
    ensures Starved(states[k + 1], x, y)
  {
    RunInv(states, events, k);
    assert Step(states[k], events[k], states[k + 1]);
    StepKeepsStarved(states[k], events[k], states[k + 1], x, y);
  }

  lemma {:induction false} StaysStarved(states: seq<System>, events: seq<Event>, i: nat, j: nat, x: NodeId, y: NodeId)
    requires Run(states, events) && i <= j < |states| && Starved(states[i], x, y) && y in states[j].live
    ensures Starved(states[j], x, y)
    decreases j - i
  {
    if i < j {
      LiveBefore(states, events, i + 1, j, y);
      StarvedNext(states, events, i, x, y);
      StaysStarved(states, events, i + 1, j, x, y);
    }
  }

  /** Once starved, a manager stays so for as long as the peer lives: whatever is announced, delivered or
      lost, it neither launches a start nor runs. */
  lemma StarvedForGood(states: seq<System>, events: seq<Event>, i: nat, j: nat, x: NodeId, y: NodeId)
    requires Run(states, events) && i <= j < |states|
    requires Starved(states[i], x, y) && y in states[j].live
    ensures Starved(states[j], x, y)
    ensures !states[j].nodes[x].state.Running? && StartResult(x) !in states[j].net
  {
    StaysStarved(states, events, i, j, x, y);
    RunInv(states, events, j);
    StarvedMeansIdle(states[j], x, y);
  }

  // ---------------------------------------------------------------------------------------------
  // Exactly how a request gets lost

  /** A manager that is stopping for `x` is told that it leads, or that the cluster is up, and forgets whom it
      stops for. */
  lemma RecalledGrantStarves(states: seq<System>, events: seq<Event>, i: nat, x: NodeId, y: NodeId)
    requires Run(states, events) && i < |events| && x in states[i].nodes && x != y
    requires events[i] == LeaderChanged(y, y) || (events[i].MemberUp? && events[i].node == y)
    requires y in states[i].nodes && states[i].nodes[y].state == Stopping(x)
    ensures Starved(states[i + 1], x, y)
  {
    RunInv(states, events, i);
    var s, e := states[i], events[i];
    assert Step(s, e, states[i + 1]);
    assert PairOk(s, x, y) && NodeOk(s, x);
    LossLeavesNothing(s, e, x, y);
  }

  /** The event loses `x`'s request to `y`, or what became of it: the network does; `y` is starting; `y` is
      joining and puts another request aside instead; or `y` stops for `x` and begins anew. */
  predicate Loses(s: System, e: Event, x: NodeId, y: NodeId) {
    && y in s.nodes
    && match e
       case Lose(envelope) => envelope == Request(x, y) || envelope == Ack(y, x)
       case Deliver(Request(z, n)) =>
         n == y && if z == x then s.nodes[y].state.Starting? else s.nodes[y].state == Joining(Some(x))
       case LeaderChanged(n, leader) => n == y && leader == y && s.nodes[y].state == Stopping(x)
       case MemberUp(n, _, _) => n == y && s.nodes[y].state == Stopping(x)
       case _ => false
  }

  /** `x`'s request to `y` has left one trace, and is not answered yet. */
  predicate Outstanding(s: System, x: NodeId, y: NodeId) {
    x in s.nodes && y in s.nodes && Traces(s, x, y) == 1 && !Collected(s.nodes[x], y)
  }

  lemma LossWasOutstanding(s: System, e: Event, x: NodeId, y: NodeId)
    requires Inv(s) && Enabled(s, e) && Loses(s, e, x, y) && x in s.nodes && x != y
    ensures Outstanding(s, x, y)
  {
    assert PairOk(s, x, y);
  }

  /** What a manager that loses a request or a grant of `x` makes of it: nothing. */
  lemma LoserIsSilent(s: System, e: Event, x: NodeId, y: NodeId)
    requires Enabled(s, e) && Loses(s, e, x, y) && !e.Lose?
    ensures
      var effect := Respond(s.nodes[y], e);
      effect.view.id == s.nodes[y].id && Ack(s.nodes[y].id, x) !in effect.sent && !Deferred(effect.view, x)
  {
    var v := s.nodes[y];
    match e
    case Deliver(_) => RequestSends(v, e.envelope.src);
    case LeaderChanged(_, _) => BroadcastIsOwn(RequestKind, v.id, v.managers);
    case MemberUp(_, _, members) => BroadcastIsOwn(RequestKind, v.id, v.managers + (members - {v.id}));
  }

  lemma LossLeavesNothing(s: System, e: Event, x: NodeId, y: NodeId)
    requires Inv(s) && Enabled(s, e) && Loses(s, e, x, y) && x in s.nodes && x != y && y in s.live
    ensures Starved(Next(s, e), x, y)
  {
    LossWasOutstanding(s, e, x, y);
    assert PairOk(s, x, y) && NodeOk(s, x) && NodeOk(s, y);
    if !e.Lose? {
      LoserIsSilent(s, e, x, y);
      SendsAsItself(s.nodes[y], e);
      LossEmpties(s, e, x, y, Respond(s.nodes[y], e));
    }
  }

  /** One trace there was, and the event takes it away. */
  lemma LossEmpties(s: System, e: Event, x: NodeId, y: NodeId, effect: Effect)
    requires Shape(s) && Enabled(s, e) && Loses(s, e, x, y) && !e.Lose? && Outstanding(s, x, y) && x != y
    requires WaitsFor(s.nodes[x], y)
    requires effect == Handle(s, e) && effect.view.id == y && InNameOf(effect.sent, y)
    requires Ack(y, x) !in effect.sent && !Deferred(effect.view, x)
    ensures Starved(Next(s, e), x, y)
  {
    var s' := Next(s, e);
    NodesAfter(s, e);
    assert s'.nodes[y] == effect.view && s'.net == s.net - Taken(e) + effect.sent;
    LossTakes(s, e, x, y);
    LossEmptiesNet(s.net, Taken(e), effect.sent, x, y);
    NothingLeft(s', x, y);
  }

  lemma LossTakes(s: System, e: Event, x: NodeId, y: NodeId)
    requires Enabled(s, e) && Loses(s, e, x, y) && !e.Lose? && Outstanding(s, x, y)
    ensures Ack(y, x) !in s.net && s.net[Request(x, y)] <= Taken(e)[Request(x, y)] <= 1
  {
  }

  lemma LossEmptiesNet(net: multiset<Envelope>, taken: multiset<Envelope>, sent: multiset<Envelope>, x: NodeId, y: NodeId)
    requires Ack(y, x) !in sent && Request(x, y) !in sent
    requires Ack(y, x) !in net && net[Request(x, y)] <= taken[Request(x, y)] <= 1
    ensures (net - taken + sent)[Request(x, y)] == 0 && (net - taken + sent)[Ack(y, x)] == 0
  {
  }

  lemma NothingLeft(s: System, x: NodeId, y: NodeId)
    requires Shape(s) && x in s.nodes && y in s.nodes && x != y
    requires WaitsFor(s.nodes[x], y) && !Deferred(s.nodes[y], x)
    requires s.net[Request(x, y)] == 0 && s.net[Ack(y, x)] == 0
    ensures Starved(s, x, y)
  {
  }

  // ---------------------------------------------------------------------------------------------

  lemma NetKeeps(s: System, e: Event, envelope: Envelope)
    requires Enabled(s, e) && envelope in s.net && envelope !in Taken(e)
    ensures envelope in Next(s, e).net
  {
  }

  /** A request in flight stays there, or is answered. */
  lemma RequestSurvives(s: System, e: Event, x: NodeId, y: NodeId)
    requires Inv(s) && Enabled(s, e) && !Loses(s, e, x, y) && x in s.live && y in s.live && x != y
    requires Request(x, y) in s.net
    ensures x in Next(s, e).nodes && y in Next(s, e).nodes && Traces(Next(s, e), x, y) > 0
  {
    if e == Deliver(Request(x, y)) {
      assert NodeOk(s, y);
      RequestAnsweredIffNotStarting(s, x, y);
    } else {
      NetKeeps(s, e, Request(x, y));
    }
  }

  /** An acknowledgement in flight stays there, or is collected. */
  lemma AckSurvives(s: System, e: Event, x: NodeId, y: NodeId)
    requires Inv(s) && Enabled(s, e) && Admissible(s, e) && !Loses(s, e, x, y) && x in s.live && y in s.live && x != y
    requires Ack(y, x) in s.net
    ensures x in Next(s, e).nodes && y in Next(s, e).nodes && Traces(Next(s, e), x, y) > 0
  {
    if e == Deliver(Ack(y, x)) {
      DeliveredAckSurvives(s, x, y);
    } else {
      NetKeeps(s, e, Ack(y, x));
    }
  }

  lemma DeliveredAckSurvives(s: System, x: NodeId, y: NodeId)
    requires Inv(s) && Enabled(s, Deliver(Ack(y, x))) && y in s.live && x != y
    ensures
      var s' := Next(s, Deliver(Ack(y, x)));
      x in s'.nodes && y in s'.nodes && Collected(s'.nodes[x], y) && Traces(s', x, y) > 0
  {
    assert PairOk(s, x, y) && NodeOk(s, x) && NodeOk(s, y);
    assert s.nodes[x].state.Starting?;
  }

  /** A grant put aside stays there, or is sent. */
  lemma GrantSurvives(v: View, e: Event, x: NodeId)
    requires !e.Lose? && !e.Crash? && !e.Complete? && Deferred(v, x) && x != v.id
    requires !v.state.Joining? ==> x in v.managers
    requires e.MemberUp? ==> v.state.Joining? && x in e.members
    requires e.LeaderChanged? && e.leader == v.id ==> !v.state.Stopping?
    requires e.Deliver? && e.envelope.Request? && e.envelope.src != x ==> !v.state.Joining?
    ensures Answers(Respond(v, e), x)
  {
    if e.MemberUp? {
      assert x in v.managers + (e.members - {v.id});
    }
  }

  lemma AnswerLeavesTrace(s: System, e: Event, x: NodeId, y: NodeId, effect: Effect)
    requires Enabled(s, e) && !e.Lose? && !e.Crash? && Target(e) == y && x in s.nodes && x != y
    requires effect == Handle(s, e) && effect.view.id == y && Answers(effect, x)
    ensures y in Next(s, e).nodes && Traces(Next(s, e), x, y) > 0
  {
    assert Next(s, e).nodes[y] == effect.view;
    if Ack(y, x) in effect.sent {
      assert Ack(y, x) in Next(s, e).net;
    }
  }

  lemma OwnGrantSurvives(s: System, e: Event, x: NodeId, y: NodeId)
    requires Inv(s) && Enabled(s, e) && Admissible(s, e) && !Loses(s, e, x, y) && x in s.live && y in s.live && x != y
    requires Deferred(s.nodes[y], x) && !e.Lose? && !e.Crash? && Target(e) == y
    ensures Answers(Respond(s.nodes[y], e), x)
  {
    assert NodeOk(s, y);
    GrantSurvives(s.nodes[y], e, x);
  }

  lemma NodesAfter(s: System, e: Event)
    requires Enabled(s, e)
    ensures Shape(Next(s, e)) && Next(s, e).nodes.Keys == s.nodes.Keys
    ensures forall n :: n in s.nodes && (e.Lose? || e.Crash? || n != Target(e)) ==> Next(s, e).nodes[n] == s.nodes[n]
  {
    if !e.Lose? && !e.Crash? {
      SendsAsItself(s.nodes[Target(e)], e);
    }
  }

  lemma DeferredStays(s: System, e: Event, x: NodeId, y: NodeId)
    requires Enabled(s, e) && x in s.nodes && y in s.nodes && Deferred(s.nodes[y], x)
    requires e.Lose? || e.Crash? || Target(e) != y
    ensures x in Next(s, e).nodes && y in Next(s, e).nodes && Traces(Next(s, e), x, y) > 0
  {
    NodesAfter(s, e);
    var s' := Next(s, e);
    assert Deferred(s'.nodes[y], s'.nodes[x].id);
  }

  lemma DeferredSurvives(s: System, e: Event, x: NodeId, y: NodeId)
    requires Inv(s) && Enabled(s, e) && Admissible(s, e) && !Loses(s, e, x, y) && x in s.live && y in s.live && x != y
    requires Deferred(s.nodes[y], x)
    ensures x in Next(s, e).nodes && y in Next(s, e).nodes && Traces(Next(s, e), x, y) > 0
  {
    if e.Lose? || e.Crash? || Target(e) != y {
      DeferredStays(s, e, x, y);
    } else {
      SendsAsItself(s.nodes[y], e);
      OwnGrantSurvives(s, e, x, y);
      AnswerLeavesTrace(s, e, x, y, Respond(s.nodes[y], e));
    }
  }

  /** An outstanding request between live nodes is lost in exactly these steps. */
  lemma LostIff(s: System, e: Event, s': System, x: NodeId, y: NodeId)
    requires Inv(s) && Step(s, e, s') && x in s.live && y in s.live && x != y && Outstanding(s, x, y)
    ensures Starved(s', x, y) <==> Loses(s, e, x, y)
  {
    if Loses(s, e, x, y) {
      LossLeavesNothing(s, e, x, y);
    } else if Request(x, y) in s.net {
      RequestSurvives(s, e, x, y);
    } else if Ack(y, x) in s.net {
      AckSurvives(s, e, x, y);
    } else {
      DeferredSurvives(s, e, x, y);
    }
  }

  lemma KeepsCollected(v: View, e: Event, y: NodeId)
    requires !e.Lose? && !e.Crash? && !e.MemberUp? && Collected(v, y) && (e.NodeRemoved? ==> e.other != y)
    ensures Respond(v, e).view.state.Starting? ==> Collected(Respond(v, e).view, y)
  {
  }

  /** A collected acknowledgement stays so while the round lasts. */
  lemma CollectedSurvives(s: System, e: Event, s': System, x: NodeId, y: NodeId)
    requires Inv(s) && Step(s, e, s') && y in s.live && x in s.nodes && Collected(s.nodes[x], y)
    ensures x in s'.nodes && (s'.nodes[x].state.Starting? ==> Collected(s'.nodes[x], y))
  {
    NodesAfter(s, e);
    if !e.Lose? && !e.Crash? && Target(e) == x {
      KeepsCollected(s.nodes[x], e, y);
    }
  }

  /** A round that begins asks every peer. */
  lemma BeginningAsks(v: View, e: Event, y: NodeId)
    requires !e.Lose? && !e.Crash? && !v.state.Starting? && Respond(v, e).view.state.Starting?
    requires y in Respond(v, e).view.managers
    ensures Request(v.id, y) in Respond(v, e).sent
  {
    var managers := Respond(v, e).view.managers;
    BroadcastCount(RequestKind, v.id, managers, Request(v.id, y));
  }

  lemma BeginningLeavesTrace(s: System, e: Event, x: NodeId, y: NodeId)
    requires Enabled(s, e) && x in s.nodes && y in s.nodes && !s.nodes[x].state.Starting?
    ensures !Starved(Next(s, e), x, y)
  {
    if !e.Lose? && !e.Crash? && Target(e) == x {
      var view := Respond(s.nodes[x], e).view;
      if view.state.Starting? && y in view.managers {
        BeginningAsks(s.nodes[x], e, y);
        assert Request(x, y) in Next(s, e).net;
      }
    }
  }

  lemma StarvedHasCause(s: System, e: Event, s': System, x: NodeId, y: NodeId)
    requires Inv(s) && Step(s, e, s') && x in s.live && y in s.live && x != y && Starved(s', x, y)
    ensures Starved(s, x, y) || Loses(s, e, x, y)
  {
    assert PairOk(s, x, y) && NodeOk(s, x);
    if Outstanding(s, x, y) {
      LostIff(s, e, s', x, y);
    } else if Collected(s.nodes[x], y) {
      CollectedSurvives(s, e, s', x, y);
    } else if !s.nodes[x].state.Starting? {
      BeginningLeavesTrace(s, e, x, y);
    }
  }

  lemma StepKeepsDead(s: System, e: Event, s': System)
    requires Step(s, e, s')
    ensures s'.live <= s.live
  {
  }

  lemma {:induction false} LiveBefore(states: seq<System>, events: seq<Event>, k: nat, j: nat, x: NodeId)
    requires Run(states, events) && k <= j < |states| && x in states[j].live
    ensures x in states[k].live
    decreases j
  {
    if k < j {
      StepKeepsDead(states[j - 1], events[j - 1], states[j]);
      LiveBefore(states, events, k, j - 1, x);
    }
  }

  lemma LossStarves(states: seq<System>, events: seq<Event>, k: nat, x: NodeId, y: NodeId)
    requires Run(states, events) && k < |events| && x != y && {x, y} <= states[k].live
    requires Loses(states[k], events[k], x, y)
    ensures Starved(states[k + 1], x, y)
  {
    RunInv(states, events, k);
    assert Step(states[k], events[k], states[k + 1]);
    LossLeavesNothing(states[k], events[k], x, y);
  }

  lemma StarvedNow(states: seq<System>, events: seq<Event>, k: nat, x: NodeId, y: NodeId)
    requires Run(states, events) && k < |events| && x != y && {x, y} <= states[k].live && Starved(states[k + 1], x, y)
    ensures Starved(states[k], x, y) || Loses(states[k], events[k], x, y)
  {
    RunInv(states, events, k);
    assert Step(states[k], events[k], states[k + 1]);
    StarvedHasCause(states[k], events[k], states[k + 1], x, y);
  }

  lemma {:induction false} StarvedWasLost(states: seq<System>, events: seq<Event>, j: nat, x: NodeId, y: NodeId)
    requires Run(states, events) && j < |states| && {x, y} <= states[j].live && Starved(states[j], x, y)
    ensures exists k :: 0 <= k < j && Loses(states[k], events[k], x, y)
    decreases j
  {
    if j > 0 {
      LiveBefore(states, events, j - 1, j, x);
      LiveBefore(states, events, j - 1, j, y);
      StarvedNow(states, events, j - 1, x, y);
      if Starved(states[j - 1], x, y) {
        StarvedWasLost(states, events, j - 1, x, y);
      }
    }
  }

  /** In every run, a live manager is starved of a live peer's acknowledgement if and only if some earlier step
      lost its request: there is no other cause, and no cure. */
  lemma StarvedIffLost(states: seq<System>, events: seq<Event>, j: nat, x: NodeId, y: NodeId)
    requires Run(states, events) && j < |states| && x != y && {x, y} <= states[j].live
    ensures Starved(states[j], x, y) <==> exists k :: 0 <= k < j && Loses(states[k], events[k], x, y)
  {
    if Starved(states[j], x, y) {
      StarvedWasLost(states, events, j, x, y);
    }
    if k :| 0 <= k < j && Loses(states[k], events[k], x, y) {
      LiveBefore(states, events, k, j, x);
      LiveBefore(states, events, k, j, y);
      LossStarves(states, events, k, x, y);
      StaysStarved(states, events, k + 1, j, x, y);
    }
  }

  /** Two starters that have dropped each other's requests never run, and never launch a start, while both
      of them live. */
  lemma CrossedRequestsDeadlock(states: seq<System>, events: seq<Event>, i: nat, j: nat, x: NodeId, y: NodeId)
    requires Run(states, events) && i <= j < |states|
    requires Starved(states[i], x, y) && Starved(states[i], y, x)
    requires {x, y} <= states[j].live
    ensures Starved(states[j], x, y) && Starved(states[j], y, x)
    ensures states[j].nodes[x].state.Starting? && states[j].nodes[y].state.Starting?
    ensures StartResult(x) !in states[j].net && StartResult(y) !in states[j].net
  {
    StarvedForGood(states, events, i, j, x, y);
    StarvedForGood(states, events, i, j, y, x);
  }

  lemma BothLead()
    ensures Respond(View(1, Joining(None), {}), MemberUp(1, 1, {0, 1}))
         == Effect(View(1, Starting({}), {0}), multiset{Request(1, 0)}, true)
  {
    ToOnePeer(RequestKind, 1, 0);
    var joined, none: set<NodeId> := {0, 1}, {};
    assert none + (joined - {1}) == {0};
  }

  /** Each node is told that it leads, and asks the other. */
  lemma BothAsk() returns (states: seq<System>, events: seq<Event>)
    ensures RunExcept(states, events, {})
    ensures EndsWith(states, View(0, Starting({}), {1}), View(1, Starting({}), {0}), multiset{Request(0, 1), Request(1, 0)})
  {
    Opening();
    BothLead();
    var a, b := View(0, Starting({}), {1}), View(1, Starting({}), {0});
    states, events := TwoJoining({});
    states, events := Extend(states, events, {}, MemberUp(0, 0, {0, 1}), View(0, Joining(None), {}),
                             View(1, Joining(None), {}), multiset{}, Effect(a, multiset{Request(0, 1)}, true));
    states, events := Extend(states, events, {}, MemberUp(1, 1, {0, 1}), a, View(1, Joining(None), {}),
                             multiset{Request(0, 1)}, Effect(b, multiset{Request(1, 0)}, true));
  }

  lemma FirstDropped() returns (states: seq<System>, events: seq<Event>)
    ensures RunExcept(states, events, {}) && Starved(states[|events|], 0, 1)
    ensures EndsWith(states, View(0, Starting({}), {1}), View(1, Starting({}), {0}), multiset{Request(1, 0)})
  {
    var a, b := View(0, Starting({}), {1}), View(1, Starting({}), {0});
    var before, soFar := BothAsk();
    states, events := Extend(before, soFar, {}, Deliver(Request(0, 1)), a, b, multiset{Request(1, 0)},
                             Effect(b, multiset{}, false));
    RunWithoutExceptions(states, events);
    DroppedRequestStarves(states, events, |soFar|, 0, 1);
  }

  /** It happens: each node is told that it leads, and the requests cross.  Every promise is kept. */
  lemma RequestsCross() returns (states: seq<System>, events: seq<Event>)
    ensures Run(states, events) && states[|events|].live == {0, 1}
    ensures Starved(states[|events|], 0, 1) && Starved(states[|events|], 1, 0)
  {
    var a, b := View(0, Starting({}), {1}), View(1, Starting({}), {0});
    var before, soFar := FirstDropped();
    states, events := Extend(before, soFar, {}, Deliver(Request(1, 0)), a, b, multiset{}, Effect(a, multiset{}, false));
    RunWithoutExceptions(states, events);
    StarvedForGood(states, events, |soFar|, |events|, 0, 1);
    DroppedRequestStarves(states, events, |soFar|, 1, 0);
  }

  /** Node 0 runs. */
  lemma FirstRuns() returns (states: seq<System>, events: seq<Event>)
    ensures RunExcept(states, events, {})
    ensures EndsWith(states, View(0, Running, {1}), View(1, Idle, {0}), multiset{StartedNotice(0, 1)})
  {
    StartSucceeds();
    states, events := FirstRound({});
    assert Taken(Complete(0, true)) + multiset{} == multiset{StartResult(0)};
    states, events := Extend(states, events, {}, Complete(0, true), View(0, Starting({1}), {1}), View(1, Idle, {0}), multiset{},
                             Effect(View(0, Running, {1}), multiset{StartedNotice(0, 1)}, false));
    assert multiset{} + multiset{StartedNotice(0, 1)} == multiset{StartedNotice(0, 1)};
  }

  /** Node 1 asks. */
  lemma SecondAsks() returns (states: seq<System>, events: seq<Event>)
    ensures RunExcept(states, events, {})
    ensures EndsWith(states, View(0, Running, {1}), View(1, Starting({}), {0}), multiset{StartedNotice(0, 1), Request(1, 0)})
  {
    OtherAsks();
    states, events := FirstRuns();
    var e, notice := LeaderChanged(1, 1), multiset{StartedNotice(0, 1)};
    assert Taken(e) + notice == notice;
    states, events := Extend(states, events, {}, e, View(0, Running, {1}), View(1, Idle, {0}), notice,
                             Effect(View(1, Starting({}), {0}), multiset{Request(1, 0)}, true));
    assert notice + multiset{Request(1, 0)} == multiset{StartedNotice(0, 1), Request(1, 0)};
  }

  /** Node 0 stops for it. */
  lemma StopsForOther() returns (states: seq<System>, events: seq<Event>)
    ensures RunExcept(states, events, {})
    ensures EndsWith(states, View(0, Stopping(1), {1}), View(1, Starting({}), {0}),
                     multiset{StartedNotice(0, 1), StoppedNotice(0, 1)})
  {
    RunnerStops();
    states, events := SecondAsks();
    var e, notice := Deliver(Request(1, 0)), multiset{StartedNotice(0, 1)};
    assert Taken(e) + notice == multiset{StartedNotice(0, 1), Request(1, 0)};
    states, events := Extend(states, events, {}, e, View(0, Running, {1}), View(1, Starting({}), {0}), notice,
                             Effect(View(0, Stopping(1), {1}), multiset{StoppedNotice(0, 1)}, false));
    assert notice + multiset{StoppedNotice(0, 1)} == multiset{StartedNotice(0, 1), StoppedNotice(0, 1)};
  }

  lemma LeadsAgain()
    ensures Respond(View(0, Stopping(1), {1}), LeaderChanged(0, 0))
         == Effect(View(0, Starting({}), {1}), multiset{Request(0, 1)}, true)
  {
    ToOnePeer(RequestKind, 0, 1);
  }

  /** It is then told that it leads after all, and node 1 waits in vain.  Every promise is kept. */
  lemma GrantIsRecalled() returns (states: seq<System>, events: seq<Event>)
    ensures Run(states, events) && states[|events|].live == {0, 1} && Starved(states[|events|], 1, 0)
  {
    var a, b := View(0, Stopping(1), {1}), View(1, Starting({}), {0});
    var before, soFar := StopsForOther();
    LeadsAgain();
    var notices := multiset{StartedNotice(0, 1), StoppedNotice(0, 1)};
    assert Taken(LeaderChanged(0, 0)) + notices == notices;
    states, events := Extend(before, soFar, {}, LeaderChanged(0, 0), a, b, notices,
                             Effect(View(0, Starting({}), {1}), multiset{Request(0, 1)}, true));
    RunWithoutExceptions(states, events);
    RecalledGrantStarves(states, events, |soFar|, 1, 0);
  }
}
