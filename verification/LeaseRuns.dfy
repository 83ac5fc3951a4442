/** Concrete runs of the lease protocol, built event by event. */
module LeaseRuns {
  import opened Prelude
  import opened LeaseManager
  import opened LeaseProtocol

  /** One step, admissible unless it is excused. */
  predicate Moves(s: System, e: Event, s': System, excused: bool) {
    Enabled(s, e) && s' == Next(s, e) && (excused || Admissible(s, e))
  }

  /** A run from an initial state in which every step outside `broken` is admissible. */
  ghost predicate RunExcept(states: seq<System>, events: seq<Event>, broken: set<nat>) {
    && |states| == |events| + 1
    && Initial(states[0])
    && forall i :: 0 <= i < |events| ==> Moves(states[i], events[i], states[i + 1], i in broken)
  }

  lemma RunWithoutExceptions(states: seq<System>, events: seq<Event>)
    requires RunExcept(states, events, {})
    ensures Run(states, events)
  {
    forall i | 0 <= i < |events|
      ensures Step(states[i], events[i], states[i + 1])
    {
      assert Moves(states[i], events[i], states[i + 1], false);
    }
  }

  /** The managers are in these states, these nodes are live, and at least these envelopes are in flight. */
  ghost predicate Shows(s: System, views: map<NodeId, View>, live: set<NodeId>, net: multiset<Envelope>) {
    Shape(s) && s.nodes == views && s.live == live && net <= s.net
  }

  ghost predicate LeadsTo(states: seq<System>, views: map<NodeId, View>, live: set<NodeId>, net: multiset<Envelope>) {
    states != [] && Shows(states[|states| - 1], views, live, net)
  }

  /** The promises, as far as they depend on the target's manager and on who is live. */
  predicate Kept(v: View, nodes: set<NodeId>, live: set<NodeId>, e: Event) {
    match e
    case MemberUp(_, _, members) => v.state.Joining? && live <= members <= nodes
    case NodeAdded(_, _) => false
    case NodeRemoved(_, _) => false
    case Deliver(Ack(src, _)) => src in v.managers
    case _ => true
  }

  lemma NetAfter(net: multiset<Envelope>, taken: multiset<Envelope>, rest: multiset<Envelope>, sent: multiset<Envelope>)
    requires taken + rest <= net
    ensures taken <= net && rest + sent <= net - taken + sent
  {
    forall e ensures taken[e] <= net[e] && (rest + sent)[e] <= (net - taken + sent)[e] {
      assert (taken + rest)[e] <= net[e];
    }
  }

  /** A handler runs, and leaves `rest` in flight. */
  lemma Move(s: System, e: Event, views: map<NodeId, View>, live: set<NodeId>, rest: multiset<Envelope>, effect: Effect)
    requires Shows(s, views, live, Taken(e) + rest)
    requires !e.Lose? && !e.Crash? && Target(e) in live && (e.Deliver? ==> !e.envelope.StartResult?)
    requires Target(e) in views && Respond(views[Target(e)], e) == effect && effect.view.id == Target(e)
    ensures Enabled(s, e)
    ensures Shows(Next(s, e), views[Target(e) := effect.view], live, rest + effect.sent)
  {
    NetAfter(s.net, Taken(e), rest, effect.sent);
    assert Handle(s, e) == effect;
  }

  lemma Append(states: seq<System>, events: seq<Event>, broken: set<nat>, e: Event, s: System)
    requires RunExcept(states, events, broken) && Moves(states[|events|], e, s, |events| in broken)
    ensures RunExcept(states + [s], events + [e], broken)
  {
    var states', events' := states + [s], events + [e];
    forall i | 0 <= i < |events'|
      ensures Moves(states'[i], events'[i], states'[i + 1], i in broken)
    {
      if i < |events| {
        assert Moves(states[i], events[i], states[i + 1], i in broken);
      }
    }
  }

  lemma ExtendRun(states: seq<System>, events: seq<Event>, broken: set<nat>, e: Event,
                  views: map<NodeId, View>, live: set<NodeId>, rest: multiset<Envelope>, effect: Effect)
    returns (states': seq<System>, events': seq<Event>)
    requires RunExcept(states, events, broken) && LeadsTo(states, views, live, Taken(e) + rest)
    requires !e.Lose? && !e.Crash? && Target(e) in live && (e.Deliver? ==> !e.envelope.StartResult?)
    requires Target(e) in views && Respond(views[Target(e)], e) == effect && effect.view.id == Target(e)
    requires Kept(views[Target(e)], views.Keys, live, e) || |events| in broken
    ensures events' == events + [e] && states <= states' && RunExcept(states', events', broken)
    ensures LeadsTo(states', views[Target(e) := effect.view], live, rest + effect.sent)
  {
    var s := states[|events|];
    Move(s, e, views, live, rest, effect);
    assert Moves(s, e, Next(s, e), |events| in broken);
    Append(states, events, broken, e, Next(s, e));
    states', events' := states + [Next(s, e)], events + [e];
  }

  lemma UnbrokenSoFar(states: seq<System>, events: seq<Event>, broken: set<nat>)
    requires RunExcept(states, events, broken) && forall i :: i in broken ==> i >= |events|
    ensures Run(states, events)
  {
    forall i | 0 <= i < |events|
      ensures Step(states[i], events[i], states[i + 1])
    {
      assert Moves(states[i], events[i], states[i + 1], false);
    }
  }

  lemma ExtendCrash(states: seq<System>, events: seq<Event>, broken: set<nat>, n: NodeId,
                    views: map<NodeId, View>, live: set<NodeId>, net: multiset<Envelope>)
    returns (states': seq<System>, events': seq<Event>)
    requires RunExcept(states, events, broken) && LeadsTo(states, views, live, net) && n in live
    ensures events' == events + [Crash(n)] && states <= states' && RunExcept(states', events', broken)
    ensures LeadsTo(states', views, live - {n}, net)
  {
    var s := states[|events|];
    Append(states, events, broken, Crash(n), Next(s, Crash(n)));
    states', events' := states + [Next(s, Crash(n))], events + [Crash(n)];
  }

  /** The removal of a crashed node reaches a manager that misses an acknowledgement; so no start of its is in
      progress, provided that the run has kept every promise so far. */
  lemma ExtendRemoval(states: seq<System>, events: seq<Event>, broken: set<nat>, n: NodeId, other: NodeId,
                      views: map<NodeId, View>, live: set<NodeId>, rest: multiset<Envelope>, effect: Effect)
    returns (states': seq<System>, events': seq<Event>)
    requires RunExcept(states, events, broken) && LeadsTo(states, views, live, rest)
    requires forall i :: i in broken ==> i >= |events|
    requires n in live && n in views && other !in live
    requires views[n].state.Starting? && views[n].state.acks != views[n].managers
    requires OnNodeRemoved(views[n], other) == effect && effect.view.id == n
    ensures events' == events + [NodeRemoved(n, other)] && states <= states' && RunExcept(states', events', broken)
    ensures LeadsTo(states', views[n := effect.view], live, rest + effect.sent)
  {
    var s, e := states[|events|], NodeRemoved(n, other);
    assert Taken(e) + rest == rest;
    Move(s, e, views, live, rest, effect);
    UnbrokenSoFar(states, events, broken);
    RunInv(states, events, |events|);
    assert NodeOk(s, n);
    Append(states, events, broken, e, Next(s, e));
    states', events' := states + [Next(s, e)], events + [e];
  }

  lemma ToOnePeer(kind: Kind, src: NodeId, dst: NodeId)
    ensures Broadcast(kind, src, {dst}) == multiset{Wrap(kind, src, dst)}
  {
    assert (set d | d in {dst} :: Wrap(kind, src, d)) == {Wrap(kind, src, dst)};
  }

  lemma ToTwoPeers(kind: Kind, src: NodeId, d: NodeId, d': NodeId)
    requires d != d'
    ensures Broadcast(kind, src, {d, d'}) == multiset{Wrap(kind, src, d), Wrap(kind, src, d')}
  {
    assert (set x | x in {d, d'} :: Wrap(kind, src, x)) == {Wrap(kind, src, d), Wrap(kind, src, d')};
  }
}
