/** Runs that show why the lease protocol needs two of the promises in `LeaseProtocol.Admissible`:
    each breaks one promise, once, and ends with two live managers `Running`. */
module LeaseLimits {
  import opened Prelude
  import opened LeaseManager
  import opened LeaseProtocol
  import opened LeaseRuns

  function Two(a: View, b: View): map<NodeId, View> {
    map[0 := a, 1 := b]
  }

  /** Live nodes 0 and 1 end in these states, with at least these envelopes in flight. */
  ghost predicate EndsWith(states: seq<System>, a: View, b: View, net: multiset<Envelope>) {
    LeadsTo(states, Two(a, b), {0, 1}, net)
  }

  lemma Turn(a: View, b: View, v: View)
    ensures Two(a, b)[0 := v] == Two(v, b) && Two(a, b)[1 := v] == Two(a, v) && Two(a, b).Keys == {0, 1}
  {
  }

  lemma Extend(states: seq<System>, events: seq<Event>, broken: set<nat>, e: Event,
               a: View, b: View, rest: multiset<Envelope>, effect: Effect)
    returns (states': seq<System>, events': seq<Event>)
    requires RunExcept(states, events, broken) && EndsWith(states, a, b, Taken(e) + rest)
    requires !e.Lose? && !e.Crash? && Target(e) in {0, 1} && (e.Deliver? ==> !e.envelope.StartResult?)
    requires Respond(if Target(e) == 0 then a else b, e) == effect && effect.view.id == Target(e)
    requires Kept(if Target(e) == 0 then a else b, {0, 1}, {0, 1}, e) || |events| in broken
    ensures events' == events + [e] && states <= states' && RunExcept(states', events', broken)
    ensures EndsWith(states', if Target(e) == 0 then effect.view else a, if Target(e) == 1 then effect.view else b,
                     rest + effect.sent)
  {
    Turn(a, b, effect.view);
    states', events' := ExtendRun(states, events, broken, e, Two(a, b), {0, 1}, rest, effect);
  }

  lemma TwoJoining(broken: set<nat>) returns (states: seq<System>, events: seq<Event>)
    ensures events == [] && RunExcept(states, events, broken)
    ensures EndsWith(states, View(0, Joining(None), {}), View(1, Joining(None), {}), multiset{})
  {
    var views := map[0 := View(0, Joining(None), {}), 1 := View(1, Joining(None), {})];
    states := [System(views, multiset{}, {0, 1}, map[0 := Tally(0, 0, 0), 1 := Tally(0, 0, 0)])];
    events := [];
  }

  /** What each manager does on each event of the runs. */
  lemma Opening()
    ensures Respond(View(0, Joining(None), {}), MemberUp(0, 0, {0, 1}))
         == Effect(View(0, Starting({}), {1}), multiset{Request(0, 1)}, true)
    ensures Respond(View(1, Joining(None), {}), MemberUp(1, 0, {0, 1})) == Effect(View(1, Idle, {0}), multiset{}, false)
  {
    ToOnePeer(RequestKind, 0, 1);
    var joined, none: set<NodeId> := {0, 1}, {};
    assert none + (joined - {0}) == {1} && none + (joined - {1}) == {0};
  }

  lemma Agreement()
    ensures Respond(View(1, Idle, {0}), Deliver(Request(0, 1))) == Effect(View(1, Idle, {0}), multiset{Ack(1, 0)}, false)
    ensures Respond(View(0, Starting({}), {1}), Deliver(Ack(1, 0)))
         == Effect(View(0, Starting({1}), {1}), multiset{StartResult(0)}, false)
  {
    assert {} + {1} == {1} && |{1}| == 1;
  }

  lemma StartSucceeds()
    ensures Respond(View(0, Starting({1}), {1}), Complete(0, true))
         == Effect(View(0, Running, {1}), multiset{StartedNotice(0, 1)}, false)
  {
    ToOnePeer(StartedKind, 0, 1);
  }

  lemma OtherAsks()
    ensures Respond(View(1, Idle, {0}), LeaderChanged(1, 1))
         == Effect(View(1, Starting({}), {0}), multiset{Request(1, 0)}, true)
  {
    ToOnePeer(RequestKind, 1, 0);
  }

  lemma RunnerStops()
    ensures Respond(View(0, Running, {1}), Deliver(Request(1, 0)))
         == Effect(View(0, Stopping(1), {1}), multiset{StoppedNotice(0, 1)}, false)
  {
    ToOnePeer(StoppedKind, 0, 1);
  }

  lemma Yields()
    ensures Respond(View(0, Stopping(1), {1}), ChildStopped(0)) == Effect(View(0, Idle, {1}), multiset{Ack(0, 1)}, false)
    ensures Respond(View(0, Idle, {1}), Deliver(Request(1, 0))) == Effect(View(0, Idle, {1}), multiset{Ack(0, 1)}, false)
  {
  }

  lemma Closing()
    ensures Respond(View(1, Starting({}), {0}), Deliver(Ack(0, 1)))
         == Effect(View(1, Starting({0}), {0}), multiset{StartResult(1)}, false)
    ensures Respond(View(1, Starting({0}), {0}), Complete(1, true))
         == Effect(View(1, Running, {0}), multiset{StartedNotice(1, 0)}, false)
    ensures Respond(View(0, Idle, {1}), Complete(0, true))
         == Effect(View(0, Running, {1}), multiset{StartedNotice(0, 1)}, false)
  {
    ToOnePeer(StartedKind, 1, 0);
    ToOnePeer(StartedKind, 0, 1);
  }

  lemma Surprises()
    ensures Respond(View(0, Starting({1}), {1}), NodeRemoved(0, 2))
         == Effect(View(0, Starting({1}), {1}), multiset{StartResult(0)}, false)
    ensures Respond(View(0, Starting({1}), {1}), MemberUp(0, 1, {0, 1})) == Effect(View(0, Idle, {1}), multiset{}, false)
  {
    assert {1} - {2} == {1} && {1} + ({0, 1} - {0}) == {1};
  }

  /** Both managers come up, and node 0, told that it leads, asks node 1 for the lease. */
  lemma ComeUp(broken: set<nat>) returns (states: seq<System>, events: seq<Event>)
    requires broken !! {0, 1}
    ensures |events| == 2 && RunExcept(states, events, broken)
    ensures EndsWith(states, View(0, Starting({}), {1}), View(1, Idle, {0}), multiset{Request(0, 1)})
  {
    Opening();
    var a, b := View(0, Joining(None), {}), View(1, Joining(None), {});
    states, events := TwoJoining(broken);
    var asking := Effect(View(0, Starting({}), {1}), multiset{Request(0, 1)}, true);
    states, events := Extend(states, events, broken, MemberUp(0, 0, {0, 1}), a, b, multiset{}, asking);
    states, events := Extend(states, events, broken, MemberUp(1, 0, {0, 1}), asking.view, b,
                             multiset{Request(0, 1)}, Effect(View(1, Idle, {0}), multiset{}, false));
  }

  /** Node 1 acknowledges, and node 0's start is in progress. */
  lemma FirstRound(broken: set<nat>) returns (states: seq<System>, events: seq<Event>)
    requires broken !! {0, 1, 2, 3}
    ensures |events| == 4 && RunExcept(states, events, broken)
    ensures EndsWith(states, View(0, Starting({1}), {1}), View(1, Idle, {0}), multiset{StartResult(0)})
  {
    Agreement();
    var a, b := View(0, Starting({}), {1}), View(1, Idle, {0});
    states, events := ComeUp(broken);
    states, events := Extend(states, events, broken, Deliver(Request(0, 1)), a, b, multiset{},
                             Effect(b, multiset{Ack(1, 0)}, false));
    states, events := Extend(states, events, broken, Deliver(Ack(1, 0)), a, b, multiset{},
                             Effect(View(0, Starting({1}), {1}), multiset{StartResult(0)}, false));
  }

  /** Node 0 has let node 1 have the lease, but a start of its own is still in progress. */
  lemma LastRound(states: seq<System>, events: seq<Event>, broken: set<nat>)
    returns (states': seq<System>, events': seq<Event>)
    requires RunExcept(states, events, broken)
    requires EndsWith(states, View(0, Idle, {1}), View(1, Starting({}), {0}), multiset{Ack(0, 1), StartResult(0)})
    ensures RunExcept(states', events', broken)
    ensures EndsWith(states', View(0, Running, {1}), View(1, Running, {0}), multiset{})
  {
    Closing();
    var a, b := View(0, Idle, {1}), View(1, Running, {0});
    var ready := Effect(View(1, Starting({0}), {0}), multiset{StartResult(1)}, false);
    states', events' := Extend(states, events, broken, Deliver(Ack(0, 1)), a, View(1, Starting({}), {0}),
                               multiset{StartResult(0)}, ready);
    states', events' := Extend(states', events', broken, Complete(1, true), a, ready.view,
                               multiset{StartResult(0)}, Effect(b, multiset{StartedNotice(1, 0)}, false));
    states', events' := Extend(states', events', broken, Complete(0, true), a, b,
                               multiset{}, Effect(View(0, Running, {1}), multiset{StartedNotice(0, 1)}, false));
  }

  lemma RemovalDuringStart() returns (states: seq<System>, events: seq<Event>)
    ensures |events| == 5 && RunExcept(states, events, {4})
    ensures EndsWith(states, View(0, Starting({1}), {1}), View(1, Idle, {0}), multiset{StartResult(0)} + multiset{StartResult(0)})
  {
    Surprises();
    var a, b := View(0, Starting({1}), {1}), View(1, Idle, {0});
    states, events := FirstRound({4});
    states, events := Extend(states, events, {4}, NodeRemoved(0, 2), a, b, multiset{StartResult(0)},
                             Effect(a, multiset{StartResult(0)}, false));
  }

  lemma FirstOfTwo() returns (states: seq<System>, events: seq<Event>)
    ensures RunExcept(states, events, {4})
    ensures EndsWith(states, View(0, Running, {1}), View(1, Idle, {0}), multiset{StartResult(0), StartedNotice(0, 1)})
  {
    StartSucceeds();
    states, events := RemovalDuringStart();
    states, events := Extend(states, events, {4}, Complete(0, true), View(0, Starting({1}), {1}), View(1, Idle, {0}),
                             multiset{StartResult(0)}, Effect(View(0, Running, {1}), multiset{StartedNotice(0, 1)}, false));
    assert multiset{StartResult(0)} + multiset{StartedNotice(0, 1)} == multiset{StartResult(0), StartedNotice(0, 1)};
  }

  lemma Takeover() returns (states: seq<System>, events: seq<Event>)
    ensures RunExcept(states, events, {4})
    ensures EndsWith(states, View(0, Running, {1}), View(1, Starting({}), {0}), multiset{StartResult(0), Request(1, 0)})
  {
    OtherAsks();
    states, events := FirstOfTwo();
    states, events := Extend(states, events, {4}, LeaderChanged(1, 1), View(0, Running, {1}), View(1, Idle, {0}),
                             multiset{StartResult(0)}, Effect(View(1, Starting({}), {0}), multiset{Request(1, 0)}, true));
    assert multiset{StartResult(0)} + multiset{Request(1, 0)} == multiset{StartResult(0), Request(1, 0)};
  }

  lemma StopsWithSecondStart() returns (states: seq<System>, events: seq<Event>)
    ensures RunExcept(states, events, {4})
    ensures EndsWith(states, View(0, Stopping(1), {1}), View(1, Starting({}), {0}), multiset{StartResult(0), StoppedNotice(0, 1)})
  {
    RunnerStops();
    states, events := Takeover();
    assert Taken(Deliver(Request(1, 0))) + multiset{StartResult(0)} == multiset{StartResult(0), Request(1, 0)};
    states, events := Extend(states, events, {4}, Deliver(Request(1, 0)), View(0, Running, {1}), View(1, Starting({}), {0}),
                             multiset{StartResult(0)}, Effect(View(0, Stopping(1), {1}), multiset{StoppedNotice(0, 1)}, false));
    assert multiset{StartResult(0)} + multiset{StoppedNotice(0, 1)} == multiset{StartResult(0), StoppedNotice(0, 1)};
  }

  /** A removal notice that reaches a manager whose start is in progress launches a second start.
      (Node 2 is not a manager: the handler repeats the count test whoever left.)  The second result
      overwrites whatever state the manager has reached by then. */
  lemma RemovalDuringStartBreaksExclusion() returns (states: seq<System>, events: seq<Event>)
    ensures RunExcept(states, events, {4})
    ensures EndsWith(states, View(0, Running, {1}), View(1, Running, {0}), multiset{})
  {
    Yields();
    states, events := StopsWithSecondStart();
    states, events := Extend(states, events, {4}, ChildStopped(0), View(0, Stopping(1), {1}), View(1, Starting({}), {0}),
                             multiset{StartResult(0)}, Effect(View(0, Idle, {1}), multiset{Ack(0, 1)}, false));
    assert multiset{StartResult(0)} + multiset{Ack(0, 1)} == multiset{Ack(0, 1), StartResult(0)};
    states, events := LastRound(states, events, {4});
  }

  lemma BackToIdle() returns (states: seq<System>, events: seq<Event>)
    ensures |events| == 5 && RunExcept(states, events, {4})
    ensures EndsWith(states, View(0, Idle, {1}), View(1, Idle, {0}), multiset{StartResult(0)})
  {
    Surprises();
    states, events := FirstRound({4});
    states, events := Extend(states, events, {4}, MemberUp(0, 1, {0, 1}), View(0, Starting({1}), {1}), View(1, Idle, {0}),
                             multiset{StartResult(0)}, Effect(View(0, Idle, {1}), multiset{}, false));
  }

  lemma AsksTheIdle() returns (states: seq<System>, events: seq<Event>)
    ensures RunExcept(states, events, {4})
    ensures EndsWith(states, View(0, Idle, {1}), View(1, Starting({}), {0}), multiset{StartResult(0), Request(1, 0)})
  {
    OtherAsks();
    states, events := BackToIdle();
    assert Taken(LeaderChanged(1, 1)) + multiset{StartResult(0)} == multiset{StartResult(0)};
    states, events := Extend(states, events, {4}, LeaderChanged(1, 1), View(0, Idle, {1}), View(1, Idle, {0}),
                             multiset{StartResult(0)}, Effect(View(1, Starting({}), {0}), multiset{Request(1, 0)}, true));
    assert multiset{StartResult(0)} + multiset{Request(1, 0)} == multiset{StartResult(0), Request(1, 0)};
  }

  /** A second `MemberUp` puts a manager whose start is in progress back to `Idle`.  The input exists at the
      manager only: `Heartbeat.MemberUpComesOnce` proves that a heartbeat never publishes it twice. */
  lemma SecondMemberUpBreaksExclusion() returns (states: seq<System>, events: seq<Event>)
    ensures RunExcept(states, events, {4})
    ensures EndsWith(states, View(0, Running, {1}), View(1, Running, {0}), multiset{})
  {
    Yields();
    var a := View(0, Idle, {1});
    states, events := AsksTheIdle();
    assert Taken(Deliver(Request(1, 0))) + multiset{StartResult(0)} == multiset{StartResult(0), Request(1, 0)};
    states, events := Extend(states, events, {4}, Deliver(Request(1, 0)), a, View(1, Starting({}), {0}),
                             multiset{StartResult(0)}, Effect(a, multiset{Ack(0, 1)}, false));
    assert multiset{StartResult(0)} + multiset{Ack(0, 1)} == multiset{Ack(0, 1), StartResult(0)};
    states, events := LastRound(states, events, {4});
  }

  /** The count test is fooled, launching a start that a known manager has not agreed to, exactly when the
      acknowledgement comes from outside the known managers and is the last one missing by number. */
  lemma StrayAckFoolsCountIff(v: View, src: NodeId)
    requires v.state.Starting? && v.state.acks <= v.managers
    ensures
      var fooled := OnAck(v, src).sent == multiset{StartResult(v.id)} && !(v.managers <= v.state.acks + {src});
      fooled <==> src !in v.managers && |v.state.acks| + 1 == |v.managers|
  {
    var acks := v.state.acks + {src};
    if src in v.managers {
      CountMeansAll(acks, v.managers);
    } else {
      assert |acks| == |v.state.acks| + 1;
      assert v.managers <= acks ==> v.managers == v.state.acks;
    }
  }

  /** A removal notice launches a start exactly when nobody but the removed node was missing, whether or not
      the start is in progress already; if everybody had acknowledged before, it is the second one. */
  lemma RemovalLaunchesIff(v: View, node: NodeId)
    requires v.state.Starting? && v.state.acks <= v.managers
    ensures OnNodeRemoved(v, node).sent == multiset{StartResult(v.id)} <==> v.managers <= v.state.acks + {node}
    ensures v.state.acks == v.managers ==> OnNodeRemoved(v, node).sent == multiset{StartResult(v.id)}
  {
    var acks, managers := v.state.acks - {node}, v.managers - {node};
    CountMeansAll(acks, managers);
    if v.managers <= v.state.acks + {node} {
      assert acks == managers;
    } else {
      var m :| m in v.managers && m !in v.state.acks + {node};
      assert m in managers && m !in acks;
    }
  }
}
