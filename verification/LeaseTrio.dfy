/** Runs of three managers.  One breaks the promise about acknowledgements; the other keeps every promise and
    still ends with two managers that have an actor, one of them stopping. */
module LeaseTrio {
  import opened Prelude
  import opened LeaseManager
  import opened LeaseProtocol
  import opened LeaseRuns

  function Three(a: View, b: View, c: View): map<NodeId, View> {
    map[0 := a, 1 := b, 2 := c]
  }

  const ALL: set<NodeId> := {0, 1, 2}

  /** The three managers end in these states, with these envelopes, among others, in flight. */
  ghost predicate Ends(states: seq<System>, a: View, b: View, c: View, live: set<NodeId>, net: set<Envelope>) {
    LeadsTo(states, Three(a, b, c), live, multiset(net))
  }

  function Pick(n: NodeId, a: View, b: View, c: View): View {
    if n == 0 then a else if n == 1 then b else c
  }

  lemma Turn(a: View, b: View, c: View, v: View)
    ensures Three(a, b, c)[0 := v] == Three(v, b, c)
    ensures Three(a, b, c)[1 := v] == Three(a, v, c)
    ensures Three(a, b, c)[2 := v] == Three(a, b, v)
    ensures Three(a, b, c).Keys == ALL
  {
  }

  /** `net` becomes `net'` when the one envelope of `taken` leaves and those of `sent` enter. */
  predicate Flows(net: set<Envelope>, taken: multiset<Envelope>, sent: multiset<Envelope>, net': set<Envelope>) {
    && (forall x :: x in taken ==> x in net)
    && (forall x :: x in net' ==> x in sent || (x in net && x !in taken))
  }

  lemma FlowsIn(net: set<Envelope>, e: Event, sent: multiset<Envelope>, net': set<Envelope>)
    requires Flows(net, Taken(e), sent, net')
    ensures
      var rest := multiset(net) - Taken(e);
      Taken(e) + rest == multiset(net) && multiset(net') <= rest + sent
  {
    var rest := multiset(net) - Taken(e);
    forall x
      ensures multiset(net')[x] <= (rest + sent)[x]
    {
      if x in net' && x !in sent {
        assert rest[x] == 1;
      }
    }
  }

  /** A handler runs; `net` and `net'` are in flight before and after. */
  lemma Extend(states: seq<System>, events: seq<Event>, broken: set<nat>, e: Event,
               a: View, b: View, c: View, live: set<NodeId>, net: set<Envelope>, effect: Effect, net': set<Envelope>)
    returns (states': seq<System>, events': seq<Event>)
    requires RunExcept(states, events, broken) && Ends(states, a, b, c, live, net) && live <= ALL
    requires Flows(net, Taken(e), effect.sent, net')
    requires !e.Lose? && !e.Crash? && Target(e) in live && (e.Deliver? ==> !e.envelope.StartResult?)
    requires Respond(Pick(Target(e), a, b, c), e) == effect && effect.view.id == Target(e)
    requires Kept(Pick(Target(e), a, b, c), ALL, live, e) || |events| in broken
    ensures events' == events + [e] && states <= states' && RunExcept(states', events', broken)
    ensures
      var n, v := Target(e), effect.view;
      Ends(states', if n == 0 then v else a, if n == 1 then v else b, if n == 2 then v else c, live, net')
  {
    Turn(a, b, c, effect.view);
    FlowsIn(net, e, effect.sent, net');
    states', events' := ExtendRun(states, events, broken, e, Three(a, b, c), live, multiset(net) - Taken(e), effect);
  }

  lemma ThreeJoining(broken: set<nat>) returns (states: seq<System>, events: seq<Event>)
    ensures events == [] && RunExcept(states, events, broken)
    ensures Ends(states, View(0, Joining(None), {}), View(1, Joining(None), {}), View(2, Joining(None), {}), ALL, {})
  {
    var views := Three(View(0, Joining(None), {}), View(1, Joining(None), {}), View(2, Joining(None), {}));
    states := [System(views, multiset{}, ALL, map[0 := Tally(0, 0, 0), 1 := Tally(0, 0, 0), 2 := Tally(0, 0, 0)])];
    events := [];
  }

  lemma ComesUp(n: NodeId, leader: NodeId, d: NodeId, d': NodeId)
    requires ALL - {n} == {d, d'} && d != d' && n != d && n != d'
    ensures Respond(View(n, Joining(None), {}), MemberUp(n, leader, ALL))
         == if leader == n then Effect(View(n, Starting({}), {d, d'}), multiset{Request(n, d), Request(n, d')}, true)
            else Effect(View(n, Idle, {d, d'}), multiset{}, false)
  {
    ToTwoPeers(RequestKind, n, d, d');
    var none: set<NodeId> := {};
    assert none + (ALL - {n}) == {d, d'};
  }

  lemma Asks(n: NodeId, d: NodeId, d': NodeId)
    requires n != d && n != d' && d != d'
    ensures Respond(View(n, Idle, {d, d'}), LeaderChanged(n, n))
         == Effect(View(n, Starting({}), {d, d'}), multiset{Request(n, d), Request(n, d')}, true)
  {
    ToTwoPeers(RequestKind, n, d, d');
  }

  lemma Acknowledges(v: View, src: NodeId)
    requires (v.state.Idle? || v.state.Stopping?) && src in v.managers
    ensures Respond(v, Deliver(Request(src, v.id))) == Effect(v, multiset{Ack(v.id, src)}, false)
  {
  }

  /** Node 1 leads and asks; the others are idle. */
  lemma FirstLeads(broken: set<nat>) returns (states: seq<System>, events: seq<Event>)
    requires broken !! {0, 1, 2}
    ensures |events| == 3 && RunExcept(states, events, broken)
    ensures Ends(states, View(0, Idle, {1, 2}), View(1, Starting({}), {0, 2}), View(2, Idle, {0, 1}), ALL,
                 {Request(1, 0), Request(1, 2)})
  {
    var a, b, c := View(0, Joining(None), {}), View(1, Joining(None), {}), View(2, Joining(None), {});
    states, events := ThreeJoining(broken);
    ComesUp(0, 1, 1, 2);
    states, events := Extend(states, events, broken, MemberUp(0, 1, ALL), a, b, c, ALL, {},
                             Effect(View(0, Idle, {1, 2}), multiset{}, false), {});
    states, events := SecondComesUp(states, events, broken);
  }

  lemma SecondComesUp(states: seq<System>, events: seq<Event>, broken: set<nat>)
    returns (states': seq<System>, events': seq<Event>)
    requires broken !! {1, 2} && |events| == 1 && RunExcept(states, events, broken)
    requires Ends(states, View(0, Idle, {1, 2}), View(1, Joining(None), {}), View(2, Joining(None), {}), ALL, {})
    ensures |events'| == 3 && RunExcept(states', events', broken)
    ensures Ends(states', View(0, Idle, {1, 2}), View(1, Starting({}), {0, 2}), View(2, Idle, {0, 1}), ALL,
                 {Request(1, 0), Request(1, 2)})
  {
    var a, b, c := View(0, Idle, {1, 2}), View(1, Joining(None), {}), View(2, Joining(None), {});
    ComesUp(1, 1, 0, 2);
    var asking := Effect(View(1, Starting({}), {0, 2}), multiset{Request(1, 0), Request(1, 2)}, true);
    states', events' := Extend(states, events, broken, MemberUp(1, 1, ALL), a, b, c, ALL, {}, asking, {Request(1, 0), Request(1, 2)});
    ComesUp(2, 1, 0, 1);
    states', events' := Extend(states', events', broken, MemberUp(2, 1, ALL), a, asking.view, c, ALL, {Request(1, 0), Request(1, 2)},
                               Effect(View(2, Idle, {0, 1}), multiset{}, false), {Request(1, 0), Request(1, 2)});
  }

  // ---------------------------------------------------------------------------------------------
  // A late acknowledgement from a removed node

  lemma FirstAnswer(broken: set<nat>) returns (states: seq<System>, events: seq<Event>)
    requires broken !! {0, 1, 2, 3}
    ensures |events| == 4 && RunExcept(states, events, broken)
    ensures Ends(states, View(0, Idle, {1, 2}), View(1, Starting({}), {0, 2}), View(2, Idle, {0, 1}), ALL,
                 {Request(1, 2), Ack(0, 1)})
  {
    var a, b, c := View(0, Idle, {1, 2}), View(1, Starting({}), {0, 2}), View(2, Idle, {0, 1});
    states, events := FirstLeads(broken);
    Acknowledges(a, 1);
    states, events := Extend(states, events, broken, Deliver(Request(1, 0)), a, b, c, ALL,
                             {Request(1, 0), Request(1, 2)}, Effect(a, multiset{Ack(0, 1)}, false),
                             {Request(1, 2), Ack(0, 1)});
  }

  /** An idle manager is told that it leads. */
  lemma IsToldToLead(states: seq<System>, events: seq<Event>, broken: set<nat>, n: NodeId, d: NodeId, d': NodeId,
                     a: View, b: View, c: View, net: set<Envelope>)
    returns (states': seq<System>, events': seq<Event>)
    requires RunExcept(states, events, broken) && Ends(states, a, b, c, ALL, net)
    requires n in ALL && Pick(n, a, b, c) == View(n, Idle, {d, d'}) && n != d && n != d' && d != d'
    ensures |events'| == |events| + 1 && RunExcept(states', events', broken)
    ensures
      var v := View(n, Starting({}), {d, d'});
      Ends(states', if n == 0 then v else a, if n == 1 then v else b, if n == 2 then v else c, ALL,
           net + {Request(n, d), Request(n, d')})
  {
    Asks(n, d, d');
    states', events' := Extend(states, events, broken, LeaderChanged(n, n), a, b, c, ALL, net,
                               Effect(View(n, Starting({}), {d, d'}), multiset{Request(n, d), Request(n, d')}, true),
                               net + {Request(n, d), Request(n, d')});
  }

  /** Fewer envelopes are in flight as well. */
  lemma Fewer(states: seq<System>, a: View, b: View, c: View, live: set<NodeId>, net: set<Envelope>, net': set<Envelope>)
    requires Ends(states, a, b, c, live, net) && net' <= net
    ensures Ends(states, a, b, c, live, net')
  {
    assert multiset(net') <= multiset(net);
  }

  /** Node 0 asks for the lease itself. */
  lemma SecondAsks() returns (states: seq<System>, events: seq<Event>)
    ensures |events| == 5 && RunExcept(states, events, {11})
    ensures Ends(states, View(0, Starting({}), {1, 2}), View(1, Starting({}), {0, 2}), View(2, Idle, {0, 1}), ALL,
                 {Ack(0, 1), Request(0, 2)})
  {
    var a, b, c := View(0, Idle, {1, 2}), View(1, Starting({}), {0, 2}), View(2, Idle, {0, 1});
    states, events := FirstAnswer({11});
    states, events := IsToldToLead(states, events, {11}, 0, 1, 2, a, b, c, {Request(1, 2), Ack(0, 1)});
    Fewer(states, View(0, Starting({}), {1, 2}), b, c, ALL, {Request(1, 2), Ack(0, 1)} + {Request(0, 1), Request(0, 2)},
          {Ack(0, 1), Request(0, 2)});
  }

  /** Node 2 acknowledges it. */
  lemma ThirdAnswers() returns (states: seq<System>, events: seq<Event>)
    ensures |events| == 6 && RunExcept(states, events, {11})
    ensures Ends(states, View(0, Starting({}), {1, 2}), View(1, Starting({}), {0, 2}), View(2, Idle, {0, 1}), ALL,
                 {Ack(0, 1), Ack(2, 0)})
  {
    var a, b, c := View(0, Starting({}), {1, 2}), View(1, Starting({}), {0, 2}), View(2, Idle, {0, 1});
    states, events := SecondAsks();
    Acknowledges(c, 0);
    states, events := Extend(states, events, {11}, Deliver(Request(0, 2)), a, b, c, ALL,
                             {Ack(0, 1), Request(0, 2)}, Effect(c, multiset{Ack(2, 0)}, false),
                             {Ack(0, 1), Ack(2, 0)});
  }

  lemma Forgets(n: NodeId, d: NodeId)
    requires n != d && d != 2
    ensures OnNodeRemoved(View(n, Starting({}), {d, 2}), 2) == Effect(View(n, Starting({}), {d}), multiset{}, false)
  {
    assert {d, 2} - {2} == {d} && {} - {2} == {} && |{d}| == 1;
  }

  /** Node 2 crashes, and node 0 is told. */
  lemma ThirdCrashes() returns (states: seq<System>, events: seq<Event>)
    ensures |events| == 8 && RunExcept(states, events, {11})
    ensures Ends(states, View(0, Starting({}), {1}), View(1, Starting({}), {0, 2}), View(2, Idle, {0, 1}), {0, 1},
                 {Ack(0, 1), Ack(2, 0)})
  {
    var a, b, c := View(0, Starting({}), {1, 2}), View(1, Starting({}), {0, 2}), View(2, Idle, {0, 1});
    var net := multiset({Ack(0, 1), Ack(2, 0)});
    states, events := ThirdAnswers();
    states, events := ExtendCrash(states, events, {11}, 2, Three(a, b, c), ALL, net);
    assert ALL - {2} == {0, 1};
    Forgets(0, 1);
    Turn(a, b, c, View(0, Starting({}), {1}));
    states, events := ExtendRemoval(states, events, {11}, 0, 2, Three(a, b, c), {0, 1}, net,
                                    Effect(View(0, Starting({}), {1}), multiset{}, false));
    assert net + multiset{} == net;
  }

  /** So is node 1. */
  lemma ThirdIsRemoved() returns (states: seq<System>, events: seq<Event>)
    ensures |events| == 9 && RunExcept(states, events, {11})
    ensures Ends(states, View(0, Starting({}), {1}), View(1, Starting({}), {0}), View(2, Idle, {0, 1}), {0, 1},
                 {Ack(0, 1), Ack(2, 0)})
  {
    var a, b, c := View(0, Starting({}), {1}), View(1, Starting({}), {0, 2}), View(2, Idle, {0, 1});
    var net := multiset({Ack(0, 1), Ack(2, 0)});
    states, events := ThirdCrashes();
    Forgets(1, 0);
    Turn(a, b, c, View(1, Starting({}), {0}));
    states, events := ExtendRemoval(states, events, {11}, 1, 2, Three(a, b, c), {0, 1}, net,
                                    Effect(View(1, Starting({}), {0}), multiset{}, false));
    assert net + multiset{} == net;
  }

  lemma Completes(n: NodeId, d: NodeId, src: NodeId)
    ensures Respond(View(n, Starting({}), {d}), Deliver(Ack(src, n)))
         == Effect(View(n, Starting({src}), {d}), multiset{StartResult(n)}, false)
    ensures Respond(View(n, Starting({src}), {d}), Complete(n, true))
         == Effect(View(n, Running, {d}), multiset{StartedNotice(n, d)}, false)
  {
    assert {} + {src} == {src} && |{src}| == 1 && |{d}| == 1;
    ToOnePeer(StartedKind, n, d);
  }

  /** Node 1 runs with node 0's agreement. */
  lemma FirstRuns() returns (states: seq<System>, events: seq<Event>)
    ensures |events| == 11 && RunExcept(states, events, {11})
    ensures Ends(states, View(0, Starting({}), {1}), View(1, Running, {0}), View(2, Idle, {0, 1}), {0, 1}, {Ack(2, 0)})
  {
    var a, b, c := View(0, Starting({}), {1}), View(1, Starting({}), {0}), View(2, Idle, {0, 1});
    states, events := ThirdIsRemoved();
    Completes(1, 0, 0);
    var ready := Effect(View(1, Starting({0}), {0}), multiset{StartResult(1)}, false);
    states, events := Extend(states, events, {11}, Deliver(Ack(0, 1)), a, b, c, {0, 1},
                             {Ack(0, 1), Ack(2, 0)}, ready, {Ack(2, 0), StartResult(1)});
    states, events := Extend(states, events, {11}, Complete(1, true), a, ready.view, c, {0, 1},
                             {Ack(2, 0), StartResult(1)},
                             Effect(View(1, Running, {0}), multiset{StartedNotice(1, 0)}, false), {Ack(2, 0)});
  }

  /** The acknowledgement of a node that was removed makes up the count, and node 0 runs without the agreement
      of node 1, which is running. */
  lemma StrayAckBreaksExclusion() returns (states: seq<System>, events: seq<Event>)
    ensures RunExcept(states, events, {11}) && |events| == 13 && events[11] == Deliver(Ack(2, 0))
    ensures Ends(states, View(0, Running, {1}), View(1, Running, {0}), View(2, Idle, {0, 1}), {0, 1}, {})
  {
    var a, b, c := View(0, Starting({}), {1}), View(1, Running, {0}), View(2, Idle, {0, 1});
    states, events := FirstRuns();
    Completes(0, 1, 2);
    var ready := Effect(View(0, Starting({2}), {1}), multiset{StartResult(0)}, false);
    states, events := Extend(states, events, {11}, Deliver(Ack(2, 0)), a, b, c, {0, 1},
                             {Ack(2, 0)}, ready, {StartResult(0)});
    states, events := Extend(states, events, {11}, Complete(0, true), ready.view, b, c, {0, 1}, {StartResult(0)},
                             Effect(View(0, Running, {1}), multiset{StartedNotice(0, 1)}, false), {});
  }

  // ---------------------------------------------------------------------------------------------
  // A stopping manager grants a second request

  lemma CollectsBoth(n: NodeId, d: NodeId, d': NodeId)
    requires d != d'
    ensures Respond(View(n, Starting({}), {d, d'}), Deliver(Ack(d, n)))
         == Effect(View(n, Starting({d}), {d, d'}), multiset{}, false)
    ensures Respond(View(n, Starting({d}), {d, d'}), Deliver(Ack(d', n)))
         == Effect(View(n, Starting({d, d'}), {d, d'}), multiset{StartResult(n)}, false)
    ensures Respond(View(n, Starting({d, d'}), {d, d'}), Complete(n, true))
         == Effect(View(n, Running, {d, d'}), multiset{StartedNotice(n, d), StartedNotice(n, d')}, false)
  {
    assert {} + {d} == {d} && {d} + {d'} == {d, d'} && |{d}| == 1 && |{d, d'}| == 2;
    ToTwoPeers(StartedKind, n, d, d');
  }

  /** A manager with two acknowledgements on their way to it runs. */
  lemma Runs(states: seq<System>, events: seq<Event>, n: NodeId, d: NodeId, d': NodeId, a: View, b: View, c: View)
    returns (states': seq<System>, events': seq<Event>)
    requires n in ALL && d != d' && Pick(n, a, b, c) == View(n, Starting({}), {d, d'})
    requires RunExcept(states, events, {}) && Ends(states, a, b, c, ALL, {Ack(d, n), Ack(d', n)})
    ensures RunExcept(states', events', {})
    ensures
      var v := View(n, Running, {d, d'});
      Ends(states', if n == 0 then v else a, if n == 1 then v else b, if n == 2 then v else c, ALL, {})
  {
    CollectsBoth(n, d, d');
    states', events' := Extend(states, events, {}, Deliver(Ack(d, n)), a, b, c, ALL, {Ack(d, n), Ack(d', n)},
                               Effect(View(n, Starting({d}), {d, d'}), multiset{}, false), {Ack(d', n)});
    states', events' := RunsOn(states', events', n, d, d', a, b, c);
  }

  lemma RunsOn(states: seq<System>, events: seq<Event>, n: NodeId, d: NodeId, d': NodeId, a: View, b: View, c: View)
    returns (states': seq<System>, events': seq<Event>)
    requires n in ALL && d != d' && RunExcept(states, events, {})
    requires
      var v := View(n, Starting({d}), {d, d'});
      Ends(states, if n == 0 then v else a, if n == 1 then v else b, if n == 2 then v else c, ALL, {Ack(d', n)})
    ensures RunExcept(states', events', {})
    ensures
      var v := View(n, Running, {d, d'});
      Ends(states', if n == 0 then v else a, if n == 1 then v else b, if n == 2 then v else c, ALL, {})
  {
    CollectsBoth(n, d, d');
    var v, w := View(n, Starting({d}), {d, d'}), View(n, Starting({d, d'}), {d, d'});
    states', events' := Extend(states, events, {}, Deliver(Ack(d', n)), if n == 0 then v else a, if n == 1 then v else b,
                               if n == 2 then v else c, ALL, {Ack(d', n)},
                               Effect(w, multiset{StartResult(n)}, false), {StartResult(n)});
    states', events' := Extend(states', events', {}, Complete(n, true), if n == 0 then w else a, if n == 1 then w else b,
                               if n == 2 then w else c, ALL, {StartResult(n)},
                               Effect(View(n, Running, {d, d'}), multiset{StartedNotice(n, d), StartedNotice(n, d')}, false),
                               {});
  }

  /** Node 1 runs with the agreement of both others. */
  lemma FirstRunsAlone() returns (states: seq<System>, events: seq<Event>)
    ensures RunExcept(states, events, {})
    ensures Ends(states, View(0, Idle, {1, 2}), View(1, Running, {0, 2}), View(2, Idle, {0, 1}), ALL, {})
  {
    var a, b, c := View(0, Idle, {1, 2}), View(1, Starting({}), {0, 2}), View(2, Idle, {0, 1});
    states, events := FirstAnswer({});
    Acknowledges(c, 1);
    states, events := Extend(states, events, {}, Deliver(Request(1, 2)), a, b, c, ALL,
                             {Request(1, 2), Ack(0, 1)}, Effect(c, multiset{Ack(2, 1)}, false),
                             {Ack(0, 1), Ack(2, 1)});
    states, events := Runs(states, events, 1, 0, 2, a, b, c);
  }

  /** Node 2 asks and has node 0's agreement. */
  lemma ThirdAsks() returns (states: seq<System>, events: seq<Event>)
    ensures RunExcept(states, events, {})
    ensures Ends(states, View(0, Idle, {1, 2}), View(1, Running, {0, 2}), View(2, Starting({}), {0, 1}), ALL,
                 {Ack(0, 2), Request(2, 1)})
  {
    var a, b, c := View(0, Idle, {1, 2}), View(1, Running, {0, 2}), View(2, Idle, {0, 1});
    states, events := FirstRunsAlone();
    states, events := IsToldToLead(states, events, {}, 2, 0, 1, a, b, c, {});
    Acknowledges(a, 2);
    states, events := Extend(states, events, {}, Deliver(Request(2, 0)), a, b, View(2, Starting({}), {0, 1}), ALL,
                             {} + {Request(2, 0), Request(2, 1)}, Effect(a, multiset{Ack(0, 2)}, false),
                             {Ack(0, 2), Request(2, 1)});
  }

  /** Then node 0 asks, and node 1 stops for it. */
  lemma FirstStops() returns (states: seq<System>, events: seq<Event>)
    ensures RunExcept(states, events, {})
    ensures Ends(states, View(0, Starting({}), {1, 2}), View(1, Stopping(0), {0, 2}), View(2, Starting({}), {0, 1}), ALL,
                 {Ack(0, 2), Request(2, 1)})
  {
    var a, b, c := View(0, Idle, {1, 2}), View(1, Running, {0, 2}), View(2, Starting({}), {0, 1});
    states, events := ThirdAsks();
    states, events := IsToldToLead(states, events, {}, 0, 1, 2, a, b, c, {Ack(0, 2), Request(2, 1)});
    Stops();
    states, events := Extend(states, events, {}, Deliver(Request(0, 1)), View(0, Starting({}), {1, 2}), b, c, ALL,
                             {Ack(0, 2), Request(2, 1)} + {Request(0, 1), Request(0, 2)},
                             Effect(View(1, Stopping(0), {0, 2}), multiset{StoppedNotice(1, 0), StoppedNotice(1, 2)}, false),
                             {Ack(0, 2), Request(2, 1)});
  }

  lemma Stops()
    ensures Respond(View(1, Running, {0, 2}), Deliver(Request(0, 1)))
         == Effect(View(1, Stopping(0), {0, 2}), multiset{StoppedNotice(1, 0), StoppedNotice(1, 2)}, false)
  {
    ToTwoPeers(StoppedKind, 1, 0, 2);
  }

  /** Node 1, stopping for node 0, grants the lease to node 2 as well. */
  lemma GrantsTwice() returns (states: seq<System>, events: seq<Event>)
    ensures RunExcept(states, events, {})
    ensures Ends(states, View(0, Starting({}), {1, 2}), View(1, Stopping(0), {0, 2}), View(2, Starting({}), {0, 1}), ALL,
                 {Ack(0, 2), Ack(1, 2)})
  {
    var a, b, c := View(0, Starting({}), {1, 2}), View(1, Stopping(0), {0, 2}), View(2, Starting({}), {0, 1});
    states, events := FirstStops();
    Acknowledges(b, 2);
    states, events := Extend(states, events, {}, Deliver(Request(2, 1)), a, b, c, ALL, {Ack(0, 2), Request(2, 1)},
                             Effect(b, multiset{Ack(1, 2)}, false), {Ack(0, 2), Ack(1, 2)});
  }

  /** Exclusion is about `Running` only: this run keeps every promise, and ends with node 2 running while
      node 1 still has its actor. */
  lemma TwoActors() returns (states: seq<System>, events: seq<Event>)
    ensures Run(states, events)
    ensures
      var s := states[|events|];
      && s.live == s.nodes.Keys == ALL
      && s.nodes[1].state == Stopping(0) && s.nodes[2].state == Running
      && s.nodes[1].state.HasActor() && s.nodes[2].state.HasActor()
  {
    var a, b, c := View(0, Starting({}), {1, 2}), View(1, Stopping(0), {0, 2}), View(2, Starting({}), {0, 1});
    states, events := GrantsTwice();
    states, events := Runs(states, events, 2, 0, 1, a, b, c);
    RunWithoutExceptions(states, events);
  }
}
