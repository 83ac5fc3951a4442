/** The lease protocol of a whole cluster: one manager per node, a network that reorders and loses
    messages, nodes that crash, and leader announcements that may contradict each other.

    The main result is `MutualExclusion`: no two live managers are ever both `Running`.
 */
module LeaseProtocol {
  import opened Prelude
  import opened LeaseManager

  /** What has happened on a node so far: rounds opened, starts launched, starts that failed. */
  datatype Tally = Tally(begun: nat, launched: nat, failed: nat)

  datatype System = System(
    nodes: map<NodeId, View>,
    net: multiset<Envelope>,
    live: set<NodeId>,
    tally: map<NodeId, Tally>)

  datatype Event =
    | Deliver(envelope: Envelope)
    | Complete(node: NodeId, started: bool)
    | Lose(envelope: Envelope)
    | LeaderChanged(node: NodeId, leader: NodeId)
    | MemberUp(node: NodeId, leader: NodeId, members: set<NodeId>)
    | ChildStopped(node: NodeId)
    | NodeAdded(node: NodeId, other: NodeId)
    | NodeRemoved(node: NodeId, other: NodeId)
    | Crash(node: NodeId)

  predicate Shape(s: System) {
    && s.live <= s.nodes.Keys
    && s.tally.Keys == s.nodes.Keys
    && (forall n :: n in s.nodes ==> s.nodes[n].id == n)
  }

  predicate Initial(s: System) {
    && s.live == s.nodes.Keys == s.tally.Keys
    && s.net == multiset{}
    && (forall n :: n in s.nodes ==> s.nodes[n] == View(n, Joining(None), {}))
    && (forall n :: n in s.tally ==> s.tally[n] == Tally(0, 0, 0))
  }

  /** The node whose manager handles the event, and the envelope it takes off the network. */
  function Target(e: Event): NodeId {
    match e
    case Deliver(envelope) => envelope.dst
    case Lose(envelope) => envelope.dst
    case _ => e.node
  }

  function Taken(e: Event): multiset<Envelope> {
    match e
    case Deliver(envelope) => multiset{envelope}
    case Lose(envelope) => multiset{envelope}
    case Complete(node, _) => multiset{StartResult(node)}
    case _ => multiset{}
  }

  predicate Enabled(s: System, e: Event) {
    && Shape(s)
    && Taken(e) <= s.net
    && (e.Lose? || Target(e) in s.live)
    && ((e.Deliver? || e.Lose?) ==> !e.envelope.StartResult?)
  }

  /** What a manager with view `v` does on the event. */
  function Respond(v: View, e: Event): Effect
    requires !e.Lose? && !e.Crash?
  {
    match e
    case Deliver(Request(src, _)) => OnRequest(v, src)
    case Deliver(Ack(src, _)) => OnAck(v, src)
    case Deliver(_) => Effect(v, multiset{}, false)
    case Complete(_, started) => OnStartResult(v, started)
    case LeaderChanged(_, leader) => OnLeaderChanged(v, leader)
    case MemberUp(_, leader, members) => OnMemberUp(v, leader, members)
    case ChildStopped(_) => OnChildStopped(v)
    case NodeAdded(_, other) => OnNodeAdded(v, other)
    case NodeRemoved(_, other) => OnNodeRemoved(v, other)
  }

  function Handle(s: System, e: Event): Effect
    requires Enabled(s, e) && !e.Lose? && !e.Crash?
  {
    Respond(s.nodes[Target(e)], e)
  }

  function Count(t: Tally, n: NodeId, e: Event, effect: Effect): Tally {
    Tally(t.begun + (if effect.begun then 1 else 0),
          t.launched + effect.sent[StartResult(n)],
          t.failed + (if e.Complete? && !e.started then 1 else 0))
  }

  function Next(s: System, e: Event): System
    requires Enabled(s, e)
  {
    match e
    case Lose(_) => s.(net := s.net - Taken(e))
    case Crash(n) => s.(live := s.live - {n})
    case _ =>
      var n := Target(e);
      var effect := Handle(s, e);
      s.(nodes := s.nodes[n := effect.view],
         net := s.net - Taken(e) + effect.sent,
         tally := s.tally[n := Count(s.tally[n], n, e, effect)])
  }

  /** What the rest of the system promises the managers:
      - the node set is fixed; `MemberUp` names every live node, and comes while joining or is harmless;
      - a node is announced as added before that, or is known already, or is harmless to meet again;
      - a node is announced as removed only after it crashed, and not while a start is in progress;
      - an acknowledgement does not reach a starting manager that was told its sender is gone. */
  predicate Admissible(s: System, e: Event)
    requires Enabled(s, e)
  {
    match e
    case MemberUp(n, _, members) =>
      s.live <= members <= s.nodes.Keys && (s.nodes[n].state.Joining? || HarmlessMemberUp(s, e))
    case NodeAdded(n, other) =>
      other in s.nodes && (s.nodes[n].state.Joining? || HarmlessAddition(s, n, other))
    case NodeRemoved(n, other) => other !in s.live && s.net[StartResult(n)] == 0
    case Deliver(Ack(src, dst)) => s.nodes[dst].state.Starting? ==> src in s.nodes[dst].managers
    case _ => true
  }

  predicate Step(s: System, e: Event, s': System) {
    Enabled(s, e) && Admissible(s, e) && s' == Next(s, e)
  }

  ghost predicate Run(states: seq<System>, events: seq<Event>) {
    && |states| == |events| + 1
    && Initial(states[0])
    && forall i :: 0 <= i < |events| ==> Step(states[i], events[i], states[i + 1])
  }

  // ---------------------------------------------------------------------------------------------
  // The invariant

  /** `y` owes `x` a grant: it is joining or stopping with `x`'s request put aside. */
  predicate Deferred(y: View, x: NodeId) {
    y.state == Joining(Some(x)) || y.state == Stopping(x)
  }

  predicate Collected(x: View, y: NodeId) {
    x.state.Starting? && y in x.state.acks
  }

  /** How many traces `x`'s current request to `y` has left: the request itself, a grant put aside,
      an acknowledgement in flight, or an acknowledgement collected. */
  function TraceCount(x: View, y: View, requests: nat, acks: nat): nat {
    requests + acks + (if Deferred(y, x.id) then 1 else 0) + (if Collected(x, y.id) then 1 else 0)
  }

  function Traces(s: System, x: NodeId, y: NodeId): nat
    requires x in s.nodes && y in s.nodes
  {
    TraceCount(s.nodes[x], s.nodes[y], s.net[Request(x, y)], s.net[Ack(y, x)])
  }

  /** `x` has `y`'s permission to run, `acks` being how many acknowledgements are on their way. */
  predicate Permitted(x: View, y: NodeId, acks: nat) {
    acks > 0 || Collected(x, y) || x.state.Running?
  }

  predicate Holds(s: System, x: NodeId, y: NodeId)
    requires x in s.nodes
  {
    Permitted(s.nodes[x], y, s.net[Ack(y, x)])
  }

  predicate NodeOk(s: System, x: NodeId)
    requires x in s.nodes && x in s.tally
  {
    var v := s.nodes[x];
    && v.id == x && x !in v.managers && v.managers <= s.nodes.Keys
    && (!v.state.Joining? ==> s.live - {x} <= v.managers)
    && (v.state.Starting? ==> v.state.acks <= v.managers)
    && s.net[StartResult(x)] <= 1
    && (s.net[StartResult(x)] == 1 ==> v.state.Starting? && v.state.acks == v.managers)
    && TallyOk(s, x)
  }

  /** Every round and every failed start pays for exactly one launch, except the round that is
      still waiting to launch. */
  predicate TallyOk(s: System, x: NodeId)
    requires x in s.nodes && x in s.tally
  {
    var t := s.tally[x];
    t.begun + t.failed
      == t.launched + (if s.nodes[x].state.Starting? && s.net[StartResult(x)] == 0 then 1 else 0)
  }

  /** `x` was told that `y` is gone; what `y` still owes it no longer counts. */
  predicate Forgotten(x: View, y: NodeId) {
    !x.state.Joining? && y !in x.managers
  }

  /** The invariant of an ordered pair, over the two managers and the envelopes between them:
      `rxy` requests from `x`, `ayx` acknowledgements to `x`, and `axy` acknowledgements to `y`. */
  predicate PairFine(x: View, y: View, rxy: nat, ayx: nat, axy: nat, live: bool) {
    && TraceCount(x, y, rxy, ayx) <= 1
    && (TraceCount(x, y, rxy, ayx) > 0 ==> x.state.Starting? || Forgotten(x, y.id))
    && (live ==> !(Permitted(x, y.id, ayx) && Permitted(y, x.id, axy)))
  }

  predicate PairOk(s: System, x: NodeId, y: NodeId)
    requires x in s.nodes && y in s.nodes
  {
    PairFine(s.nodes[x], s.nodes[y], s.net[Request(x, y)], s.net[Ack(y, x)], s.net[Ack(x, y)],
             x in s.live && y in s.live)
  }

  ghost predicate Inv(s: System) {
    && Shape(s)
    && (forall x {:trigger NodeOk(s, x)} :: x in s.nodes ==> NodeOk(s, x))
    && (forall x, y {:trigger PairOk(s, x, y)} :: x in s.nodes && y in s.nodes && x != y ==> PairOk(s, x, y))
  }

  lemma InitialInv(s: System)
    requires Initial(s)
    ensures Inv(s)
  {
  }

  lemma BroadcastCount(kind: Kind, src: NodeId, managers: set<NodeId>, e: Envelope)
    ensures Broadcast(kind, src, managers)[e]
         == if !e.StartResult? && e.dst in managers && e == Wrap(kind, src, e.dst) then 1 else 0
  {
    var all := set d | d in managers :: Wrap(kind, src, d);
    if !e.StartResult? && e.dst in managers && e == Wrap(kind, src, e.dst) {
      assert e in all;
    } else {
      assert e !in all;
    }
  }

  /** The envelopes that matter to the invariant, among those a manager with view `v` sends. */
  ghost predicate Sends(sent: multiset<Envelope>, src: NodeId, requests: set<NodeId>, acks: set<NodeId>, launch: nat) {
    && (forall a, b :: sent[Request(a, b)] == if a == src && b in requests then 1 else 0)
    && (forall a, b :: sent[Ack(a, b)] == if a == src && b in acks then 1 else 0)
    && (forall a :: sent[StartResult(a)] == if a == src then launch else 0)
  }

  lemma RequestLeaseSends(v: View)
    ensures Sends(RequestLease(v), v.id, v.managers, {}, if v.managers == {} then 1 else 0)
  {
    if v.managers != {} {
      forall e {
        BroadcastCount(RequestKind, v.id, v.managers, e);
      }
    }
  }

  lemma NoticeSends(kind: Kind, src: NodeId, managers: set<NodeId>)
    requires !kind.RequestKind?
    ensures Sends(Broadcast(kind, src, managers), src, {}, {}, 0)
  {
    forall e {
      BroadcastCount(kind, src, managers, e);
    }
  }

  /** A set of acknowledgements inside the set of managers that passes the count test is all of it. */
  lemma CountMeansAll(acks: set<NodeId>, managers: set<NodeId>)
    requires acks <= managers
    ensures |acks| == |managers| <==> acks == managers
  {
    var rest := managers - acks;
    assert managers == acks + rest;
    assert |managers| == |acks| + |rest|;
  }

  // ---------------------------------------------------------------------------------------------
  // Every admissible step keeps the invariant

  /** The shape of every step that runs a handler: node `n` becomes `v`, some envelopes addressed
      to `n` leave the network, and envelopes from `n` enter it. */
  predicate Local(s: System, s': System, n: NodeId, effect: Effect, taken: multiset<Envelope>) {
    && Shape(s) && n in s.live && effect.view.id == n
    && taken <= s.net
    && s'.nodes == s.nodes[n := effect.view]
    && s'.net == s.net - taken + effect.sent
    && s'.live == s.live
    && s'.tally.Keys == s.tally.Keys
    && (forall x :: x in s.tally && x != n ==> s'.tally[x] == s.tally[x])
  }

  /** A step of `n` leaves the other nodes, and the pairs that `n` is not part of, as they were. */
  lemma OtherPairs(s: System, s': System, n: NodeId, effect: Effect, taken: multiset<Envelope>,
                   requests: set<NodeId>, acks: set<NodeId>, launch: nat)
    requires Inv(s) && Local(s, s', n, effect, taken)
    requires Sends(effect.sent, n, requests, acks, launch)
    requires forall e :: e in taken ==> e.dst == n
    ensures Shape(s')
    ensures forall x {:trigger NodeOk(s', x)} :: x in s'.nodes && x != n ==> NodeOk(s', x)
    ensures forall x, y {:trigger PairOk(s', x, y)} ::
              x in s'.nodes && y in s'.nodes && x != y && x != n && y != n ==> PairOk(s', x, y)
  {
    forall x | x in s'.nodes && x != n
      ensures NodeOk(s', x)
    {
      assert NodeOk(s, x);
      assert StartResult(x) !in taken;
    }
    forall x, y | x in s'.nodes && y in s'.nodes && x != y && x != n && y != n
      ensures PairOk(s', x, y)
    {
      assert PairOk(s, x, y);
      assert Request(x, y) !in taken && Request(y, x) !in taken && Ack(x, y) !in taken && Ack(y, x) !in taken;
    }
  }

  /** The envelopes between `n` and `y` after a step of `n`. */
  lemma Between(s: System, s': System, n: NodeId, effect: Effect, taken: multiset<Envelope>,
                requests: set<NodeId>, acks: set<NodeId>, launch: nat, y: NodeId)
    requires Local(s, s', n, effect, taken) && y != n
    requires Sends(effect.sent, n, requests, acks, launch)
    requires forall e :: e in taken ==> e.dst == n
    ensures s'.net[Request(n, y)] == s.net[Request(n, y)] + (if y in requests then 1 else 0)
    ensures s'.net[Ack(n, y)] == s.net[Ack(n, y)] + (if y in acks then 1 else 0)
    ensures s'.net[Request(y, n)] == s.net[Request(y, n)] - taken[Request(y, n)]
    ensures s'.net[Ack(y, n)] == s.net[Ack(y, n)] - taken[Ack(y, n)]
  {
    assert Request(n, y) !in taken && Ack(n, y) !in taken;
  }

  /** The pairs of `n` and `y` after `n` became `w`, in terms of what was between them before. */
  predicate PairsAfter(s: System, n: NodeId, taken: multiset<Envelope>, w: View,
                       requests: set<NodeId>, acks: set<NodeId>, y: NodeId)
    requires Shape(s) && y in s.nodes && taken <= s.net
  {
    var rny := s.net[Request(n, y)] + (if y in requests then 1 else 0);
    var any := s.net[Ack(n, y)] + (if y in acks then 1 else 0);
    var ryn := s.net[Request(y, n)] - taken[Request(y, n)];
    var ayn := s.net[Ack(y, n)] - taken[Ack(y, n)];
    var live := n in s.live && y in s.live;
    PairFine(w, s.nodes[y], rny, ayn, any, live) && PairFine(s.nodes[y], w, ryn, any, ayn, live)
  }

  lemma OwnPairs(s: System, s': System, n: NodeId, effect: Effect, taken: multiset<Envelope>,
                 requests: set<NodeId>, acks: set<NodeId>, launch: nat, y: NodeId)
    requires Local(s, s', n, effect, taken) && y in s.nodes && y != n
    requires Sends(effect.sent, n, requests, acks, launch)
    requires forall e :: e in taken ==> e.dst == n
    requires PairsAfter(s, n, taken, effect.view, requests, acks, y)
    ensures PairOk(s', n, y) && PairOk(s', y, n)
  {
    Between(s, s', n, effect, taken, requests, acks, launch, y);
  }

  /** A handler keeps the invariant if it leaves its own node and its own pairs in order. */
  lemma Assemble(s: System, e: Event, requests: set<NodeId>, acks: set<NodeId>, launch: nat)
    requires Inv(s) && Enabled(s, e) && !e.Lose? && !e.Crash?
    requires Handle(s, e).view.id == Target(e)
    requires Sends(Handle(s, e).sent, Target(e), requests, acks, launch)
    requires NodeOk(Next(s, e), Target(e))
    requires forall y {:trigger PairsAfter(s, Target(e), Taken(e), Handle(s, e).view, requests, acks, y)} ::
      y in s.nodes && y != Target(e) ==> PairsAfter(s, Target(e), Taken(e), Handle(s, e).view, requests, acks, y)
    ensures Inv(Next(s, e))
  {
    var n := Target(e);
    var s' := Next(s, e);
    var effect := Handle(s, e);
    OtherPairs(s, s', n, effect, Taken(e), requests, acks, launch);
    forall y | y in s.nodes && y != n
      ensures PairOk(s', n, y) && PairOk(s', y, n)
    {
      assert PairsAfter(s, n, Taken(e), effect.view, requests, acks, y);
      OwnPairs(s, s', n, effect, Taken(e), requests, acks, launch, y);
    }
  }

  /** Who is acknowledged at once when `src` asks for the lease. */
  function AckedOnRequest(v: View, src: NodeId): set<NodeId> {
    if !v.state.IsRunning() && !v.state.Joining? && src in v.managers then {src} else {}
  }

  lemma RequestSends(v: View, src: NodeId)
    ensures Sends(OnRequest(v, src).sent, v.id, {}, AckedOnRequest(v, src), 0)
  {
    NoticeSends(StoppedKind, v.id, v.managers);
  }

  lemma RequestPair(v: View, src: NodeId, y: View, rvy: nat, ryv: nat, avy: nat, ayv: nat, live: bool)
    requires PairFine(v, y, rvy, ayv, avy, live) && PairFine(y, v, ryv, avy, ayv, live) && v.id != y.id
    requires src == y.id ==> ryv > 0
    requires !v.state.Joining? && live ==> y.id in v.managers
    ensures
      var w := OnRequest(v, src).view;
      var ryw := if src == y.id then ryv - 1 else ryv;
      var awy := avy + (if y.id in AckedOnRequest(v, src) then 1 else 0);
      PairFine(w, y, rvy, ayv, awy, live) && PairFine(y, w, ryw, awy, ayv, live)
  {
  }

  lemma RequestPairs(s: System, e: Event, y: NodeId)
    requires Inv(s) && Enabled(s, e) && e.Deliver? && e.envelope.Request?
    requires y in s.nodes && y != e.envelope.dst
    ensures
      var v := s.nodes[e.envelope.dst];
      PairsAfter(s, v.id, Taken(e), OnRequest(v, e.envelope.src).view, {}, AckedOnRequest(v, e.envelope.src), y)
  {
    var src, n := e.envelope.src, e.envelope.dst;
    assert NodeOk(s, n) && NodeOk(s, y) && PairOk(s, n, y) && PairOk(s, y, n);
    RequestPair(s.nodes[n], src, s.nodes[y], s.net[Request(n, y)], s.net[Request(y, n)], s.net[Ack(n, y)],
                s.net[Ack(y, n)], n in s.live && y in s.live);
  }

  lemma KeepsOnRequest(s: System, e: Event)
    requires Inv(s) && Enabled(s, e) && e.Deliver? && e.envelope.Request?
    ensures Inv(Next(s, e))
  {
    var src, n := e.envelope.src, e.envelope.dst;
    var acks := AckedOnRequest(s.nodes[n], src);
    RequestSends(s.nodes[n], src);
    assert NodeOk(s, n);
    forall y | y in s.nodes && y != n
      ensures PairsAfter(s, Target(e), Taken(e), Handle(s, e).view, {}, acks, y)
    {
      RequestPairs(s, e, y);
    }
    Assemble(s, e, {}, acks, 0);
  }

  lemma AckPairs(s: System, e: Event, y: NodeId)
    requires Inv(s) && Enabled(s, e) && e.Deliver? && e.envelope.Ack?
    requires y in s.nodes && y != e.envelope.dst
    ensures PairsAfter(s, Target(e), Taken(e), Handle(s, e).view, {}, {}, y)
  {
    var n := e.envelope.dst;
    assert NodeOk(s, n) && NodeOk(s, y) && PairOk(s, n, y) && PairOk(s, y, n);
  }

  /** Its own node after an acknowledgement that a starting manager expects. */
  lemma ExpectedAckNode(s: System, e: Event)
    requires Inv(s) && Enabled(s, e) && e.Deliver? && e.envelope.Ack?
    requires e.envelope.src in s.nodes[e.envelope.dst].managers && s.nodes[e.envelope.dst].state.Starting?
    ensures NodeOk(Next(s, e), e.envelope.dst)
  {
    var src, n := e.envelope.src, e.envelope.dst;
    var v := s.nodes[n];
    assert NodeOk(s, n) && PairOk(s, n, src);
    CountMeansAll(v.state.acks + {src}, v.managers);
    assert s.net[StartResult(n)] == 0;
  }

  lemma AckSends(v: View, src: NodeId)
    requires v.state.Starting? && v.state.acks + {src} <= v.managers
    ensures Sends(OnAck(v, src).sent, v.id, {}, {}, if v.state.acks + {src} == v.managers then 1 else 0)
  {
    CountMeansAll(v.state.acks + {src}, v.managers);
  }

  lemma KeepsOnExpectedAck(s: System, e: Event)
    requires Inv(s) && Enabled(s, e) && e.Deliver? && e.envelope.Ack?
    requires e.envelope.src in s.nodes[e.envelope.dst].managers && s.nodes[e.envelope.dst].state.Starting?
    ensures Inv(Next(s, e))
  {
    var src, n := e.envelope.src, e.envelope.dst;
    var v := s.nodes[n];
    assert v.state.acks <= v.managers by {
      assert NodeOk(s, n);
    }
    AckSends(v, src);
    ExpectedAckNode(s, e);
    forall y | y in s.nodes && y != n
      ensures PairsAfter(s, Target(e), Taken(e), Handle(s, e).view, {}, {}, y)
    {
      AckPairs(s, e, y);
    }
    Assemble(s, e, {}, {}, if v.state.acks + {src} == v.managers then 1 else 0);
  }

  lemma KeepsOnAck(s: System, e: Event)
    requires Inv(s) && Enabled(s, e) && e.Deliver? && e.envelope.Ack? && Admissible(s, e)
    ensures Inv(Next(s, e))
  {
    var n := e.envelope.dst;
    if s.nodes[n].state.Starting? {
      KeepsOnExpectedAck(s, e);
    } else {
      assert NodeOk(s, n);
      forall y | y in s.nodes && y != n
        ensures PairsAfter(s, Target(e), Taken(e), Handle(s, e).view, {}, {}, y)
      {
        AckPairs(s, e, y);
      }
      Assemble(s, e, {}, {}, 0);
    }
  }

  lemma KeepsOnComplete(s: System, e: Event)
    requires Inv(s) && Enabled(s, e) && e.Complete?
    ensures Inv(Next(s, e))
  {
    var n := e.node;
    NoticeSends(StartedKind, n, s.nodes[n].managers);
    assert NodeOk(s, n);
    forall y | y in s.nodes && y != n
      ensures PairsAfter(s, Target(e), Taken(e), Handle(s, e).view, {}, {}, y)
    {
      assert NodeOk(s, y) && PairOk(s, n, y) && PairOk(s, y, n);
    }
    Assemble(s, e, {}, {}, 0);
  }

  function RequestedOnLeaderChanged(v: View, leader: NodeId): set<NodeId> {
    if !v.state.Joining? && leader == v.id && !v.state.IsRunning() then v.managers else {}
  }

  lemma LeaderChangedPairs(s: System, e: Event, y: NodeId)
    requires Inv(s) && Enabled(s, e) && e.LeaderChanged?
    requires y in s.nodes && y != e.node
    ensures PairsAfter(s, Target(e), Taken(e), Handle(s, e).view, RequestedOnLeaderChanged(s.nodes[e.node], e.leader), {}, y)
  {
    var n := e.node;
    assert NodeOk(s, n) && NodeOk(s, y) && PairOk(s, n, y) && PairOk(s, y, n);
  }

  lemma KeepsOnLeaderChanged(s: System, e: Event)
    requires Inv(s) && Enabled(s, e) && e.LeaderChanged?
    ensures Inv(Next(s, e))
  {
    var n := e.node;
    var v := s.nodes[n];
    var requests := RequestedOnLeaderChanged(v, e.leader);
    RequestLeaseSends(v);
    assert NodeOk(s, n);
    forall y | y in s.nodes && y != n
      ensures PairsAfter(s, Target(e), Taken(e), Handle(s, e).view, requests, {}, y)
    {
      LeaderChangedPairs(s, e, y);
    }
    Assemble(s, e, requests, {}, Handle(s, e).sent[StartResult(n)]);
  }

  function ManagersOnMemberUp(v: View, e: Event): set<NodeId>
    requires e.MemberUp?
  {
    v.managers + (e.members - {v.id})
  }

  function RequestedOnMemberUp(v: View, e: Event): set<NodeId>
    requires e.MemberUp?
  {
    if e.leader == v.id then ManagersOnMemberUp(v, e) else {}
  }

  function AckedOnMemberUp(v: View, e: Event): set<NodeId>
    requires e.MemberUp? && v.state.Joining?
  {
    if v.state.pending.Some? && v.state.pending.value in ManagersOnMemberUp(v, e) then {v.state.pending.value} else {}
  }

  lemma MemberUpSends(v: View, e: Event)
    requires e.MemberUp? && v.state.Joining?
    ensures Sends(OnMemberUp(v, e.leader, e.members).sent, v.id, RequestedOnMemberUp(v, e), AckedOnMemberUp(v, e),
                  if e.leader == v.id && ManagersOnMemberUp(v, e) == {} then 1 else 0)
  {
    RequestLeaseSends(View(v.id, Starting({}), ManagersOnMemberUp(v, e)));
  }

  lemma MemberUpPair(v: View, e: Event, y: View, rvy: nat, ryv: nat, avy: nat, ayv: nat, live: bool)
    requires e.MemberUp? && v.state.Joining? && v.id != y.id
    requires PairFine(v, y, rvy, ayv, avy, live) && PairFine(y, v, ryv, avy, ayv, live)
    ensures
      var w := OnMemberUp(v, e.leader, e.members).view;
      var rwy := rvy + (if y.id in RequestedOnMemberUp(v, e) then 1 else 0);
      var awy := avy + (if y.id in AckedOnMemberUp(v, e) then 1 else 0);
      PairFine(w, y, rwy, ayv, awy, live) && PairFine(y, w, ryv, awy, ayv, live)
  {
  }

  lemma MemberUpPairs(s: System, e: Event, y: NodeId)
    requires Inv(s) && Enabled(s, e) && e.MemberUp? && s.nodes[e.node].state.Joining?
    requires y in s.nodes && y != e.node
    ensures
      var v := s.nodes[e.node];
      PairsAfter(s, e.node, Taken(e), OnMemberUp(v, e.leader, e.members).view,
                 RequestedOnMemberUp(v, e), AckedOnMemberUp(v, e), y)
  {
    var n := e.node;
    assert NodeOk(s, n) && NodeOk(s, y) && PairOk(s, n, y) && PairOk(s, y, n);
    MemberUpPair(s.nodes[n], e, s.nodes[y], s.net[Request(n, y)], s.net[Request(y, n)], s.net[Ack(n, y)],
                 s.net[Ack(y, n)], n in s.live && y in s.live);
  }

  lemma KeepsOnFirstMemberUp(s: System, e: Event)
    requires Inv(s) && Enabled(s, e) && e.MemberUp? && s.live <= e.members <= s.nodes.Keys
    requires s.nodes[e.node].state.Joining?
    ensures Inv(Next(s, e))
  {
    var n := e.node;
    var v := s.nodes[n];
    MemberUpSends(v, e);
    assert NodeOk(s, n);
    forall y | y in s.nodes && y != n
      ensures PairsAfter(s, Target(e), Taken(e), Handle(s, e).view, RequestedOnMemberUp(v, e), AckedOnMemberUp(v, e), y)
    {
      MemberUpPairs(s, e, y);
    }
    Assemble(s, e, RequestedOnMemberUp(v, e), AckedOnMemberUp(v, e),
             if e.leader == n && ManagersOnMemberUp(v, e) == {} then 1 else 0);
  }

  /** What a second `MemberUp` sends: there is no grant put aside to release. */
  lemma SecondMemberUpSends(v: View, e: Event)
    requires e.MemberUp? && !v.state.Joining?
    ensures Sends(OnMemberUp(v, e.leader, e.members).sent, v.id, RequestedOnMemberUp(v, e), {},
                  if e.leader == v.id && ManagersOnMemberUp(v, e) == {} then 1 else 0)
  {
    RequestLeaseSends(View(v.id, Starting({}), ManagersOnMemberUp(v, e)));
  }

  lemma SecondMemberUpPair(v: View, e: Event, y: View, rvy: nat, ryv: nat, avy: nat, ayv: nat, live: bool)
    requires e.MemberUp? && !v.state.Joining? && !v.state.Starting? && v.id != y.id
    requires PairFine(v, y, rvy, ayv, avy, live) && PairFine(y, v, ryv, avy, ayv, live)
    requires y.id in e.members && y.id !in v.managers ==> TraceCount(v, y, rvy, ayv) == 0
    ensures
      var w := OnMemberUp(v, e.leader, e.members).view;
      var rwy := rvy + (if y.id in RequestedOnMemberUp(v, e) then 1 else 0);
      PairFine(w, y, rwy, ayv, avy, live) && PairFine(y, w, ryv, avy, ayv, live)
  {
  }

  /** A second `MemberUp` is harmless to a manager that is not starting, and does not bring back a peer it was
      told is gone while something of an old request to that peer is left. */
  predicate HarmlessMemberUp(s: System, e: Event)
    requires Enabled(s, e) && e.MemberUp? && e.members <= s.nodes.Keys
  {
    && !s.nodes[e.node].state.Starting?
    && forall y {:trigger Traces(s, e.node, y)} :: y in e.members - {e.node} - s.nodes[e.node].managers ==> Traces(s, e.node, y) == 0
  }

  lemma KeepsOnSecondMemberUp(s: System, e: Event)
    requires Inv(s) && Enabled(s, e) && e.MemberUp? && s.live <= e.members <= s.nodes.Keys
    requires !s.nodes[e.node].state.Joining? && HarmlessMemberUp(s, e)
    ensures Inv(Next(s, e))
  {
    var n := e.node;
    var v := s.nodes[n];
    SecondMemberUpSends(v, e);
    assert NodeOk(s, n);
    forall y | y in s.nodes && y != n
      ensures PairsAfter(s, Target(e), Taken(e), Handle(s, e).view, RequestedOnMemberUp(v, e), {}, y)
    {
      assert PairOk(s, n, y) && PairOk(s, y, n);
      assert y in e.members - {n} - v.managers ==> Traces(s, n, y) == 0;
      SecondMemberUpPair(v, e, s.nodes[y], s.net[Request(n, y)], s.net[Request(y, n)], s.net[Ack(n, y)],
                         s.net[Ack(y, n)], n in s.live && y in s.live);
    }
    Assemble(s, e, RequestedOnMemberUp(v, e), {}, if e.leader == n && ManagersOnMemberUp(v, e) == {} then 1 else 0);
  }

  lemma KeepsOnMemberUp(s: System, e: Event)
    requires Inv(s) && Enabled(s, e) && e.MemberUp? && Admissible(s, e)
    ensures Inv(Next(s, e))
  {
    if s.nodes[e.node].state.Joining? {
      KeepsOnFirstMemberUp(s, e);
    } else {
      KeepsOnSecondMemberUp(s, e);
    }
  }

  function AckedOnChildStopped(v: View): set<NodeId> {
    if v.state.Stopping? && v.state.requestedBy in v.managers then {v.state.requestedBy} else {}
  }

  lemma ChildStoppedPairs(s: System, e: Event, y: NodeId)
    requires Inv(s) && Enabled(s, e) && e.ChildStopped?
    requires y in s.nodes && y != e.node
    ensures PairsAfter(s, Target(e), Taken(e), Handle(s, e).view, {}, AckedOnChildStopped(s.nodes[e.node]), y)
  {
    var n := e.node;
    assert NodeOk(s, n) && NodeOk(s, y) && PairOk(s, n, y) && PairOk(s, y, n);
  }

  lemma KeepsOnChildStopped(s: System, e: Event)
    requires Inv(s) && Enabled(s, e) && e.ChildStopped?
    ensures Inv(Next(s, e))
  {
    var n := e.node;
    var acks := AckedOnChildStopped(s.nodes[n]);
    assert NodeOk(s, n);
    forall y | y in s.nodes && y != n
      ensures PairsAfter(s, Target(e), Taken(e), Handle(s, e).view, {}, acks, y)
    {
      ChildStoppedPairs(s, e, y);
    }
    Assemble(s, e, {}, acks, 0);
  }

  /** Adding a node is harmless if it is known already, or if no start is in progress and nothing is left of an
      old request to it. */
  predicate HarmlessAddition(s: System, n: NodeId, other: NodeId)
    requires n in s.nodes && other in s.nodes
  {
    other == n || other in s.nodes[n].managers || (StartResult(n) !in s.net && Traces(s, n, other) == 0)
  }

  function RequestedOnNodeAdded(v: View, other: NodeId): set<NodeId> {
    if v.state.Starting? && other != v.id && other !in v.managers then {other} else {}
  }

  lemma NodeAddedPairs(s: System, e: Event, y: NodeId)
    requires Inv(s) && Enabled(s, e) && e.NodeAdded? && Admissible(s, e)
    requires y in s.nodes && y != e.node
    ensures
      var v := s.nodes[e.node];
      PairsAfter(s, e.node, Taken(e), OnNodeAdded(v, e.other).view, RequestedOnNodeAdded(v, e.other), {}, y)
  {
    var n := e.node;
    assert NodeOk(s, n) && NodeOk(s, y) && PairOk(s, n, y) && PairOk(s, y, n);
  }

  lemma NodeAddedSends(v: View, other: NodeId)
    ensures Sends(OnNodeAdded(v, other).sent, v.id, RequestedOnNodeAdded(v, other), {}, 0)
    ensures OnNodeAdded(v, other).view.id == v.id
  {
  }

  lemma NodeAddedNode(s: System, e: Event)
    requires Inv(s) && Enabled(s, e) && e.NodeAdded? && Admissible(s, e)
    ensures NodeOk(Next(s, e), e.node)
  {
    assert NodeOk(s, e.node);
    NodeAddedSends(s.nodes[e.node], e.other);
  }

  lemma KeepsOnNodeAdded(s: System, e: Event)
    requires Inv(s) && Enabled(s, e) && e.NodeAdded? && Admissible(s, e)
    ensures Inv(Next(s, e))
  {
    var n := e.node;
    var requests := RequestedOnNodeAdded(s.nodes[n], e.other);
    NodeAddedSends(s.nodes[n], e.other);
    NodeAddedNode(s, e);
    forall y | y in s.nodes && y != n
      ensures PairsAfter(s, Target(e), Taken(e), Handle(s, e).view, requests, {}, y)
    {
      NodeAddedPairs(s, e, y);
    }
    Assemble(s, e, requests, {}, 0);
  }

  lemma NodeRemovedPairs(s: System, e: Event, y: NodeId)
    requires Inv(s) && Enabled(s, e) && e.NodeRemoved? && Admissible(s, e)
    requires y in s.nodes && y != e.node
    ensures PairsAfter(s, e.node, Taken(e), OnNodeRemoved(s.nodes[e.node], e.other).view, {}, {}, y)
  {
    var n := e.node;
    assert NodeOk(s, n) && NodeOk(s, y) && PairOk(s, n, y) && PairOk(s, y, n);
  }

  lemma KeepsOnNodeRemoved(s: System, e: Event)
    requires Inv(s) && Enabled(s, e) && e.NodeRemoved? && Admissible(s, e)
    ensures Inv(Next(s, e))
  {
    var n := e.node;
    var v := s.nodes[n];
    assert NodeOk(s, n);
    if v.state.Starting? {
      CountMeansAll(v.state.acks - {e.other}, v.managers - {e.other});
    }
    forall y | y in s.nodes && y != n
      ensures PairsAfter(s, Target(e), Taken(e), Handle(s, e).view, {}, {}, y)
    {
      NodeRemovedPairs(s, e, y);
    }
    Assemble(s, e, {}, {}, Handle(s, e).sent[StartResult(n)]);
  }

  lemma KeepsOnNotice(s: System, e: Event)
    requires Inv(s) && Enabled(s, e) && e.Deliver? && (e.envelope.StartedNotice? || e.envelope.StoppedNotice?)
    ensures Inv(Next(s, e))
  {
    var n := e.envelope.dst;
    assert NodeOk(s, n);
    forall y | y in s.nodes && y != n
      ensures PairsAfter(s, Target(e), Taken(e), Handle(s, e).view, {}, {}, y)
    {
      assert NodeOk(s, y) && PairOk(s, n, y) && PairOk(s, y, n);
    }
    Assemble(s, e, {}, {}, 0);
  }

  lemma KeepsOnLose(s: System, e: Event)
    requires Inv(s) && Enabled(s, e) && e.Lose?
    ensures Inv(Next(s, e))
  {
    var s' := Next(s, e);
    forall x | x in s'.nodes
      ensures NodeOk(s', x)
    {
      assert NodeOk(s, x);
    }
    forall x, y | x in s'.nodes && y in s'.nodes && x != y
      ensures PairOk(s', x, y)
    {
      assert PairOk(s, x, y);
    }
  }

  lemma KeepsOnCrash(s: System, e: Event)
    requires Inv(s) && Enabled(s, e) && e.Crash?
    ensures Inv(Next(s, e))
  {
    var s' := Next(s, e);
    forall x | x in s'.nodes
      ensures NodeOk(s', x)
    {
      assert NodeOk(s, x);
    }
    forall x, y | x in s'.nodes && y in s'.nodes && x != y
      ensures PairOk(s', x, y)
    {
      assert PairOk(s, x, y);
    }
  }

  lemma StepInv(s: System, e: Event, s': System)
    requires Inv(s) && Step(s, e, s')
    ensures Inv(s')
  {
    match e
    case Deliver(Request(_, _)) => KeepsOnRequest(s, e);
    case Deliver(Ack(_, _)) => KeepsOnAck(s, e);
    case Deliver(_) => KeepsOnNotice(s, e);
    case Complete(_, _) => KeepsOnComplete(s, e);
    case LeaderChanged(_, _) => KeepsOnLeaderChanged(s, e);
    case MemberUp(_, _, _) => KeepsOnMemberUp(s, e);
    case ChildStopped(_) => KeepsOnChildStopped(s, e);
    case NodeAdded(_, _) => KeepsOnNodeAdded(s, e);
    case NodeRemoved(_, _) => KeepsOnNodeRemoved(s, e);
    case Lose(_) => KeepsOnLose(s, e);
    case Crash(_) => KeepsOnCrash(s, e);
  }

  /** The promise about acknowledgements is exactly what the invariant needs: delivering one keeps it if
      and only if a starting manager still counts the sender among its peers. */
  lemma AckKeepsInvIff(s: System, e: Event)
    requires Inv(s) && Enabled(s, e) && e.Deliver? && e.envelope.Ack?
    ensures Inv(Next(s, e))
       <==> (s.nodes[e.envelope.dst].state.Starting? ==> e.envelope.src in s.nodes[e.envelope.dst].managers)
  {
    if Admissible(s, e) {
      KeepsOnAck(s, e);
    } else {
      assert !NodeOk(Next(s, e), e.envelope.dst);
    }
  }

  /** So is the promise about removals: announcing a crashed node keeps the invariant if and only if no
      start is in progress, because one that is would be launched a second time. */
  lemma RemovalKeepsInvIff(s: System, e: Event)
    requires Inv(s) && Enabled(s, e) && e.NodeRemoved? && e.other !in s.live
    ensures Inv(Next(s, e)) <==> StartResult(e.node) !in s.net
  {
    if StartResult(e.node) !in s.net {
      KeepsOnNodeRemoved(s, e);
    } else {
      assert NodeOk(s, e.node);
      assert Next(s, e).net[StartResult(e.node)] == 2;
      assert !NodeOk(Next(s, e), e.node);
    }
  }

  /** The round in progress is dropped without a launch, or its start is still on its way. */
  lemma MemberUpBreaksRound(s: System, e: Event)
    requires Inv(s) && Enabled(s, e) && e.MemberUp? && s.nodes[e.node].state.Starting?
    ensures !Inv(Next(s, e))
  {
    var n := e.node;
    SecondMemberUpSends(s.nodes[n], e);
    assert NodeOk(s, n);
    assert !NodeOk(Next(s, e), n);
  }

  /** The peer is known again, and what is left of the old request counts for the new round. */
  lemma MemberUpRevives(s: System, e: Event, y: NodeId)
    requires Inv(s) && Enabled(s, e) && e.MemberUp? && e.members <= s.nodes.Keys
    requires !s.nodes[e.node].state.Joining? && !s.nodes[e.node].state.Starting?
    requires y in e.members - {e.node} - s.nodes[e.node].managers && Traces(s, e.node, y) > 0
    ensures !Inv(Next(s, e))
  {
    var n, s' := e.node, Next(s, e);
    SecondMemberUpSends(s.nodes[n], e);
    assert s'.net[Request(n, y)] == s.net[Request(n, y)] + (if e.leader == n then 1 else 0);
    assert s'.net[Ack(y, n)] == s.net[Ack(y, n)];
    assert !PairOk(s', n, y);
  }

  /** So is the promise about `MemberUp`: naming every live node, it keeps the invariant if and only if the
      manager is joining or it is harmless. */
  lemma MemberUpKeepsInvIff(s: System, e: Event)
    requires Inv(s) && Enabled(s, e) && e.MemberUp? && s.live <= e.members <= s.nodes.Keys
    ensures Inv(Next(s, e)) <==> s.nodes[e.node].state.Joining? || HarmlessMemberUp(s, e)
  {
    var v := s.nodes[e.node];
    if Admissible(s, e) {
      KeepsOnMemberUp(s, e);
    } else if v.state.Starting? {
      MemberUpBreaksRound(s, e);
    } else {
      var y :| y in e.members - {e.node} - v.managers && Traces(s, e.node, y) != 0;
      MemberUpRevives(s, e, y);
    }
  }

  lemma AdditionBreaks(s: System, e: Event)
    requires Inv(s) && Enabled(s, e) && e.NodeAdded? && e.other in s.nodes
    requires !s.nodes[e.node].state.Joining? && !HarmlessAddition(s, e.node, e.other)
    ensures !Inv(Next(s, e))
  {
    var n, s' := e.node, Next(s, e);
    assert NodeOk(s, n) && PairOk(s, n, e.other);
    if StartResult(n) in s.net {
      assert !NodeOk(s', n);
    } else {
      assert !PairOk(s', n, e.other);
    }
  }

  /** And so is the promise about additions. */
  lemma AdditionKeepsInvIff(s: System, e: Event)
    requires Inv(s) && Enabled(s, e) && e.NodeAdded? && e.other in s.nodes
    ensures Inv(Next(s, e)) <==> s.nodes[e.node].state.Joining? || HarmlessAddition(s, e.node, e.other)
  {
    if Admissible(s, e) {
      KeepsOnNodeAdded(s, e);
    } else {
      AdditionBreaks(s, e);
    }
  }

  lemma {:induction false} RunInv(states: seq<System>, events: seq<Event>, i: nat)
    requires Run(states, events) && i < |states|
    ensures Inv(states[i])
    decreases i
  {
    if i == 0 {
      InitialInv(states[0]);
    } else {
      RunInv(states, events, i - 1);
      StepInv(states[i - 1], events[i - 1], states[i]);
    }
  }

  // ---------------------------------------------------------------------------------------------
  // What every run guarantees

  /** Two live managers never have each other's permission at once, be it an acknowledgement in flight, one
      collected, or a running singleton. */
  lemma PermissionIsOneWay(states: seq<System>, events: seq<Event>, i: nat, x: NodeId, y: NodeId)
    requires Run(states, events) && i < |states|
    requires x in states[i].live && y in states[i].live && x != y
    ensures x in states[i].nodes && y in states[i].nodes
    ensures !(Holds(states[i], x, y) && Holds(states[i], y, x))
  {
    RunInv(states, events, i);
    assert PairOk(states[i], x, y);
  }

  /** At no point of any run are two live managers `Running`. */
  lemma MutualExclusion(states: seq<System>, events: seq<Event>, i: nat, x: NodeId, y: NodeId)
    requires Run(states, events) && i < |states|
    requires x in states[i].live && y in states[i].live && x != y
    ensures x in states[i].nodes && y in states[i].nodes
    ensures !(states[i].nodes[x].state.Running? && states[i].nodes[y].state.Running?)
  {
    PermissionIsOneWay(states, events, i, x, y);
  }

  /** Lease rounds are exact: a request leaves at most one trace at any time, and none once the
      requester is no longer starting.  The exception is a peer it has been told is gone. */
  lemma LeaseRoundsAreExact(states: seq<System>, events: seq<Event>, i: nat, x: NodeId, y: NodeId)
    requires Run(states, events) && i < |states|
    requires x in states[i].nodes && y in states[i].nodes && x != y
    ensures Traces(states[i], x, y) <= 1
    ensures Traces(states[i], x, y) == 1 && y in states[i].live ==> states[i].nodes[x].state.Starting?
  {
    RunInv(states, events, i);
    assert PairOk(states[i], x, y) && NodeOk(states[i], x);
  }

  /** A start in progress means that every known manager, and so every live peer, acknowledged; and
      the manager is still `Starting` when the result comes back. */
  lemma LaunchMeansAllAcknowledged(states: seq<System>, events: seq<Event>, i: nat, x: NodeId)
    requires Run(states, events) && i < |states| && x in states[i].nodes
    requires StartResult(x) in states[i].net
    ensures states[i].net[StartResult(x)] == 1
    ensures states[i].nodes[x].state.Starting?
    ensures states[i].nodes[x].state.acks == states[i].nodes[x].managers
    ensures states[i].live - {x} <= states[i].nodes[x].state.acks
  {
    RunInv(states, events, i);
    assert NodeOk(states[i], x);
  }

  /** Launches are paid for: one per opened round and one more per failed start, except that a round
      still collecting acknowledgements has not launched yet. */
  lemma OneLaunchPerRound(states: seq<System>, events: seq<Event>, i: nat, x: NodeId)
    requires Run(states, events) && i < |states| && x in states[i].nodes
    ensures
      var s := states[i];
      x in s.tally && s.tally[x].begun + s.tally[x].failed
        == s.tally[x].launched + (if s.nodes[x].state.Starting? && StartResult(x) !in s.net then 1 else 0)
  {
    RunInv(states, events, i);
    assert NodeOk(states[i], x);
  }

  /** On an admissible acknowledgement, the count test passes exactly when nobody is missing. */
  lemma CountTestIsExact(states: seq<System>, events: seq<Event>, i: nat)
    requires Run(states, events) && i < |events|
    requires events[i].Deliver? && events[i].envelope.Ack? && Enabled(states[i], events[i])
    requires states[i].nodes[events[i].envelope.dst].state.Starting?
    ensures
      var n := events[i].envelope.dst;
      var v := states[i].nodes[n];
      var launches := Handle(states[i], events[i]).sent == multiset{StartResult(n)};
      launches <==> v.managers <= v.state.acks + {events[i].envelope.src}
  {
    RunInv(states, events, i);
    var n := events[i].envelope.dst;
    assert Step(states[i], events[i], states[i + 1]);
    assert NodeOk(states[i], n);
    CountMeansAll(states[i].nodes[n].state.acks + {events[i].envelope.src}, states[i].nodes[n].managers);
  }
}
