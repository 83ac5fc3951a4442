/** Leader election in the heartbeat: each tick sorts the nodes by age and announces the oldest healthy
    one when it is not the recorded leader. */
module Heartbeat {
  import opened Prelude

  const TWO_63: int := 0x8000_0000_0000_0000
  const TWO_64: int := 0x1_0000_0000_0000_0000

  /** A node as a tick sees it; an unknown start time counts as the earliest one, zero. */
  datatype Node = Node(id: NodeId, startedAt: Option<nat>, healthy: bool)
  {
    function Age(): nat {
      if startedAt.Some? then startedAt.value else 0
    }
  }

  /** The comparison of the sort: by start time, then by id. */
  predicate Before(a: Node, b: Node) {
    a.Age() < b.Age() || (a.Age() == b.Age() && a.id <= b.id)
  }

  ghost predicate Ordered(nodes: seq<Node>) {
    forall i, j :: 0 <= i < j < |nodes| ==> Before(nodes[i], nodes[j])
  }

  /** Node ids are unsigned 64-bit numbers; the recorded leader is a signed one. */
  function AsSigned(id: NodeId): int {
    if id < TWO_63 then id else id - TWO_64
  }

  function RecordedLeader(stored: int): Option<NodeId> {
    if stored >= 0 then Some(stored) else None
  }

  datatype Notice = MemberUp(leader: NodeId, members: set<NodeId>) | LeaderChanged(leader: NodeId)

  /** The heartbeat's fields; `stored` is the recorded leader, negative at first. */
  datatype State = State(ticked: bool, memberUp: bool, stored: int, notices: seq<Notice>)

  const INITIAL := State(false, false, -1, [])

  /** The oldest healthy node: no healthy node comes before it. */
  ghost predicate Oldest(nodes: seq<Node>, n: Node) {
    n in nodes && n.healthy && forall m :: m in nodes && m.healthy ==> Before(n, m)
  }

  ghost predicate Elects(nodes: seq<Node>, elected: Option<NodeId>) {
    if elected.Some? then exists n :: Oldest(nodes, n) && n.id == elected.value
    else forall n :: n in nodes ==> !n.healthy
  }

  function Ids(nodes: seq<Node>): set<NodeId> {
    set n | n in nodes :: n.id
  }

  /** What a tick does once the oldest healthy node, if any, is known. */
  function Elect(s: State, elected: Option<NodeId>, members: set<NodeId>, bigEnough: bool): State {
    var changes := s.ticked && elected.Some? && elected != RecordedLeader(s.stored);
    if changes then
      var up := !s.memberUp && bigEnough;
      State(true, s.memberUp || up, AsSigned(elected.value),
            s.notices + (if up then [MemberUp(elected.value, members)] else []) + [LeaderChanged(elected.value)])
    else
      s.(ticked := true)
  }

  /** One tick over the given view of the cluster. */
  ghost predicate Tick(s: State, nodes: seq<Node>, bigEnough: bool, s': State) {
    exists elected: Option<NodeId> :: Elects(nodes, elected) && s' == Elect(s, elected, Ids(nodes), bigEnough)
  }

  class Heartbeat {
    var ticked: bool
    var memberUp: bool
    var stored: int
    var notices: seq<Notice>

    ghost function View(): State
      reads this
    {
      State(ticked, memberUp, stored, notices)
    }

    constructor ()
      ensures View() == INITIAL
    {
      ticked, memberUp, stored, notices := false, false, -1, [];
    }

    /** Sorts the view; any comparison sort gives this order. */
    method Sort(nodes: seq<Node>) returns (sorted: seq<Node>)
      ensures Ordered(sorted) && multiset(sorted) == multiset(nodes)
    {
      sorted := [];
      for i := 0 to |nodes|
        invariant Ordered(sorted) && multiset(sorted) == multiset(nodes[..i])
      {
        assert nodes[..i + 1] == nodes[..i] + [nodes[i]];
        sorted := Insert(sorted, nodes[i]);
      }
      assert nodes[..|nodes|] == nodes;
    }

    method Insert(nodes: seq<Node>, n: Node) returns (r: seq<Node>)
      requires Ordered(nodes)
      ensures Ordered(r) && multiset(r) == multiset(nodes) + multiset{n}
    {
      var i := 0;
      while i < |nodes| && Before(nodes[i], n)
        invariant i <= |nodes| && forall k :: 0 <= k < i ==> Before(nodes[k], n)
      {
        i := i + 1;
      }
      r := nodes[..i] + [n] + nodes[i..];
      InsertedOrdered(nodes, i, n);
      InsertedPermutes(nodes, i, n);
    }

    /** The first healthy node of the sorted view. */
    method FirstHealthy(sorted: seq<Node>) returns (r: Option<Node>)
      requires Ordered(sorted)
      ensures r.Some? ==> Oldest(sorted, r.value)
      ensures r.None? ==> forall n :: n in sorted ==> !n.healthy
    {
      var i := 0;
      while i < |sorted|
        invariant i <= |sorted| && forall k :: 0 <= k < i ==> !sorted[k].healthy
      {
        if sorted[i].healthy {
          return Some(sorted[i]);
        }
        i := i + 1;
      }
      r := None;
    }

    method HandleTick(nodes: seq<Node>, bigEnough: bool)
      modifies this
      ensures Tick(old(View()), nodes, bigEnough, View())
    {
      var sorted := Sort(nodes);
      var oldest := FirstHealthy(sorted);
      ghost var elected := if oldest.Some? then Some(oldest.value.id) else None;
      SortedElects(nodes, sorted, oldest);
      if ticked && oldest.Some? {
        var id := oldest.value.id;
        if Some(id) != (if stored >= 0 then Some(stored as NodeId) else None) {
          if !memberUp && bigEnough {
            memberUp := true;
            notices := notices + [MemberUp(id, set n | n in nodes :: n.id)];
          }
          stored := if id < TWO_63 then id else id - TWO_64;
          notices := notices + [LeaderChanged(id)];
        }
      }
      ticked := true;
      assert View() == Elect(old(View()), elected, Ids(nodes), bigEnough);
    }
  }

  // ---------------------------------------------------------------------------------------------

  lemma SortedElects(nodes: seq<Node>, sorted: seq<Node>, oldest: Option<Node>)
    requires multiset(sorted) == multiset(nodes)
    requires oldest.Some? ==> Oldest(sorted, oldest.value)
    requires oldest.None? ==> forall n :: n in sorted ==> !n.healthy
    ensures Elects(nodes, if oldest.Some? then Some(oldest.value.id) else None)
  {
    assert forall n :: n in sorted <==> n in multiset(sorted);
    assert forall n :: n in nodes <==> n in multiset(nodes);
    assert oldest.Some? ==> Oldest(nodes, oldest.value);
  }

  lemma InsertedOrdered(nodes: seq<Node>, i: nat, n: Node)
    requires Ordered(nodes) && i <= |nodes| && (forall k :: 0 <= k < i ==> Before(nodes[k], n))
    requires i < |nodes| ==> !Before(nodes[i], n)
    ensures Ordered(nodes[..i] + [n] + nodes[i..])
  {
    var r := nodes[..i] + [n] + nodes[i..];
    assert forall k :: 0 <= k < |r| ==> r[k] == if k < i then nodes[k] else if k == i then n else nodes[k - 1];
    forall j, k | 0 <= j < k < |r|
      ensures Before(r[j], r[k])
    {
      if j == i {
        assert Before(n, nodes[i]);
        assert i < k - 1 ==> Before(nodes[i], nodes[k - 1]);
      }
    }
  }

  lemma InsertedPermutes(nodes: seq<Node>, i: nat, n: Node)
    requires i <= |nodes|
    ensures multiset(nodes[..i] + [n] + nodes[i..]) == multiset(nodes) + multiset{n}
  {
    assert nodes == nodes[..i] + nodes[i..];
    assert multiset(nodes) == multiset(nodes[..i]) + multiset(nodes[i..]);
  }

  /** Node ids are 64-bit, and no two nodes share one. */
  ghost predicate ValidView(nodes: seq<Node>) {
    && (forall n :: n in nodes ==> n.id < TWO_64)
    && (forall m, n :: m in nodes && n in nodes && m.id == n.id ==> m == n)
  }

  ghost predicate SameView(a: seq<Node>, b: seq<Node>) {
    forall n :: n in a <==> n in b
  }

  /** There is at most one oldest healthy node, in whatever order the nodes are listed. */
  lemma OldestIsUnique(a: seq<Node>, b: seq<Node>, m: Node, n: Node)
    requires ValidView(a) && SameView(a, b) && Oldest(a, m) && Oldest(b, n)
    ensures m == n
  {
    assert Before(m, n) && Before(n, m);
  }

  /** From the second tick on, the recorded leader is the oldest healthy node, if its id fits. */
  lemma TickElectsOldest(s: State, nodes: seq<Node>, bigEnough: bool, s': State, n: Node)
    requires s.ticked && s.stored < TWO_63 && ValidView(nodes) && Tick(s, nodes, bigEnough, s') && Oldest(nodes, n)
    ensures RecordedLeader(s'.stored) == if n.id < TWO_63 then Some(n.id) else None
    ensures s'.ticked && s'.stored < TWO_63
  {
    var elected: Option<NodeId> :| Elects(nodes, elected) && s' == Elect(s, elected, Ids(nodes), bigEnough);
    assert elected.Some?;
    var m :| Oldest(nodes, m) && m.id == elected.value;
    OldestIsUnique(nodes, nodes, m, n);
  }

  /** Ticking again over an unchanged view announces nothing, if and only if the elected id fits. */
  lemma QuietIffIdFits(s: State, nodes: seq<Node>, again: seq<Node>, big: bool, big': bool, s': State, s'': State, n: Node)
    requires s.ticked && s.stored < TWO_63 && ValidView(nodes) && SameView(nodes, again) && Oldest(nodes, n)
    requires Tick(s, nodes, big, s') && Tick(s', again, big', s'')
    ensures s''.notices == s'.notices <==> n.id < TWO_63
  {
    TickElectsOldest(s, nodes, big, s', n);
    assert Oldest(again, n);
    var elected: Option<NodeId> :| Elects(again, elected) && s'' == Elect(s', elected, Ids(again), big');
    assert elected.Some?;
    var m :| Oldest(again, m) && m.id == elected.value;
    OldestIsUnique(nodes, again, n, m);
  }

  /** Two heartbeats that see the same nodes record the same leader. */
  lemma EqualViewsAgree(s: State, a: seq<Node>, s': State, t: State, b: seq<Node>, t': State, big: bool, big': bool, n: Node)
    requires s.ticked && t.ticked && s.stored < TWO_63 && t.stored < TWO_63
    requires ValidView(a) && SameView(a, b) && Oldest(a, n)
    requires Tick(s, a, big, s') && Tick(t, b, big', t')
    ensures RecordedLeader(s'.stored) == RecordedLeader(t'.stored)
  {
    TickElectsOldest(s, a, big, s', n);
    assert Oldest(b, n) && ValidView(b);
    TickElectsOldest(t, b, big', t', n);
  }

  function MemberUps(notices: seq<Notice>): nat {
    if notices == [] then 0
    else MemberUps(notices[..|notices| - 1]) + (if notices[|notices| - 1].MemberUp? then 1 else 0)
  }

  ghost predicate Run(states: seq<State>, views: seq<seq<Node>>, big: seq<bool>) {
    && |states| == |views| + 1 && |big| == |views|
    && states[0] == INITIAL
    && forall i :: 0 <= i < |views| ==> Tick(states[i], views[i], big[i], states[i + 1])
  }

  /** A heartbeat publishes `MemberUp` at most once, however long it runs. */
  lemma {:induction false} MemberUpComesOnce(states: seq<State>, views: seq<seq<Node>>, big: seq<bool>, i: nat)
    requires Run(states, views, big) && i < |states|
    ensures MemberUps(states[i].notices) == if states[i].memberUp then 1 else 0
    decreases i
  {
    if i > 0 {
      MemberUpComesOnce(states, views, big, i - 1);
      var s, s' := states[i - 1], states[i];
      assert Tick(s, views[i - 1], big[i - 1], s');
      if s'.notices != s.notices {
        var changed := LeaderChanged(s'.notices[|s'.notices| - 1].leader);
        var init := s'.notices[..|s'.notices| - 1];
        assert s'.notices == init + [changed];
        if init != s.notices {
          assert init[..|init| - 1] == s.notices;
        }
      }
    }
  }

  lemma {:induction false} RecordedFits(states: seq<State>, views: seq<seq<Node>>, big: seq<bool>, i: nat)
    requires Run(states, views, big) && i < |states|
    requires forall k :: 0 <= k < |views| ==> ValidView(views[k])
    ensures states[i].stored < TWO_63 && (i > 0 ==> states[i].ticked)
    decreases i
  {
    if i > 0 {
      RecordedFits(states, views, big, i - 1);
      assert Tick(states[i - 1], views[i - 1], big[i - 1], states[i]);
      assert ValidView(views[i - 1]);
    }
  }

  /** In every run, from the second tick on, the recorded leader after a tick is the one oldest healthy
      node that the tick saw, or nobody if its id needs the sign bit. */
  lemma LeaderIsOldest(states: seq<State>, views: seq<seq<Node>>, big: seq<bool>, i: nat, n: Node)
    requires Run(states, views, big) && 1 <= i < |views|
    requires forall k :: 0 <= k < |views| ==> ValidView(views[k])
    requires Oldest(views[i], n)
    ensures RecordedLeader(states[i + 1].stored) == if n.id < TWO_63 then Some(n.id) else None
    ensures forall m :: Oldest(views[i], m) ==> m == n
  {
    RecordedFits(states, views, big, i);
    assert Tick(states[i], views[i], big[i], states[i + 1]) && ValidView(views[i]);
    TickElectsOldest(states[i], views[i], big[i], states[i + 1], n);
    forall m | Oldest(views[i], m)
      ensures m == n
    {
      OldestIsUnique(views[i], views[i], m, n);
    }
  }

  /** A node whose id needs the sign bit is announced on the second tick and again on the third, although
      nothing has changed. */
  lemma AnnouncedAgain(n: Node) returns (states: seq<State>, views: seq<seq<Node>>)
    requires n.healthy && TWO_63 <= n.id < TWO_64
    ensures views == [[n], [n], [n]] && ValidView([n]) && Run(states, views, [false, false, false])
    ensures states[2].notices == [LeaderChanged(n.id)]
    ensures states[3].notices == [LeaderChanged(n.id), LeaderChanged(n.id)]
  {
    views := [[n], [n], [n]];
    assert Oldest([n], n);
    assert Elects([n], Some(n.id));
    var first := Elect(INITIAL, Some(n.id), Ids([n]), false);
    var second := Elect(first, Some(n.id), Ids([n]), false);
    var third := Elect(second, Some(n.id), Ids([n]), false);
    assert Tick(INITIAL, [n], false, first) && Tick(first, [n], false, second) && Tick(second, [n], false, third);
    states := [INITIAL, first, second, third];
  }

  // ---------------------------------------------------------------------------------------------
  // What is published

  /** Being the oldest, spelled out: a node without a start time counts as the oldest, and among equals the
      smaller id wins. */
  lemma OldestMeans(nodes: seq<Node>, n: Node, m: Node)
    requires Oldest(nodes, n) && m in nodes && m.healthy
    ensures
      var mine := if n.startedAt.Some? then n.startedAt.value else 0;
      var other := if m.startedAt.Some? then m.startedAt.value else 0;
      mine < other || (mine == other && n.id <= m.id)
  {
  }

  /** A tick over a view with a healthy node, from the second one on, publishes a change of leader exactly when
      the oldest healthy node is not the recorded leader, and `MemberUp` before it exactly when the cluster is
      big enough for the first time; both name that node, and `MemberUp` all nodes of the view. */
  lemma PublishedIsExact(s: State, nodes: seq<Node>, bigEnough: bool, s': State, n: Node)
    requires ValidView(nodes) && Tick(s, nodes, bigEnough, s') && Oldest(nodes, n)
    ensures
      var changes := s.ticked && RecordedLeader(s.stored) != Some(n.id);
      var up := changes && !s.memberUp && bigEnough;
      && s'.notices == s.notices + (if up then [MemberUp(n.id, set m | m in nodes :: m.id)] else [])
                                 + (if changes then [LeaderChanged(n.id)] else [])
      && s'.memberUp == (s.memberUp || up) && s'.ticked
      && s'.stored == (if !changes then s.stored
                       else if n.id < 0x8000_0000_0000_0000 then n.id else n.id - 0x1_0000_0000_0000_0000)
  {
    var elected: Option<NodeId> :| Elects(nodes, elected) && s' == Elect(s, elected, Ids(nodes), bigEnough);
    assert elected.Some?;
    var m :| Oldest(nodes, m) && m.id == elected.value;
    OldestIsUnique(nodes, nodes, m, n);
    assert s.notices + [] + [] == s.notices;
    assert s.notices + [] + [LeaderChanged(n.id)] == s.notices + [LeaderChanged(n.id)];
  }

  /** Without a healthy node a tick publishes and records nothing. */
  lemma NobodyIsElected(s: State, nodes: seq<Node>, bigEnough: bool, s': State)
    requires Tick(s, nodes, bigEnough, s') && forall n :: n in nodes ==> !n.healthy
    ensures s' == s.(ticked := true)
  {
  }

  /** In every run, `MemberUp` has been published if and only if some earlier tick, not the first, saw a big
      enough cluster and a healthy node that was not the recorded leader. */
  lemma {:induction false} MemberUpIff(states: seq<State>, views: seq<seq<Node>>, big: seq<bool>, i: nat)
    requires Run(states, views, big) && i < |states|
    requires forall k :: 0 <= k < |views| ==> ValidView(views[k])
    ensures states[i].memberUp <==> exists k :: 0 <= k < i && Announces(states[k], views[k], big[k])
    decreases i
  {
    if i > 0 {
      MemberUpIff(states, views, big, i - 1);
      assert Tick(states[i - 1], views[i - 1], big[i - 1], states[i]);
      UpIff(states[i - 1], views[i - 1], big[i - 1], states[i]);
    }
  }

  ghost predicate Announces(s: State, nodes: seq<Node>, bigEnough: bool) {
    s.ticked && bigEnough && exists n :: Oldest(nodes, n) && RecordedLeader(s.stored) != Some(n.id)
  }

  lemma UpIff(s: State, nodes: seq<Node>, bigEnough: bool, s': State)
    requires ValidView(nodes) && Tick(s, nodes, bigEnough, s')
    ensures s'.memberUp <==> s.memberUp || Announces(s, nodes, bigEnough)
  {
    var elected: Option<NodeId> :| Elects(nodes, elected) && s' == Elect(s, elected, Ids(nodes), bigEnough);
    if elected.Some? {
      var n :| Oldest(nodes, n) && n.id == elected.value;
      PublishedIsExact(s, nodes, bigEnough, s', n);
      forall m | Oldest(nodes, m)
        ensures m == n
      {
        OldestIsUnique(nodes, nodes, m, n);
      }
    }
  }
}
