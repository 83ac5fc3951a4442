/** The write buffer of a remote client: messages that cannot be written are kept until it reconnects. */
module ClientBuffer {
  type Bytes = seq<nat>

  datatype State = Idle(attempts: nat) | Connected | Terminated

  const MAX_ATTEMPTS := 10

  /** `wire` is what was written to the connection, `lost` what was offered to a terminated client,
      `reconnects` the reconnections scheduled, and `removed` whether the client has been taken down. */
  datatype Client = Client(
    state: State,
    buffer: seq<Bytes>,
    total: nat,
    wire: seq<Bytes>,
    lost: seq<Bytes>,
    reconnects: nat,
    removed: bool)

  const INITIAL := Client(Idle(0), [], 0, [], [], 0, false)

  /** `written` says whether the connection takes the message; `outcomes` does so for the messages of a
      flush, in order, and further ones are taken. */
  datatype Event =
    | Write(bytes: Bytes, written: bool)
    | Connect(reached: bool, outcomes: seq<bool>)
    | Disconnected

  function Sum(buffer: seq<Bytes>): nat {
    if buffer == [] then 0 else |buffer[0]| + Sum(buffer[1..])
  }

  function OnDisconnected(c: Client): Client {
    match c.state
    case Idle(attempts) =>
      if attempts + 1 > MAX_ATTEMPTS then c.(state := Terminated, removed := true)
      else c.(state := Idle(attempts + 1), reconnects := c.reconnects + 1)
    case Connected => c.(state := Idle(1), reconnects := c.reconnects + 1)
    case Terminated => c.(reconnects := c.reconnects + 1)
  }

  function Keep(c: Client, bytes: Bytes): Client {
    c.(buffer := c.buffer + [bytes], total := c.total + |bytes|)
  }

  function OnWrite(c: Client, bytes: Bytes, written: bool): Client {
    match c.state
    case Idle(_) => Keep(c, bytes)
    case Connected => if written then c.(wire := c.wire + [bytes]) else OnDisconnected(Keep(c, bytes))
    case Terminated => OnDisconnected(c.(lost := c.lost + [bytes]))
  }

  /** How many messages a flush gets out before the first that fails. */
  function Flushed(buffer: seq<Bytes>, outcomes: seq<bool>): (n: nat)
    ensures n <= |buffer|
  {
    if buffer == [] || (outcomes != [] && !outcomes[0]) then 0
    else 1 + Flushed(buffer[1..], if outcomes == [] then [] else outcomes[1..])
  }

  function OnConnect(c: Client, reached: bool, outcomes: seq<bool>): Client {
    if c.state.Connected? then c
    else if reached then
      var n := Flushed(c.buffer, outcomes);
      c.(state := Connected, wire := c.wire + c.buffer[..n], buffer := c.buffer[n..],
         total := Sum(c.buffer[n..]))
    else
      OnDisconnected(c)
  }

  function Handle(c: Client, e: Event): Client {
    match e
    case Write(bytes, written) => OnWrite(c, bytes, written)
    case Connect(reached, outcomes) => OnConnect(c, reached, outcomes)
    case Disconnected => OnDisconnected(c)
  }

  /** The byte count is the length of what is buffered. */
  predicate Counted(c: Client) {
    c.total == Sum(c.buffer)
  }

  lemma {:induction false} SumAppend(buffer: seq<Bytes>, bytes: Bytes)
    ensures Sum(buffer + [bytes]) == Sum(buffer) + |bytes|
  {
    if buffer != [] {
      SumAppend(buffer[1..], bytes);
      assert (buffer + [bytes])[1..] == buffer[1..] + [bytes];
    }
  }

  class RemoteClient {
    var state: State
    var buffer: seq<Bytes>
    var total: nat
    var wire: seq<Bytes>
    var lost: seq<Bytes>
    var reconnects: nat
    var removed: bool

    ghost function View(): Client
      reads this
    {
      Client(state, buffer, total, wire, lost, reconnects, removed)
    }

    constructor ()
      ensures View() == INITIAL
    {
      state, buffer, total, wire, lost := Idle(0), [], 0, [], [];
      reconnects, removed := 0, false;
    }

    method HandleDisconnected()
      modifies this
      ensures View() == OnDisconnected(old(View()))
    {
      var reconnect := true;
      match state {
        case Idle(attempts) =>
          if attempts + 1 > MAX_ATTEMPTS {
            reconnect := false;
            state := Terminated;
          } else {
            state := Idle(attempts + 1);
          }
        case Connected => state := Idle(1);
        case Terminated =>
      }
      if reconnect {
        reconnects := reconnects + 1;
      } else {
        removed := true;
      }
    }

    method BufferMessage(bytes: Bytes)
      modifies this
      ensures View() == Keep(old(View()), bytes)
    {
      total := total + |bytes|;
      buffer := buffer + [bytes];
    }

    method HandleWrite(bytes: Bytes, written: bool)
      modifies this
      ensures View() == OnWrite(old(View()), bytes, written)
    {
      match state
      case Idle(_) =>
        BufferMessage(bytes);
      case Connected =>
        if written {
          wire := wire + [bytes];
        } else {
          BufferMessage(bytes);
          HandleDisconnected();
        }
      case Terminated =>
        lost := lost + [bytes];
        HandleDisconnected();
    }

    /** The subtraction below never goes under zero, because the count is exact. */
    method FlushBufferedWrites(outcomes: seq<bool>)
      requires Counted(View())
      modifies this`wire, this`buffer, this`total
      ensures
        var n := if state.Connected? then Flushed(old(buffer), outcomes) else 0;
        wire == old(wire) + old(buffer)[..n] && buffer == old(buffer)[n..] && total == Sum(buffer)
    {
      if !state.Connected? {
        return;
      }
      var plan := outcomes;
      ghost var done := 0;
      while |buffer| > 0
        invariant done <= |old(buffer)| && buffer == old(buffer)[done..] && wire == old(wire) + old(buffer)[..done]
        invariant total == Sum(buffer)
        invariant Flushed(old(buffer), outcomes) == done + Flushed(buffer, plan)
        decreases |buffer|
      {
        var bytes := buffer[0];
        assert old(buffer)[done] == bytes && old(buffer)[done..][1..] == old(buffer)[done + 1..];
        assert old(buffer)[..done + 1] == old(buffer)[..done] + [bytes];
        buffer := buffer[1..];
        var ok := |plan| == 0 || plan[0];
        plan := if |plan| == 0 then [] else plan[1..];
        if ok {
          wire := wire + [bytes];
          total := total - |bytes|;
          done := done + 1;
        } else {
          buffer := [bytes] + buffer;
          break;
        }
      }
    }

    method HandleConnect(reached: bool, outcomes: seq<bool>)
      requires Counted(View())
      modifies this
      ensures View() == OnConnect(old(View()), reached, outcomes)
    {
      if state.Connected? {
        return;
      }
      if reached {
        state := Connected;
        FlushBufferedWrites(outcomes);
      } else {
        HandleDisconnected();
      }
    }
  }

  ghost predicate Run(clients: seq<Client>, events: seq<Event>) {
    && |clients| == |events| + 1 && clients[0] == INITIAL
    && forall i :: 0 <= i < |events| ==> clients[i + 1] == Handle(clients[i], events[i])
  }

  /** The messages that were offered, in order. */
  function Offered(events: seq<Event>): seq<Bytes> {
    if events == [] then []
    else
      var init, e := Offered(events[..|events| - 1]), events[|events| - 1];
      if e.Write? then init + [e.bytes] else init
  }

  /** Every message the client has been offered and where it is now. */
  function Held(c: Client): multiset<Bytes> {
    multiset(c.wire) + multiset(c.buffer) + multiset(c.lost)
  }

  lemma HandleCounts(c: Client, e: Event)
    requires Counted(c)
    ensures Counted(Handle(c, e))
  {
    if e.Write? {
      SumAppend(c.buffer, e.bytes);
    }
  }

  lemma OneMore(a: seq<Bytes>, bytes: Bytes)
    ensures multiset(a + [bytes]) == multiset(a) + multiset{bytes}
  {
  }

  lemma WriteHolds(c: Client, bytes: Bytes, written: bool)
    ensures Held(OnWrite(c, bytes, written)) == Held(c) + multiset{bytes}
  {
    match c.state
    case Idle(_) => OneMore(c.buffer, bytes);
    case Connected =>
      OneMore(c.wire, bytes);
      OneMore(c.buffer, bytes);
    case Terminated => OneMore(c.lost, bytes);
  }

  lemma FlushHolds(wire: seq<Bytes>, buffer: seq<Bytes>, n: nat)
    requires n <= |buffer|
    ensures multiset(wire + buffer[..n]) + multiset(buffer[n..]) == multiset(wire) + multiset(buffer)
  {
    assert buffer == buffer[..n] + buffer[n..];
    assert multiset(buffer) == multiset(buffer[..n]) + multiset(buffer[n..]);
  }

  lemma ConnectHolds(c: Client, reached: bool, outcomes: seq<bool>)
    ensures Held(OnConnect(c, reached, outcomes)) == Held(c)
  {
    FlushHolds(c.wire, c.buffer, Flushed(c.buffer, outcomes));
  }

  lemma HandleHolds(c: Client, e: Event)
    ensures Held(Handle(c, e)) == if e.Write? then Held(c) + multiset{e.bytes} else Held(c)
  {
    match e
    case Write(bytes, written) => WriteHolds(c, bytes, written);
    case Connect(reached, outcomes) => ConnectHolds(c, reached, outcomes);
    case Disconnected =>
  }

  lemma OfferedGrows(events: seq<Event>, e: Event)
    ensures Offered(events + [e]) == if e.Write? then Offered(events) + [e.bytes] else Offered(events)
  {
    assert (events + [e])[..|events|] == events;
  }

  lemma ConservedStep(c: Client, e: Event, offered: seq<Bytes>)
    requires multiset(offered) == Held(c)
    ensures multiset(if e.Write? then offered + [e.bytes] else offered) == Held(Handle(c, e))
  {
    HandleHolds(c, e);
    if e.Write? {
      OneMore(offered, e.bytes);
    }
  }

  /** Over every run the byte count is exact, and the messages offered are exactly those written, buffered,
      or offered while the client was terminated. */
  lemma {:induction false} MessagesAreConserved(clients: seq<Client>, events: seq<Event>, i: nat)
    requires Run(clients, events) && i < |clients|
    ensures Counted(clients[i])
    ensures multiset(Offered(events[..i])) == Held(clients[i])
    decreases i
  {
    if i > 0 {
      MessagesAreConserved(clients, events, i - 1);
      var c, e, before := clients[i - 1], events[i - 1], events[..i - 1];
      assert clients[i] == Handle(c, e) && events[..i] == before + [e];
      assert Counted(clients[i]) by {
        HandleCounts(c, e);
      }
      OfferedGrows(before, e);
      ConservedStep(c, e, Offered(before));
    }
  }

  /** Written messages followed by buffered ones. */
  function Line(c: Client): seq<Bytes> {
    c.wire + c.buffer
  }

  lemma {:induction false} RotateIffEqual(b: seq<Bytes>, m: Bytes)
    ensures [m] + b == b + [m] <==> forall i :: 0 <= i < |b| ==> b[i] == m
  {
    var left, right := [m] + b, b + [m];
    if b != [] && left == right {
      assert left[0] == m && right[0] == b[0];
      assert left[1..] == b && right[1..] == b[1..] + [m];
      assert b == [m] + b[1..];
      RotateIffEqual(b[1..], m);
    }
    if forall i :: 0 <= i < |b| ==> b[i] == m {
      assert forall i :: 0 <= i < |left| ==> left[i] == m && right[i] == m;
    }
  }

  /** A message joins the end of the line, if and only if it is not written past different messages that a
      broken-off flush left in the buffer of a connected client. */
  lemma OrderIffNotOvertaking(c: Client, bytes: Bytes, written: bool)
    requires !c.state.Terminated?
    ensures Line(OnWrite(c, bytes, written)) == Line(c) + [bytes]
       <==> (c.state.Connected? && written ==> forall i :: 0 <= i < |c.buffer| ==> c.buffer[i] == bytes)
  {
    RotateIffEqual(c.buffer, bytes);
    if c.state.Connected? && written {
      var line, line' := Line(OnWrite(c, bytes, written)), Line(c) + [bytes];
      assert line == c.wire + ([bytes] + c.buffer) && line' == c.wire + (c.buffer + [bytes]);
      assert line[|c.wire|..] == [bytes] + c.buffer && line'[|c.wire|..] == c.buffer + [bytes];
    }
  }

  /** The write joins the end of the line. */
  predicate Joins(c: Client, e: Event) {
    e.Write? ==>
      && !c.state.Terminated?
      && (c.state.Connected? && e.written ==> forall i :: 0 <= i < |c.buffer| ==> c.buffer[i] == e.bytes)
  }

  lemma ConnectKeepsLine(c: Client, reached: bool, outcomes: seq<bool>)
    ensures Line(OnConnect(c, reached, outcomes)) == Line(c)
  {
    if !c.state.Connected? && reached {
      var n := Flushed(c.buffer, outcomes);
      assert (c.wire + c.buffer[..n]) + c.buffer[n..] == c.wire + (c.buffer[..n] + c.buffer[n..]);
      assert c.buffer[..n] + c.buffer[n..] == c.buffer;
    }
  }

  lemma HandleKeepsLine(c: Client, e: Event)
    requires Joins(c, e)
    ensures Line(Handle(c, e)) == if e.Write? then Line(c) + [e.bytes] else Line(c)
  {
    match e
    case Write(bytes, written) => OrderIffNotOvertaking(c, bytes, written);
    case Connect(reached, outcomes) => ConnectKeepsLine(c, reached, outcomes);
    case Disconnected =>
  }

  /** In every run whose writes meet that condition, written messages followed by buffered ones are the
      messages offered, in order. */
  lemma {:induction false} OrderIsKept(clients: seq<Client>, events: seq<Event>, i: nat)
    requires Run(clients, events) && i < |clients|
    requires forall k :: 0 <= k < i ==> Joins(clients[k], events[k])
    ensures Line(clients[i]) == Offered(events[..i])
    decreases i
  {
    if i > 0 {
      OrderIsKept(clients, events, i - 1);
      HandleKeepsLine(clients[i - 1], events[i - 1]);
      assert events[..i] == events[..i - 1] + [events[i - 1]];
      OfferedGrows(events[..i - 1], events[i - 1]);
    }
  }

  /** A message overtakes the one that the flush of a new connection could not write. */
  lemma WriteOvertakes(a: Bytes, b: Bytes) returns (clients: seq<Client>, events: seq<Event>)
    requires a != b
    ensures Run(clients, events) && events == [Write(a, true), Connect(true, [false]), Write(b, true)]
    ensures Offered(events) == [a, b] && Line(clients[3]) == [b, a]
  {
    events := [Write(a, true), Connect(true, [false]), Write(b, true)];
    var first := Keep(INITIAL, a);
    assert first.buffer == [a];
    var second := first.(state := Connected);
    assert Flushed([a], [false]) == 0 && Sum([a]) == |a|;
    assert OnConnect(first, true, [false]) == second;
    var third := second.(wire := [b]);
    assert OnWrite(second, b, true) == third;
    clients := [INITIAL, first, second, third];
    var one, two := [Write(a, true)], [Write(a, true), Connect(true, [false])];
    assert events[..2] == two && two[..1] == one && one[..0] == [];
    assert Offered(one) == [a] && Offered(two) == [a];
  }

  /** A flush stops exactly at the first message that fails. */
  lemma {:induction false} FlushedExactly(buffer: seq<Bytes>, outcomes: seq<bool>)
    ensures
      var n := Flushed(buffer, outcomes);
      && (forall i :: 0 <= i < n && i < |outcomes| ==> outcomes[i])
      && (n < |buffer| ==> n < |outcomes| && !outcomes[n])
    decreases buffer
  {
    if buffer != [] && (outcomes == [] || outcomes[0]) {
      var rest := if outcomes == [] then [] else outcomes[1..];
      FlushedExactly(buffer[1..], rest);
      assert forall i :: 1 <= i < |outcomes| ==> outcomes[i] == rest[i - 1];
    }
  }

  /** A new connection takes the waiting messages in order, up to the first that it cannot write. */
  lemma ConnectFlushes(c: Client, outcomes: seq<bool>)
    requires !c.state.Connected?
    ensures
      var c' := OnConnect(c, true, outcomes);
      var n := |c.buffer| - |c'.buffer|;
      && 0 <= n && c'.wire == c.wire + c.buffer[..n] && c'.buffer == c.buffer[n..]
      && (forall i :: 0 <= i < n && i < |outcomes| ==> outcomes[i])
      && (c'.buffer != [] ==> n < |outcomes| && !outcomes[n])
  {
    FlushedExactly(c.buffer, outcomes);
  }

  // ---------------------------------------------------------------------------------------------
  // Connection attempts

  /** The event is a lost connection or a failed attempt to get one, or finds out about it. */
  predicate Fails(c: Client, e: Event) {
    match e
    case Disconnected => true
    case Connect(reached, _) => !c.state.Connected? && !reached
    case Write(_, written) => c.state.Terminated? || (c.state.Connected? && !written)
  }

  /** How many failures there have been since the client was last connected. */
  function Streak(clients: seq<Client>, events: seq<Event>, i: nat): nat
    requires i <= |events| < |clients|
  {
    if i == 0 || clients[i].state.Connected? then 0
    else Streak(clients, events, i - 1) + (if Fails(clients[i - 1], events[i - 1]) then 1 else 0)
  }

  /** The client has given up in this step. */
  predicate Ends(c: Client, c': Client) {
    c.state.Idle? && c'.state.Terminated?
  }

  /** What an event does to the state, the reconnections scheduled, the removal, and the messages lost. */
  lemma StateAfter(c: Client, e: Event)
    ensures
      var c' := Handle(c, e);
      && (!Fails(c, e) ==> c'.state == if e.Connect? && e.reached then Connected else c.state)
      && (Fails(c, e) ==> c'.state == match c.state {
            case Idle(attempts) => if attempts < 10 then Idle(attempts + 1) else Terminated
            case Connected => Idle(1)
            case Terminated => Terminated
          })
      && c'.reconnects == c.reconnects + (if Fails(c, e) && !Ends(c, c') then 1 else 0)
      && c'.removed == (c.removed || Ends(c, c'))
      && c'.lost == c.lost + (if e.Write? && c.state.Terminated? then [e.bytes] else [])
  {
  }

  /** In every run a client that is not connected has tried as often as it has failed since it last was, up to
      ten times; with the eleventh failure in a row it is terminated. */
  lemma {:induction false} TerminatedAfterEleven(clients: seq<Client>, events: seq<Event>, i: nat)
    requires Run(clients, events) && i < |clients| && !clients[i].state.Connected?
    ensures
      var failures := Streak(clients, events, i);
      clients[i].state == if failures <= 10 then Idle(failures) else Terminated
    decreases i
  {
    if i > 0 {
      var c, e := clients[i - 1], events[i - 1];
      assert clients[i] == Handle(c, e);
      StateAfter(c, e);
      if !c.state.Connected? {
        TerminatedAfterEleven(clients, events, i - 1);
      }
    }
  }
}
