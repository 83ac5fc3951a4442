/** What a shard host knows of each shard, told from the events about that shard alone, and what it asks for. */
module HostTrack {
  import opened Prelude
  import opened ShardHost
  import opened HostLedger

  datatype Phase = Absent | Booting | Up | Halting

  function PhaseOf(h: Host, s: ShardId): Phase {
    if s !in h.hosted then Absent
    else match h.hosted[s]
      case Starting(_, _) => Booting
      case Ready => Up
      case Stopping => Halting
  }

  function PlaceOf(h: Host, s: ShardId): Option<NodeId> {
    if s in h.remote then Some(h.remote[s]) else None
  }

  /** The phase of a shard on this node, as its own events tell it. */
  function Phased(events: seq<Event>, self: NodeId, s: ShardId): Phase {
    if events == [] then Absent
    else
      var before, e := Phased(events[..|events| - 1], self, s), events[|events| - 1];
      if e.Entity? || e.shard != s then before
      else match e
        case Allocated(_, node) => if node != self then Absent else if before.Absent? then Booting else before
        case ShardReady(_) => Up
        case StopShard(_, _) => if before.Absent? then Absent else Halting
        case ShardStopped(_) => Absent
        case Reallocating(_) => before
  }

  /** Where else a shard is known to be: where it was last allocated, unless it is here or on the move. */
  function Placed(events: seq<Event>, self: NodeId, s: ShardId): Option<NodeId> {
    if events == [] then None
    else
      var before, e := Placed(events[..|events| - 1], self, s), events[|events| - 1];
      match e
      case Allocated(t, node) => if t != s then before else if node == self then None else Some(node)
      case Reallocating(t) => if t == s then None else before
      case _ => before
  }

  /** Requests for a shard that is known here change no phase, no place, and ask or stop nothing. */
  lemma {:induction false} RequestsAreQuiet(h: Host, rs: seq<Request>, s: ShardId, t: ShardId)
    requires Own(rs, s) && (s in h.hosted || s in h.remote)
    ensures
      var h' := OnRequests(h, rs);
      && h'.remote == h.remote && h'.asked == h.asked && h'.stops == h.stops
      && h'.hosted.Keys == h.hosted.Keys && PhaseOf(h', t) == PhaseOf(h, t)
  {
    if rs != [] {
      var init, q := rs[..|rs| - 1], rs[|rs| - 1];
      assert q in rs;
      assert Own(init, s);
      RequestsAreQuiet(h, init, s, t);
    }
  }

  /** What one event does to a shard's phase and place. */
  lemma AllocatedTracks(h: Host, self: NodeId, s: ShardId, node: NodeId, t: ShardId)
    requires AtHome(h)
    ensures
      var h' := OnAllocated(h, self, s, node);
      && PhaseOf(h', t) == (if t != s then PhaseOf(h, t) else if node != self then Absent
                            else if PhaseOf(h, t).Absent? then Booting else PhaseOf(h, t))
      && PlaceOf(h', t) == (if t != s then PlaceOf(h, t) else if node == self then None else Some(node))
      && h'.asked == h.asked
      && h'.stops == h.stops + (if node != self && (PhaseOf(h, s).Booting? || PhaseOf(h, s).Up?) then [Stop(s, None)] else [])
  {
    var settled := Settle(h, self, s, node);
    SettleAtHome(h, self, s, node);
    assert Own(Pending(h, s), s);
    RequestsAreQuiet(settled.(pending := settled.pending - {s}), Pending(h, s), s, t);
  }

  lemma RequestTracks(h: Host, r: Request, t: ShardId)
    ensures
      var h' := OnRequest(h, r);
      && PhaseOf(h', t) == PhaseOf(h, t) && PlaceOf(h', t) == PlaceOf(h, t) && h'.stops == h.stops
      && h'.asked == h.asked + (if PhaseOf(h, r.shard).Absent? && PlaceOf(h, r.shard).None? then [r.shard] else [])
  {
  }

  lemma HandleTracks(h: Host, self: NodeId, e: Event, before: seq<Event>, t: ShardId)
    requires AtHome(h) && PhaseOf(h, t) == Phased(before, self, t) && PlaceOf(h, t) == Placed(before, self, t)
    ensures PhaseOf(Handle(h, self, e), t) == Phased(before + [e], self, t)
    ensures PlaceOf(Handle(h, self, e), t) == Placed(before + [e], self, t)
  {
    assert (before + [e])[..|before|] == before;
    match e
    case Entity(r) => RequestTracks(h, r, t);
    case Allocated(s, node) => AllocatedTracks(h, self, s, node, t);
    case _ =>
  }

  /** In every run the phase of a shard here, and its place elsewhere, are what its own events tell. */
  lemma {:induction false} ShardsAreTracked(self: NodeId, hosts: seq<Host>, events: seq<Event>, i: nat, s: ShardId)
    requires Run(self, hosts, events) && i < |hosts|
    ensures PhaseOf(hosts[i], s) == Phased(events[..i], self, s)
    ensures PlaceOf(hosts[i], s) == Placed(events[..i], self, s)
    decreases i
  {
    if i > 0 {
      var k := i - 1;
      ShardsAreTracked(self, hosts, events, k, s);
      RunAtHome(self, hosts, events, k);
      HandleTracks(hosts[k], self, events[k], events[..k], s);
      assert events[..i] == events[..k] + [events[k]];
    }
  }

  /** What one event asks of the coordinator: an allocation for each request whose shard is known nowhere. */
  function Asks(h: Host, e: Event): seq<ShardId> {
    if e.Entity? && e.request.shard !in h.hosted && e.request.shard !in h.remote then [e.request.shard] else []
  }

  /** In every run the coordinator is asked for exactly these allocations. */
  lemma AskedIsExact(self: NodeId, hosts: seq<Host>, events: seq<Event>, i: nat)
    requires Run(self, hosts, events) && i < |events|
    ensures hosts[i + 1].asked == hosts[i].asked + Asks(hosts[i], events[i])
  {
    RunAtHome(self, hosts, events, i);
    var h, e := hosts[i], events[i];
    match e
    case Entity(r) => RequestTracks(h, r, r.shard);
    case Allocated(s, node) => AllocatedTracks(h, self, s, node, s);
    case _ =>
  }

  /** What waits for an allocation afterwards waited before, or has just been asked for. */
  lemma PendingGrows(h: Host, self: NodeId, e: Event, s: ShardId)
    requires AtHome(h) && Pending(Handle(h, self, e), s) != []
    ensures Pending(h, s) != [] || Asks(h, e) == [s]
  {
    match e
    case Entity(r) => RequestMoves(h, r, s);
    case Allocated(t, node) => AllocatedSettles(h, self, t, node);
    case _ =>
  }

  /** So in every run, whatever is pending has been asked for. */
  lemma {:induction false} PendingWasAsked(self: NodeId, hosts: seq<Host>, events: seq<Event>, i: nat, s: ShardId)
    requires Run(self, hosts, events) && i < |hosts| && Pending(hosts[i], s) != []
    ensures s in hosts[i].asked
    decreases i
  {
    if i > 0 {
      var k := i - 1;
      RunAtHome(self, hosts, events, k);
      PendingGrows(hosts[k], self, events[k], s);
      AskedIsExact(self, hosts, events, k);
      if Pending(hosts[k], s) != [] {
        PendingWasAsked(self, hosts, events, k, s);
      }
    }
  }

  /** In every run a shard is told to stop exactly when it moves away while starting or ready, or is asked to
      stop while ready; only in the second case is the outcome reported. */
  lemma StopsAreExact(self: NodeId, hosts: seq<Host>, events: seq<Event>, i: nat)
    requires Run(self, hosts, events) && i < |events|
    ensures
      var h, e := hosts[i], events[i];
      hosts[i + 1].stops == h.stops + match e {
        case Allocated(s, node) =>
          if node != self && s in h.hosted && !h.hosted[s].Stopping? then [Stop(s, None)] else []
        case StopShard(s, requestId) =>
          if s in h.hosted && h.hosted[s].Ready? then [Stop(s, Some(requestId))] else []
        case _ => []
      }
  {
    RunAtHome(self, hosts, events, i);
    var h, e := hosts[i], events[i];
    match e
    case Entity(r) => RequestTracks(h, r, r.shard);
    case Allocated(s, node) => AllocatedTracks(h, self, s, node, s);
    case _ =>
  }
}
