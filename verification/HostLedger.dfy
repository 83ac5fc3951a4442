/** What becomes of every entity request over any run of a shard host. */
module HostLedger {
  import opened Prelude
  import opened ShardHost

  ghost predicate Run(self: NodeId, hosts: seq<Host>, events: seq<Event>) {
    && |hosts| == |events| + 1
    && hosts[0] == EMPTY
    && forall i :: 0 <= i < |events| ==> hosts[i + 1] == Handle(hosts[i], self, events[i])
  }

  /** The requests that have reached the host, in order. */
  function Arrived(events: seq<Event>): seq<Request> {
    if events == [] then []
    else
      var init, e := Arrived(events[..|events| - 1]), events[|events| - 1];
      if e.Entity? then init + [e.request] else init
  }

  /** How often a request occurs. */
  function Times(rs: seq<Request>, r: Request): nat {
    if rs == [] then 0
    else Times(rs[..|rs| - 1], r) + (if rs[|rs| - 1] == r then 1 else 0)
  }

  lemma {:induction false} TimesAppend(a: seq<Request>, b: seq<Request>, r: Request)
    ensures Times(a + b, r) == Times(a, r) + Times(b, r)
  {
    if b == [] {
      assert a + b == a;
    } else {
      TimesAppend(a, b[..|b| - 1], r);
      assert (a + b)[..|a + b| - 1] == a + b[..|b| - 1];
    }
  }

  lemma {:induction false} TimesForeign(rs: seq<Request>, s: ShardId, r: Request)
    requires Own(rs, s) && r.shard != s
    ensures Times(rs, r) == 0
  {
    if rs != [] {
      assert Own(rs[..|rs| - 1], s);
      TimesForeign(rs[..|rs| - 1], s, r);
    }
  }

  /** In how many places a request is: sent, dropped, in its shard's start buffer, or pending. */
  function Places(h: Host, r: Request): nat {
    Times(h.sent, r) + Times(h.dropped, r) + Times(Buffer(h, r.shard), r) + Times(Pending(h, r.shard), r)
  }

  ghost predicate Own(rs: seq<Request>, s: ShardId) {
    forall r :: r in rs ==> r.shard == s
  }

  /** Requests wait where their shard is; and no starting shard remembers a stop request. */
  ghost predicate AtHome(h: Host) {
    && (forall s {:trigger Buffer(h, s)} :: Own(Buffer(h, s), s))
    && (forall s {:trigger Pending(h, s)} :: Own(Pending(h, s), s))
    && (forall s :: s in h.hosted && h.hosted[s].Starting? ==> h.hosted[s].stopRequested.None?)
  }

  /** The four places after one request: it goes to exactly one of them. */
  lemma RequestMoves(h: Host, q: Request, s: ShardId)
    ensures
      var h' := OnRequest(h, q);
      var known, here := q.shard in h.hosted || q.shard in h.remote, q.shard in h.hosted;
      && Buffer(h', s) == Buffer(h, s) + (if s == q.shard && here && h.hosted[s].Starting? then [q] else [])
      && Pending(h', s) == Pending(h, s) + (if s == q.shard && !known then [q] else [])
      && h'.sent == h.sent + (if known && (!here || h.hosted[q.shard].Ready?) then [q] else [])
      && h'.dropped == h.dropped + (if here && h.hosted[q.shard].Stopping? then [q] else [])
  {
  }

  lemma TimesOneMore(rs: seq<Request>, q: Request, r: Request)
    ensures Times(rs + [q], r) == Times(rs, r) + (if q == r then 1 else 0)
    ensures Times(rs + [], r) == Times(rs, r)
  {
    assert (rs + [q])[..|rs|] == rs && rs + [] == rs;
  }

  lemma TimesMaybe(rs: seq<Request>, added: bool, q: Request, r: Request)
    ensures Times(rs + (if added then [q] else []), r) == Times(rs, r) + (if added && q == r then 1 else 0)
  {
    TimesOneMore(rs, q, r);
  }

  lemma RequestPlaces(h: Host, q: Request, r: Request)
    ensures Places(OnRequest(h, q), r) == Places(h, r) + (if q == r then 1 else 0)
  {
    RequestMoves(h, q, r.shard);
    var known, here, own := q.shard in h.hosted || q.shard in h.remote, q.shard in h.hosted, r.shard == q.shard;
    TimesMaybe(h.sent, known && (!here || h.hosted[q.shard].Ready?), q, r);
    TimesMaybe(h.dropped, here && h.hosted[q.shard].Stopping?, q, r);
    TimesMaybe(Buffer(h, r.shard), own && here && h.hosted[r.shard].Starting?, q, r);
    TimesMaybe(Pending(h, r.shard), own && !known, q, r);
  }

  lemma RequestAtHome(h: Host, q: Request)
    requires AtHome(h)
    ensures AtHome(OnRequest(h, q))
  {
    var h' := OnRequest(h, q);
    forall s
      ensures Own(Buffer(h', s), s) && Own(Pending(h', s), s)
    {
      RequestMoves(h, q, s);
      assert Own(Buffer(h, s), s) && Own(Pending(h, s), s);
    }
  }

  lemma {:induction false} RequestsPlaces(h: Host, rs: seq<Request>, r: Request)
    ensures Places(OnRequests(h, rs), r) == Places(h, r) + Times(rs, r)
  {
    if rs != [] {
      var init, q := rs[..|rs| - 1], rs[|rs| - 1];
      RequestsPlaces(h, init, r);
      assert Places(OnRequests(h, rs), r) == Places(OnRequests(h, init), r) + (if q == r then 1 else 0) by {
        RequestPlaces(OnRequests(h, init), q, r);
      }
    }
  }

  /** Requests for a shard that is known here are handled without waiting. */
  lemma {:induction false} RequestsSettled(h: Host, rs: seq<Request>, s: ShardId)
    requires AtHome(h) && (s in h.hosted || s in h.remote)
    requires Own(rs, s)
    ensures
      var h' := OnRequests(h, rs);
      && AtHome(h') && h'.pending == h.pending && h'.remote == h.remote && h'.hosted.Keys == h.hosted.Keys
      && (forall t :: t in h.hosted && t != s ==> h'.hosted[t] == h.hosted[t])
  {
    if rs != [] {
      RequestsSettled(h, rs[..|rs| - 1], s);
      RequestAtHome(OnRequests(h, rs[..|rs| - 1]), rs[|rs| - 1]);
    }
  }

  lemma ForgetPlaces(h: Host, s: ShardId, r: Request)
    requires AtHome(h)
    ensures Places(Forget(h, s), r) == Places(h, r)
  {
    TimesAppend(h.dropped, Buffer(h, s), r);
    if r.shard != s {
      assert Own(Buffer(h, s), s);
      TimesForeign(Buffer(h, s), s, r);
    }
  }

  lemma SettlePlaces(h: Host, self: NodeId, s: ShardId, node: NodeId, r: Request)
    requires AtHome(h)
    ensures Places(Settle(h, self, s, node), r) == Places(h, r)
    ensures Settle(h, self, s, node).pending == h.pending
  {
    if node != self {
      ForgetPlaces(h, s, r);
    }
  }

  lemma UnpendPlaces(h: Host, s: ShardId, r: Request)
    requires AtHome(h)
    ensures Places(h.(pending := h.pending - {s}), r) + Times(Pending(h, s), r) == Places(h, r)
  {
    if r.shard != s {
      assert Own(Pending(h, s), s);
      TimesForeign(Pending(h, s), s, r);
    }
  }

  lemma SettleAtHome(h: Host, self: NodeId, s: ShardId, node: NodeId)
    requires AtHome(h)
    ensures
      var settled := Settle(h, self, s, node);
      && (s in settled.hosted || s in settled.remote)
      && AtHome(settled) && AtHome(settled.(pending := settled.pending - {s}))
  {
    var settled := Settle(h, self, s, node);
    var h' := settled.(pending := settled.pending - {s});
    forall t
      ensures Own(Buffer(settled, t), t) && Own(Pending(settled, t), t)
      ensures Own(Buffer(h', t), t) && Own(Pending(h', t), t)
    {
      assert Own(Buffer(h, t), t) && Own(Pending(h, t), t);
    }
  }

  /** After an allocation is announced nothing for that shard is left pending. */
  lemma AllocatedSettles(h: Host, self: NodeId, s: ShardId, node: NodeId)
    requires AtHome(h)
    ensures AtHome(OnAllocated(h, self, s, node)) && Pending(OnAllocated(h, self, s, node), s) == []
    ensures OnAllocated(h, self, s, node).pending == h.pending - {s}
  {
    var settled := Settle(h, self, s, node);
    SettleAtHome(h, self, s, node);
    RequestsSettled(settled.(pending := settled.pending - {s}), Pending(h, s), s);
  }

  lemma AllocatedPlaces(h: Host, self: NodeId, s: ShardId, node: NodeId, r: Request)
    requires AtHome(h)
    ensures Places(OnAllocated(h, self, s, node), r) == Places(h, r)
  {
    var settled := Settle(h, self, s, node);
    SettlePlaces(h, self, s, node, r);
    SettleAtHome(h, self, s, node);
    UnpendPlaces(settled, s, r);
    RequestsPlaces(settled.(pending := settled.pending - {s}), Pending(h, s), r);
  }

  lemma ReadyPlaces(h: Host, s: ShardId, r: Request)
    requires AtHome(h)
    ensures Places(OnReady(h, s), r) == Places(h, r)
  {
    TimesAppend(h.sent, Buffer(h, s), r);
    if r.shard != s {
      assert Own(Buffer(h, s), s);
      TimesForeign(Buffer(h, s), s, r);
    }
  }

  lemma StopPlaces(h: Host, s: ShardId, requestId: nat, r: Request)
    requires AtHome(h)
    ensures Places(OnStop(h, s, requestId), r) == Places(h, r)
  {
    TimesAppend(h.dropped, Buffer(h, s), r);
    if r.shard != s {
      assert Own(Buffer(h, s), s);
      TimesForeign(Buffer(h, s), s, r);
    }
  }

  lemma HandleKeepsHome(h: Host, self: NodeId, e: Event)
    requires AtHome(h)
    ensures AtHome(Handle(h, self, e))
  {
    match e
    case Entity(r) => RequestAtHome(h, r);
    case Allocated(s, node) => AllocatedSettles(h, self, s, node);
    case _ =>
      var h' := Handle(h, self, e);
      forall s
        ensures Own(Buffer(h', s), s) && Own(Pending(h', s), s)
      {
        assert Own(Buffer(h, s), s) && Own(Pending(h, s), s);
      }
  }

  lemma HandlePlaces(h: Host, self: NodeId, e: Event, r: Request)
    requires AtHome(h)
    ensures Places(Handle(h, self, e), r) == Places(h, r) + (if e == Entity(r) then 1 else 0)
  {
    match e
    case Entity(q) => RequestPlaces(h, q, r);
    case Allocated(s, node) => AllocatedPlaces(h, self, s, node, r);
    case ShardReady(s) => ReadyPlaces(h, s, r);
    case Reallocating(_) =>
    case StopShard(s, requestId) => StopPlaces(h, s, requestId, r);
    case ShardStopped(s) => ForgetPlaces(h, s, r);
  }

  lemma {:induction false} RunAtHome(self: NodeId, hosts: seq<Host>, events: seq<Event>, i: nat)
    requires Run(self, hosts, events) && i < |hosts|
    ensures AtHome(hosts[i])
    decreases i
  {
    if i > 0 {
      RunAtHome(self, hosts, events, i - 1);
      HandleKeepsHome(hosts[i - 1], self, events[i - 1]);
    }
  }

  /** The ledger balances: at every point of every run, each request that arrived is in exactly one of
      the four places, as often as it arrived, and nothing else is. */
  lemma {:induction false} LedgerBalances(self: NodeId, hosts: seq<Host>, events: seq<Event>, i: nat, r: Request)
    requires Run(self, hosts, events) && i < |hosts|
    ensures Places(hosts[i], r) == Times(Arrived(events[..i]), r)
    decreases i
  {
    if i > 0 {
      LedgerBalances(self, hosts, events, i - 1, r);
      RunAtHome(self, hosts, events, i - 1);
      HandlePlaces(hosts[i - 1], self, events[i - 1], r);
      assert events[..i][..i - 1] == events[..i - 1];
      if events[i - 1].Entity? {
        TimesOneMore(Arrived(events[..i - 1]), events[i - 1].request, r);
      }
    }
  }

  // ---------------------------------------------------------------------------------------------
  // Discards

  /** What an event costs: a request to a stopping shard, the buffer of a starting shard that is stopped
      or moves away, or requests that waited for a shard which is stopping when it is allocated here. */
  function Cost(h: Host, self: NodeId, e: Event): seq<Request> {
    match e
    case Entity(r) => if r.shard in h.hosted && h.hosted[r.shard].Stopping? then [r] else []
    case Allocated(s, node) =>
      if node != self then Buffer(h, s)
      else if s in h.hosted && h.hosted[s].Stopping? then Pending(h, s)
      else []
    case StopShard(s, _) => Buffer(h, s)
    case ShardStopped(s) => Buffer(h, s)
    case _ => []
  }

  lemma {:induction false} RequestsDrop(h: Host, rs: seq<Request>, s: ShardId)
    requires Own(rs, s)
    ensures OnRequests(h, rs).dropped == h.dropped + (if s in h.hosted && h.hosted[s].Stopping? then rs else [])
    ensures s in h.hosted && h.hosted[s].Stopping? ==> OnRequests(h, rs).hosted == h.hosted
    ensures !(s in h.hosted && h.hosted[s].Stopping?) ==>
      !(s in OnRequests(h, rs).hosted && OnRequests(h, rs).hosted[s].Stopping?)
  {
    if rs != [] {
      var init, q := rs[..|rs| - 1], rs[|rs| - 1];
      assert rs == init + [q] && q in rs;
      assert Own(init, s);
      RequestsDrop(h, init, s);
      RequestDrops(OnRequests(h, init), q);
    }
  }

  lemma RequestDrops(h: Host, q: Request)
    ensures
      var h', stopping := OnRequest(h, q), q.shard in h.hosted && h.hosted[q.shard].Stopping?;
      && h'.dropped == h.dropped + (if stopping then [q] else [])
      && (stopping ==> h'.hosted == h.hosted)
      && (!stopping ==> !(q.shard in h'.hosted && h'.hosted[q.shard].Stopping?))
  {
    RequestMoves(h, q, q.shard);
  }

  /** Requests are discarded in exactly these cases, and no others. */
  lemma DiscardsAreExplained(self: NodeId, hosts: seq<Host>, events: seq<Event>, i: nat)
    requires Run(self, hosts, events) && i < |events|
    ensures hosts[i + 1].dropped == hosts[i].dropped + Cost(hosts[i], self, events[i])
  {
    RunAtHome(self, hosts, events, i);
    var h, e := hosts[i], events[i];
    if e.Allocated? {
      var settled := Settle(h, self, e.shard, e.node);
      RequestsDrop(settled.(pending := settled.pending - {e.shard}), Pending(h, e.shard), e.shard);
    }
  }

  /** In every run a stop request reaches a shard, and its outcome is reported, exactly when the shard is ready:
      a stop that comes while it is starting is forgotten, and the shard becomes ready later as if nothing had
      been asked. */
  lemma StopIsHonouredIffReady(self: NodeId, hosts: seq<Host>, events: seq<Event>, i: nat)
    requires Run(self, hosts, events) && i < |events| && events[i].StopShard?
    ensures
      var h, s := hosts[i], events[i].shard;
      && hosts[i + 1].stops
         == h.stops + (if s in h.hosted && h.hosted[s].Ready? then [Stop(s, Some(events[i].requestId))] else [])
      && (s in h.hosted && h.hosted[s].Starting? ==>
            var later := OnReady(hosts[i + 1], s);
            later.hosted[s] == Ready && later.stops == h.stops)
  {
    RunAtHome(self, hosts, events, i);
  }

  /** A shard that is stopped while it starts ends up ready, and nobody ever told it to stop. */
  lemma StopIsForgotten(self: NodeId, s: ShardId, requestId: nat)
    returns (hosts: seq<Host>, events: seq<Event>)
    ensures Run(self, hosts, events) && events == [Allocated(s, self), StopShard(s, requestId), ShardReady(s)]
    ensures hosts[3].hosted == map[s := Ready] && hosts[3].stops == []
  {
    events := [Allocated(s, self), StopShard(s, requestId), ShardReady(s)];
    var first := EMPTY.(hosted := map[s := Starting([], None)]);
    assert OnAllocated(EMPTY, self, s, self) == first by {
      assert EMPTY.remote - {s} == map[] && EMPTY.pending - {s} == map[];
    }
    var second, third := OnStop(first, s, requestId), EMPTY.(hosted := map[s := Ready]);
    assert OnReady(second, s) == third;
    hosts := [EMPTY, first, second, third];
  }

  // ---------------------------------------------------------------------------------------------
  // Order

  /** The requests of one shard. */
  function Of(rs: seq<Request>, s: ShardId): seq<Request> {
    if rs == [] then []
    else
      var init, r := Of(rs[..|rs| - 1], s), rs[|rs| - 1];
      if r.shard == s then init + [r] else init
  }

  lemma {:induction false} OfAppend(a: seq<Request>, b: seq<Request>, s: ShardId)
    ensures Of(a + b, s) == Of(a, s) + Of(b, s)
  {
    if b == [] {
      assert a + b == a;
    } else {
      OfAppend(a, b[..|b| - 1], s);
      assert (a + b)[..|a + b| - 1] == a + b[..|b| - 1];
    }
  }

  lemma {:induction false} OfOwn(rs: seq<Request>, s: ShardId, t: ShardId)
    requires Own(rs, s)
    ensures Of(rs, t) == if s == t then rs else []
  {
    if rs != [] {
      OfOwn(rs[..|rs| - 1], s, t);
    }
  }

  /** One shard's requests as the host has them: sent, then buffered, then pending. */
  function Queue(h: Host, s: ShardId): seq<Request> {
    Of(h.sent, s) + Buffer(h, s) + Pending(h, s)
  }

  /** Requests wait for allocation only while their shard is unknown here. */
  ghost predicate Tidy(h: Host) {
    forall s :: Pending(h, s) != [] ==> s !in h.hosted && s !in h.remote
  }

  /** Events that cost no request, and no start that the host has not asked for. */
  predicate Orderly(h: Host, self: NodeId, e: Event) {
    Cost(h, self, e) == [] && (e.ShardReady? ==> e.shard in h.hosted)
  }

  /** What one request adds to a shard's queue. */
  function Added(e: Event, s: ShardId): seq<Request> {
    if e.Entity? && e.request.shard == s then [e.request] else []
  }

  lemma QueueGrows(a: seq<Request>, b: seq<Request>, c: seq<Request>, q: Request)
    ensures a + b + (c + [q]) == (a + b + c) + [q]
    ensures a + (b + [q]) + [] == (a + b + []) + [q]
    ensures (a + [q]) + [] + [] == (a + [] + []) + [q]
    ensures (a + b) + [] + c == a + b + c
  {
  }

  lemma SentOf(sent: seq<Request>, q: Request, s: ShardId)
    ensures Of(sent + [q], s) == Of(sent, s) + (if q.shard == s then [q] else [])
  {
    OfAppend(sent, [q], s);
    OfOwn([q], q.shard, s);
  }

  lemma OtherRequestQueue(h: Host, q: Request, s: ShardId)
    requires q.shard != s
    ensures Queue(OnRequest(h, q), s) == Queue(h, s)
  {
    var h' := OnRequest(h, q);
    assert Of(h'.sent, s) == Of(h.sent, s) by {
      if h'.sent != h.sent {
        assert h'.sent == h.sent + [q] && (h.sent + [q])[..|h.sent|] == h.sent;
      }
    }
    assert Buffer(h', s) == Buffer(h, s) && Pending(h', s) == Pending(h, s);
  }

  lemma RequestQueue(h: Host, q: Request, s: ShardId)
    requires Tidy(h) && !(q.shard in h.hosted && h.hosted[q.shard].Stopping?)
    ensures Queue(OnRequest(h, q), s) == Queue(h, s) + (if q.shard == s then [q] else [])
  {
    if q.shard == s {
      OwnRequestQueue(h, q);
    } else {
      OtherRequestQueue(h, q, s);
      assert Queue(h, s) + [] == Queue(h, s);
    }
  }

  lemma OwnRequestQueue(h: Host, q: Request)
    requires Tidy(h) && !(q.shard in h.hosted && h.hosted[q.shard].Stopping?)
    ensures Queue(OnRequest(h, q), q.shard) == Queue(h, q.shard) + [q]
  {
    var s, h' := q.shard, OnRequest(h, q);
    SentOf(h.sent, q, s);
    QueueGrows(Of(h.sent, s), Buffer(h, s), Pending(h, s), q);
    if s in h.hosted && h.hosted[s].Starting? {
      assert Pending(h, s) == [] && Pending(h', s) == [] && Buffer(h', s) == Buffer(h, s) + [q];
    } else if s in h.hosted || s in h.remote {
      assert Pending(h, s) == [] && Pending(h', s) == [] && Buffer(h, s) == [] && Buffer(h', s) == [];
      assert h'.sent == h.sent + [q];
    } else {
      assert Pending(h', s) == Pending(h, s) + [q] && Buffer(h', s) == Buffer(h, s);
    }
  }

  lemma RequestTidy(h: Host, q: Request)
    requires Tidy(h)
    ensures Tidy(OnRequest(h, q))
  {
    forall s
      ensures Pending(OnRequest(h, q), s) != [] ==> s !in OnRequest(h, q).hosted && s !in OnRequest(h, q).remote
    {
      RequestMoves(h, q, s);
    }
  }

  lemma {:induction false} RequestsQueue(h: Host, rs: seq<Request>, s: ShardId, t: ShardId)
    requires Tidy(h) && Own(rs, s) && !(s in h.hosted && h.hosted[s].Stopping?)
    ensures Tidy(OnRequests(h, rs))
    ensures Queue(OnRequests(h, rs), t) == Queue(h, t) + (if s == t then rs else [])
  {
    if rs != [] {
      var init, q := rs[..|rs| - 1], rs[|rs| - 1];
      assert rs == init + [q];
      assert Own(init, s);
      RequestsQueue(h, init, s, t);
      RequestsDrop(h, init, s);
      RequestQueue(OnRequests(h, init), q, t);
      RequestTidy(OnRequests(h, init), q);
    }
  }

  /** Settling a shard whose buffer is empty leaves every queue but its pending part as it was. */
  lemma SettleQueue(h: Host, self: NodeId, s: ShardId, node: NodeId, t: ShardId)
    requires Tidy(h) && Orderly(h, self, Allocated(s, node))
    ensures
      var settled := Settle(h, self, s, node);
      var h' := settled.(pending := settled.pending - {s});
      && Tidy(h') && (s in h'.hosted && h'.hosted[s].Stopping? ==> Pending(h, s) == [])
      && Queue(h, t) == Queue(h', t) + (if s == t then Pending(h, s) else [])
  {
    var settled := Settle(h, self, s, node);
    var h' := settled.(pending := settled.pending - {s});
    assert h'.sent == h.sent && Buffer(h', t) == Buffer(h, t);
    forall u
      ensures Pending(h', u) == if u == s then [] else Pending(h, u)
      ensures Pending(h', u) != [] ==> u !in h'.hosted && u !in h'.remote
    {
    }
  }

  lemma AllocatedQueue(h: Host, self: NodeId, s: ShardId, node: NodeId, t: ShardId)
    requires AtHome(h) && Tidy(h) && Orderly(h, self, Allocated(s, node))
    ensures Tidy(OnAllocated(h, self, s, node))
    ensures Queue(OnAllocated(h, self, s, node), t) == Queue(h, t)
  {
    var settled := Settle(h, self, s, node);
    var h' := settled.(pending := settled.pending - {s});
    SettleQueue(h, self, s, node, t);
    assert Own(Pending(h, s), s);
    if Pending(h, s) != [] {
      RequestsQueue(h', Pending(h, s), s, t);
    } else {
      assert Queue(h', t) + [] == Queue(h', t);
    }
  }

  lemma OtherReadyQueue(h: Host, s: ShardId, t: ShardId)
    requires AtHome(h) && s in h.hosted && s != t
    ensures Queue(OnReady(h, s), t) == Queue(h, t)
  {
    var h' := OnReady(h, s);
    assert Pending(h', t) == Pending(h, t) && Buffer(h', t) == Buffer(h, t);
    if h.hosted[s].Starting? {
      assert Own(Buffer(h, s), s);
      assert h'.sent == h.sent + Buffer(h, s);
      OfAppend(h.sent, Buffer(h, s), t);
      OfOwn(Buffer(h, s), s, t);
      assert Of(h.sent, t) + [] == Of(h.sent, t);
    }
  }

  lemma OwnReadyQueue(h: Host, s: ShardId)
    requires AtHome(h) && s in h.hosted && h.hosted[s].Starting?
    ensures Queue(OnReady(h, s), s) == Queue(h, s)
  {
    var h' := OnReady(h, s);
    var waiting, buffer, sent := Pending(h, s), Buffer(h, s), Of(h.sent, s);
    assert Own(buffer, s);
    assert h'.sent == h.sent + buffer && Buffer(h', s) == [] && Pending(h', s) == waiting;
    OfAppend(h.sent, buffer, s);
    OfOwn(buffer, s, s);
    assert (sent + buffer) + [] + waiting == sent + buffer + waiting;
  }

  lemma ReadyQueue(h: Host, s: ShardId, t: ShardId)
    requires AtHome(h) && s in h.hosted
    ensures Queue(OnReady(h, s), t) == Queue(h, t)
  {
    if s != t {
      OtherReadyQueue(h, s, t);
    } else if h.hosted[s].Starting? {
      OwnReadyQueue(h, s);
    }
  }

  lemma HandleQueue(h: Host, self: NodeId, e: Event, s: ShardId)
    requires AtHome(h) && Tidy(h) && Orderly(h, self, e)
    ensures Queue(Handle(h, self, e), s) == Queue(h, s) + Added(e, s)
  {
    match e
    case Entity(q) => RequestQueue(h, q, s);
    case Allocated(t, node) => AllocatedQueue(h, self, t, node, s);
    case ShardReady(t) => ReadyQueue(h, t, s);
    case _ => assert Handle(h, self, e).sent == h.sent && Buffer(Handle(h, self, e), s) == Buffer(h, s);
  }

  lemma HandleTidy(h: Host, self: NodeId, e: Event)
    requires AtHome(h) && Tidy(h) && Orderly(h, self, e)
    ensures Tidy(Handle(h, self, e))
  {
    match e
    case Entity(q) => RequestTidy(h, q);
    case Allocated(s, node) => AllocatedQueue(h, self, s, node, s);
    case _ =>
      forall s
        ensures Pending(Handle(h, self, e), s) == Pending(h, s)
      {
      }
  }

  /** A shard's requests are in the order in which they arrived. */
  ghost predicate InOrder(h: Host, s: ShardId, arrived: seq<Request>) {
    Tidy(h) && Queue(h, s) == Of(arrived, s)
  }

  lemma OrderStep(self: NodeId, h: Host, e: Event, s: ShardId, before: seq<Event>)
    requires AtHome(h) && Orderly(h, self, e) && InOrder(h, s, Arrived(before))
    ensures InOrder(Handle(h, self, e), s, Arrived(before + [e]))
  {
    HandleTidy(h, self, e);
    HandleQueue(h, self, e, s);
    ArrivedOf(before, e, s);
  }

  lemma {:induction false} RunInOrder(self: NodeId, hosts: seq<Host>, events: seq<Event>, i: nat, s: ShardId)
    requires Run(self, hosts, events) && i < |hosts|
    requires forall k :: 0 <= k < |events| ==> Orderly(hosts[k], self, events[k])
    ensures InOrder(hosts[i], s, Arrived(events[..i]))
    decreases i
  {
    if i > 0 {
      var k := i - 1;
      RunInOrder(self, hosts, events, k, s);
      RunAtHome(self, hosts, events, k);
      OrderStep(self, hosts[k], events[k], s, events[..k]);
      assert events[..i] == events[..k] + [events[k]];
    }
  }

  /** Without stops, moves or unasked-for starts that cost a request, each shard's requests are sent in
      the order in which they arrived, and the ones not sent yet wait in that order. */
  lemma OrderIsKept(self: NodeId, hosts: seq<Host>, events: seq<Event>, i: nat, s: ShardId)
    requires Run(self, hosts, events) && i < |hosts|
    requires forall k :: 0 <= k < |events| ==> Orderly(hosts[k], self, events[k])
    ensures Tidy(hosts[i])
    ensures Queue(hosts[i], s) == Of(Arrived(events[..i]), s)
    ensures Of(hosts[i].sent, s) <= Of(Arrived(events[..i]), s)
  {
    RunInOrder(self, hosts, events, i, s);
  }

  lemma ArrivedOf(events: seq<Event>, e: Event, s: ShardId)
    ensures Of(Arrived(events + [e]), s) == Of(Arrived(events), s) + Added(e, s)
  {
    assert (events + [e])[..|events|] == events;
    if e.Entity? {
      OfAppend(Arrived(events), [e.request], s);
      OfOwn([e.request], e.request.shard, s);
    }
  }
}
