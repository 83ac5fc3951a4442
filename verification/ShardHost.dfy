/** The shard host of one node: which shards it runs, which it knows elsewhere, and what becomes of every
    entity request that reaches it.

    The functions over `Host` say what each handler does; the class `ShardHost` performs it in place.
 */
module ShardHost {
  import opened Prelude

  /** An entity request, with the shard that the allocator assigns to its actor id. */
  datatype Request = Request(id: nat, shard: ShardId)

  /** `stopRequested` is the id of the request that asked a starting shard to stop. */
  datatype ShardState =
    | Starting(buffer: seq<Request>, stopRequested: Option<nat>)
    | Ready
    | Stopping

  datatype Stop = Stop(shard: ShardId, reportTo: Option<nat>)

  /** `sent` is what was handed to a shard, here or elsewhere, `dropped` what nobody will handle, `asked`
      the allocations requested from the coordinator, and `stops` the shards told to stop, with whom the outcome is reported to. */
  datatype Host = Host(
    hosted: map<ShardId, ShardState>,
    remote: map<ShardId, NodeId>,
    pending: map<ShardId, seq<Request>>,
    sent: seq<Request>,
    dropped: seq<Request>,
    asked: seq<ShardId>,
    stops: seq<Stop>)

  const EMPTY := Host(map[], map[], map[], [], [], [], [])

  datatype Event =
    | Entity(request: Request)
    | Allocated(shard: ShardId, node: NodeId)
    | ShardReady(shard: ShardId)
    | Reallocating(shard: ShardId)
    | StopShard(shard: ShardId, requestId: nat)
    | ShardStopped(shard: ShardId)

  function Pending(h: Host, s: ShardId): seq<Request> {
    if s in h.pending then h.pending[s] else []
  }

  function Buffer(h: Host, s: ShardId): seq<Request> {
    if s in h.hosted && h.hosted[s].Starting? then h.hosted[s].buffer else []
  }

  function OnRequest(h: Host, r: Request): Host {
    var s := r.shard;
    if s in h.hosted then
      match h.hosted[s]
      case Starting(buffer, stop) => h.(hosted := h.hosted[s := Starting(buffer + [r], stop)])
      case Ready => h.(sent := h.sent + [r])
      case Stopping => h.(dropped := h.dropped + [r])
    else if s in h.remote then
      h.(sent := h.sent + [r])
    else
      h.(pending := h.pending[s := Pending(h, s) + [r]], asked := h.asked + [s])
  }

  function OnRequests(h: Host, rs: seq<Request>): Host {
    if rs == [] then h else OnRequest(OnRequests(h, rs[..|rs| - 1]), rs[|rs| - 1])
  }

  /** A shard leaves the host: what it had buffered is gone. */
  function Forget(h: Host, s: ShardId): Host {
    h.(hosted := h.hosted - {s}, dropped := h.dropped + Buffer(h, s))
  }

  /** The allocation itself, before the requests that waited for it are handled. */
  function Settle(h: Host, self: NodeId, s: ShardId, node: NodeId): Host {
    if node == self then
      h.(remote := h.remote - {s},
         hosted := if s in h.hosted then h.hosted else h.hosted[s := Starting([], None)])
    else
      Forget(h, s).(remote := h.remote[s := node],
                    stops := h.stops + (if s in h.hosted && !h.hosted[s].Stopping? then [Stop(s, None)] else []))
  }

  function OnAllocated(h: Host, self: NodeId, s: ShardId, node: NodeId): Host {
    var settled := Settle(h, self, s, node);
    OnRequests(settled.(pending := settled.pending - {s}), Pending(h, s))
  }

  function OnReady(h: Host, s: ShardId): Host {
    var h' := h.(hosted := h.hosted[s := Ready]);
    if s in h.hosted && h.hosted[s].Starting? then
      if h.hosted[s].stopRequested.Some? then
        h'.(stops := h.stops + [Stop(s, h.hosted[s].stopRequested)], dropped := h.dropped + h.hosted[s].buffer)
      else
        h'.(sent := h.sent + h.hosted[s].buffer)
    else
      h'
  }

  function OnStop(h: Host, s: ShardId, requestId: nat): Host {
    if s !in h.hosted then h
    else
      var h' := h.(hosted := h.hosted[s := Stopping]);
      match h.hosted[s]
      case Starting(buffer, _) => h'.(dropped := h.dropped + buffer)
      case Ready => h'.(stops := h.stops + [Stop(s, Some(requestId))])
      case Stopping => h'
  }

  function Handle(h: Host, self: NodeId, e: Event): Host {
    match e
    case Entity(r) => OnRequest(h, r)
    case Allocated(s, node) => OnAllocated(h, self, s, node)
    case ShardReady(s) => OnReady(h, s)
    case Reallocating(s) => h.(remote := h.remote - {s})
    case StopShard(s, requestId) => OnStop(h, s, requestId)
    case ShardStopped(s) => Forget(h, s)
  }

  /** The shard host actor. */
  class ShardHost {
    const self: NodeId
    var hosted: map<ShardId, ShardState>
    var remote: map<ShardId, NodeId>
    var pending: map<ShardId, seq<Request>>
    var sent: seq<Request>
    var dropped: seq<Request>
    var asked: seq<ShardId>
    var stops: seq<Stop>

    ghost function View(): Host
      reads this
    {
      Host(hosted, remote, pending, sent, dropped, asked, stops)
    }

    constructor (self: NodeId)
      ensures View() == EMPTY && this.self == self
    {
      this.self := self;
      hosted, remote, pending := map[], map[], map[];
      sent, dropped, asked, stops := [], [], [], [];
    }

    method HandleEntity(r: Request)
      modifies this
      ensures View() == OnRequest(old(View()), r)
    {
      var s := r.shard;
      if s in hosted {
        match hosted[s]
        case Starting(buffer, stop) => hosted := hosted[s := Starting(buffer + [r], stop)];
        case Ready => sent := sent + [r];
        case Stopping => dropped := dropped + [r];
      } else if s in remote {
        sent := sent + [r];
      } else {
        var waiting := if s in pending then pending[s] else [];
        pending := pending[s := waiting + [r]];
        asked := asked + [s];
      }
    }

    method HandleAllocated(s: ShardId, node: NodeId)
      modifies this
      ensures View() == OnAllocated(old(View()), self, s, node)
    {
      DoSettle(s, node);
      if s in pending {
        var waiting := pending[s];
        pending := pending - {s};
        HandleAll(waiting);
      } else {
        assert pending - {s} == pending;
      }
    }

    method DoSettle(s: ShardId, node: NodeId)
      modifies this
      ensures View() == Settle(old(View()), self, s, node)
    {
      if node == self {
        remote := remote - {s};
        if s !in hosted {
          hosted := hosted[s := Starting([], None)];
        }
      } else {
        if s in hosted {
          if hosted[s].Starting? {
            dropped := dropped + hosted[s].buffer;
          }
          if !hosted[s].Stopping? {
            stops := stops + [Stop(s, None)];
          }
          hosted := hosted - {s};
        }
        remote := remote[s := node];
      }
    }

    /** The requests that waited, one after another. */
    method HandleAll(requests: seq<Request>)
      modifies this
      ensures View() == OnRequests(old(View()), requests)
    {
      for i := 0 to |requests|
        invariant View() == OnRequests(old(View()), requests[..i])
      {
        HandleEntity(requests[i]);
        assert requests[..i + 1][..i] == requests[..i];
      }
      assert requests[..|requests|] == requests;
    }

    method HandleReady(s: ShardId)
      modifies this
      ensures View() == OnReady(old(View()), s)
    {
      var previous := if s in hosted then Some(hosted[s]) else None;
      hosted := hosted[s := Ready];
      if previous.Some? && previous.value.Starting? {
        var buffer := previous.value.buffer;
        if previous.value.stopRequested.Some? {
          stops := stops + [Stop(s, previous.value.stopRequested)];
          dropped := dropped + buffer;
        } else {
          var i := 0;
          while i < |buffer|
            invariant i <= |buffer| && sent == old(sent) + buffer[..i]
            invariant View() == old(View()).(hosted := old(hosted)[s := Ready], sent := sent)
          {
            sent := sent + [buffer[i]];
            i := i + 1;
          }
          assert buffer[..i] == buffer;
        }
      }
    }

    method HandleReallocating(s: ShardId)
      modifies this`remote
      ensures View() == Handle(old(View()), self, Reallocating(s))
    {
      remote := remote - {s};
    }

    /** The state is replaced before it is looked at, so the stop request of a starting shard is set on
        a value that is thrown away. */
    method HandleStop(s: ShardId, requestId: nat)
      modifies this
      ensures View() == OnStop(old(View()), s, requestId)
    {
      if s in hosted {
        var previous := hosted[s];
        hosted := hosted[s := Stopping];
        match previous
        case Starting(buffer, _) => dropped := dropped + buffer;
        case Ready => stops := stops + [Stop(s, Some(requestId))];
        case Stopping =>
      }
    }

    method HandleStopped(s: ShardId)
      modifies this
      ensures View() == Forget(old(View()), s)
    {
      if s in hosted && hosted[s].Starting? {
        dropped := dropped + hosted[s].buffer;
      }
      hosted := hosted - {s};
    }
  }
}
