/** The singleton manager of one node: its states, its handlers, and what each handler sends.

    The handlers are written twice.  The class `Manager` updates its fields in place, the way the
    actor does; the functions over `View` say what each handler does to the fields and which
    envelopes it adds to the network.  The protocol proof works with the functions.
 */
module LeaseManager {
  import opened Prelude

  datatype State =
    | Joining(pending: Option<NodeId>)
    | Idle
    | Starting(acks: set<NodeId>)
    | Running
    | Stopping(requestedBy: NodeId)
  {
    /** The guard of the lease handlers: a starting manager counts as running. */
    predicate IsRunning() {
      Running? || Starting?
    }

    predicate HasActor() {
      Running? || Stopping?
    }
  }

  /** Everything a manager can put in flight.  `StartResult` is the completion of a spawned start,
      piped back to the manager that asked for it. */
  datatype Envelope =
    | Request(src: NodeId, dst: NodeId)
    | Ack(src: NodeId, dst: NodeId)
    | StartedNotice(src: NodeId, dst: NodeId)
    | StoppedNotice(src: NodeId, dst: NodeId)
    | StartResult(dst: NodeId)

  datatype View = View(id: NodeId, state: State, managers: set<NodeId>)

  /** The new fields, what was sent, and whether a new lease round was opened. */
  datatype Effect = Effect(view: View, sent: multiset<Envelope>, begun: bool)

  datatype Kind = RequestKind | StartedKind | StoppedKind

  function Wrap(kind: Kind, src: NodeId, dst: NodeId): Envelope {
    match kind
    case RequestKind => Request(src, dst)
    case StartedKind => StartedNotice(src, dst)
    case StoppedKind => StoppedNotice(src, dst)
  }

  /** One envelope of the given kind to each known manager. */
  function Broadcast(kind: Kind, src: NodeId, managers: set<NodeId>): multiset<Envelope> {
    multiset(set d | d in managers :: Wrap(kind, src, d))
  }

  /** `notify_manager`: an unknown destination is skipped with a warning. */
  function NotifyManager(v: View, dst: NodeId, e: Envelope): multiset<Envelope> {
    if dst in v.managers then multiset{e} else multiset{}
  }

  function RequestLease(v: View): multiset<Envelope> {
    if v.managers == {} then multiset{StartResult(v.id)} else Broadcast(RequestKind, v.id, v.managers)
  }

  function BeginStarting(v: View): Effect {
    Effect(v.(state := Starting({})), RequestLease(v), true)
  }

  function BeginStopping(v: View, requestedBy: NodeId): Effect {
    if v.state.HasActor() then
      Effect(v.(state := Stopping(requestedBy)), Broadcast(StoppedKind, v.id, v.managers), false)
    else
      Effect(v, multiset{}, false)
  }

  function GrantLease(v: View, to: NodeId): Effect {
    if v.state.Joining? then
      Effect(v.(state := Joining(Some(to))), multiset{}, false)
    else
      Effect(v, NotifyManager(v, to, Ack(v.id, to)), false)
  }

  function OnRequest(v: View, src: NodeId): Effect {
    if !v.state.IsRunning() then GrantLease(v, src) else BeginStopping(v, src)
  }

  /** The count test: a start is launched when as many nodes acknowledged as there are managers. */
  function LaunchIfComplete(v: View): multiset<Envelope>
    requires v.state.Starting?
  {
    if |v.state.acks| == |v.managers| then multiset{StartResult(v.id)} else multiset{}
  }

  function OnAck(v: View, src: NodeId): Effect {
    if v.state.Starting? then
      var v' := v.(state := Starting(v.state.acks + {src}));
      Effect(v', LaunchIfComplete(v'), false)
    else
      Effect(v, multiset{}, false)
  }

  function OnStartResult(v: View, started: bool): Effect {
    if started then
      Effect(v.(state := Running), Broadcast(StartedKind, v.id, v.managers), false)
    else
      Effect(v, multiset{}, false)
  }

  function OnLeaderChanged(v: View, leader: NodeId): Effect {
    if !v.state.Joining? && leader == v.id && !v.state.IsRunning() then
      BeginStarting(v)
    else
      Effect(v, multiset{}, false)
  }

  function OnMemberUp(v: View, leader: NodeId, members: set<NodeId>): Effect {
    var up := View(v.id, Idle, v.managers + (members - {v.id}));
    var released :=
      if v.state.Joining? && v.state.pending.Some? then
        NotifyManager(up, v.state.pending.value, Ack(v.id, v.state.pending.value))
      else
        multiset{};
    if leader == v.id then
      var begin := BeginStarting(up);
      begin.(sent := released + begin.sent)
    else
      Effect(up, released, false)
  }

  function OnChildStopped(v: View): Effect {
    if v.state.Stopping? then
      Effect(v.(state := Idle), GrantLease(v, v.state.requestedBy).sent, false)
    else
      Effect(v, multiset{}, false)
  }

  function OnNodeAdded(v: View, node: NodeId): Effect {
    if node == v.id || node in v.managers then
      Effect(v, multiset{}, false)
    else
      var greeting := match v.state
        case Starting(_) => multiset{Request(v.id, node)}
        case Running => multiset{StartedNotice(v.id, node)}
        case _ => multiset{};
      Effect(v.(managers := v.managers + {node}), greeting, false)
  }

  function OnNodeRemoved(v: View, node: NodeId): Effect {
    var v1 := v.(managers := v.managers - {node});
    if v.state.Starting? then
      var v2 := v1.(state := Starting(v.state.acks - {node}));
      Effect(v2, LaunchIfComplete(v2), false)
    else
      Effect(v1, multiset{}, false)
  }

  /** The manager actor. */
  class Manager {
    const nodeId: NodeId
    var state: State
    var managers: set<NodeId>
    var sent: multiset<Envelope>

    ghost function Fields(): View
      reads this
    {
      View(nodeId, state, managers)
    }

    /** The fields changed from `before` as the effect says, and exactly its envelopes were added. */
    ghost predicate Did(sentBefore: multiset<Envelope>, effect: Effect)
      reads this
    {
      Fields() == effect.view && sent == sentBefore + effect.sent
    }

    constructor (nodeId: NodeId)
      ensures Fields() == View(nodeId, Joining(None), {})
      ensures sent == multiset{}
    {
      this.nodeId := nodeId;
      state, managers, sent := Joining(None), {}, multiset{};
    }

    method NotifyOne(dst: NodeId, e: Envelope)
      modifies this`sent
      ensures sent == old(sent) + NotifyManager(Fields(), dst, e)
    {
      if dst in managers {
        sent := sent + multiset{e};
      }
    }

    method NotifyAll(kind: Kind)
      modifies this`sent
      ensures sent == old(sent) + Broadcast(kind, nodeId, managers)
    {
      var todo := managers;
      ghost var reached := {};
      while todo != {}
        invariant reached !! todo && reached + todo == managers
        invariant sent == old(sent) + Broadcast(kind, nodeId, reached)
        decreases todo
      {
        var d :| d in todo;
        BroadcastGrows(kind, nodeId, reached, d);
        sent := sent + multiset{Wrap(kind, nodeId, d)};
        todo := todo - {d};
        reached := reached + {d};
      }
      assert reached == managers;
    }

    method StartActor()
      modifies this`sent
      ensures sent == old(sent) + multiset{StartResult(nodeId)}
    {
      sent := sent + multiset{StartResult(nodeId)};
    }

    method DoBeginStarting()
      modifies this
      ensures Did(old(sent), BeginStarting(old(Fields())))
    {
      state := Starting({});
      if |managers| == 0 {
        StartActor();
      } else {
        NotifyAll(RequestKind);
      }
    }

    method DoBeginStopping(requestedBy: NodeId)
      modifies this
      ensures Did(old(sent), BeginStopping(old(Fields()), requestedBy))
    {
      if !state.HasActor() {
        return;
      }
      NotifyAll(StoppedKind);
      state := Stopping(requestedBy);
    }

    method DoGrantLease(to: NodeId)
      modifies this
      ensures Did(old(sent), GrantLease(old(Fields()), to))
    {
      if state.Joining? {
        state := Joining(Some(to));
      } else {
        NotifyOne(to, Ack(nodeId, to));
      }
    }

    method HandleRequestLease(src: NodeId)
      modifies this
      ensures Did(old(sent), OnRequest(old(Fields()), src))
    {
      if !state.IsRunning() {
        DoGrantLease(src);
      } else {
        DoBeginStopping(src);
      }
    }

    method HandleLeaseAck(src: NodeId)
      modifies this
      ensures Did(old(sent), OnAck(old(Fields()), src))
    {
      if state.Starting? {
        state := Starting(state.acks + {src});
        if |state.acks| == |managers| {
          StartActor();
        }
      }
    }

    method HandleStartResult(started: bool)
      modifies this
      ensures Did(old(sent), OnStartResult(old(Fields()), started))
    {
      if started {
        state := Running;
        NotifyAll(StartedKind);
      }
    }

    method HandleLeaderChanged(leader: NodeId)
      modifies this
      ensures Did(old(sent), OnLeaderChanged(old(Fields()), leader))
    {
      if !state.Joining? {
        if leader == nodeId && !state.IsRunning() {
          DoBeginStarting();
        }
      }
    }

    method HandleMemberUp(leader: NodeId, members: set<NodeId>)
      modifies this
      ensures Did(old(sent), OnMemberUp(old(Fields()), leader, members))
    {
      var todo := members;
      while todo != {}
        invariant todo <= members
        invariant managers == old(managers) + (members - todo - {nodeId})
        invariant state == old(state) && sent == old(sent)
        decreases todo
      {
        var d :| d in todo;
        todo := todo - {d};
        if d != nodeId {
          managers := managers + {d};
        }
      }
      var replaced := state;
      state := Idle;
      if replaced.Joining? && replaced.pending.Some? {
        NotifyOne(replaced.pending.value, Ack(nodeId, replaced.pending.value));
      }
      if leader == nodeId {
        DoBeginStarting();
      }
    }

    method HandleChildStopped()
      modifies this
      ensures Did(old(sent), OnChildStopped(old(Fields())))
    {
      if state.Stopping? {
        DoGrantLease(state.requestedBy);
        state := Idle;
      }
    }

    method HandleNodeAdded(node: NodeId)
      modifies this
      ensures Did(old(sent), OnNodeAdded(old(Fields()), node))
    {
      if node != nodeId && node !in managers {
        if state.Starting? {
          sent := sent + multiset{Request(nodeId, node)};
        } else if state.Running? {
          sent := sent + multiset{StartedNotice(nodeId, node)};
        }
        managers := managers + {node};
      }
    }

    method HandleNodeRemoved(node: NodeId)
      modifies this
      ensures Did(old(sent), OnNodeRemoved(old(Fields()), node))
    {
      managers := managers - {node};
      if !state.Joining? {
        if state.Starting? {
          state := Starting(state.acks - {node});
          if |state.acks| == |managers| {
            StartActor();
          }
        }
      }
    }
  }

  lemma BroadcastGrows(kind: Kind, src: NodeId, reached: set<NodeId>, d: NodeId)
    requires d !in reached
    ensures Broadcast(kind, src, reached + {d}) == Broadcast(kind, src, reached) + multiset{Wrap(kind, src, d)}
  {
    var before := set r | r in reached :: Wrap(kind, src, r);
    var after := set r | r in reached + {d} :: Wrap(kind, src, r);
    assert Wrap(kind, src, d) !in before;
    assert after == before + {Wrap(kind, src, d)};
  }
}
