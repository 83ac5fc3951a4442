/** What becomes of every request that reaches a shard: which are refused and why, and that the others are
    delivered in the order in which they came. */
module ShardLedger {
  import opened Prelude
  import opened Shard

  function Buffer(s: Shard, a: ActorId): seq<Request> {
    if a in s.entities && s.entities[a].state.Starting? then s.entities[a].state.buffer else []
  }

  /** A request is accepted if its type is supported and its entity is starting or active, or absent but with
      a recipe to start it from. */
  predicate Accepts(s: Shard, r: Request) {
    && r.supported
    && if r.actor in s.entities then s.entities[r.actor].state.Starting? || s.entities[r.actor].state.Active?
       else r.recipe.Some?
  }

  function Reason(s: Shard, r: Request): Refusal {
    if !r.supported then NotSupported else if r.actor in s.entities then ActorUnavailable else NotFound
  }

  /** The requests to one entity. */
  function Of(rs: seq<Request>, a: ActorId): seq<Request> {
    if rs == [] then []
    else
      var init, r := Of(rs[..|rs| - 1], a), rs[|rs| - 1];
      if r.actor == a then init + [r] else init
  }

  lemma {:induction false} OfAppend(x: seq<Request>, y: seq<Request>, a: ActorId)
    ensures Of(x + y, a) == Of(x, a) + Of(y, a)
  {
    if y == [] {
      assert x + y == x && Of(x, a) + [] == Of(x, a);
    } else {
      var n := |y| - 1;
      OfAppend(x, y[..n], a);
      assert (x + y)[..|x + y| - 1] == x + y[..n];
    }
  }

  ghost predicate Own(rs: seq<Request>, a: ActorId) {
    forall i :: 0 <= i < |rs| ==> rs[i].actor == a
  }

  lemma {:induction false} OfOwn(rs: seq<Request>, a: ActorId, b: ActorId)
    requires Own(rs, a)
    ensures Of(rs, b) == if a == b then rs else []
  {
    if rs != [] {
      var n := |rs| - 1;
      OfOwn(rs[..n], a, b);
      assert rs == rs[..n] + [rs[n]];
    }
  }

  /** Requests wait at their own entity. */
  ghost predicate AtHome(s: Shard) {
    forall a {:trigger Buffer(s, a)} :: Own(Buffer(s, a), a)
  }

  /** One entity's requests as the shard has them: delivered, then waiting. */
  function Line(s: Shard, a: ActorId): seq<Request> {
    Of(s.delivered, a) + Buffer(s, a)
  }

  lemma AskBuffers(s: Shard, r: Request, stored: bool, a: ActorId)
    ensures
      var s' := OnAsk(s, r, stored);
      var active := r.supported && r.actor in s.entities && s.entities[r.actor].state.Active?;
      && Buffer(s', a) == Buffer(s, a) + (if a == r.actor && Accepts(s, r) && !active then [r] else [])
      && s'.delivered == s.delivered + (if active then [r] else [])
      && s'.refused == s.refused + (if Accepts(s, r) then [] else [(r, Reason(s, r))])
  {
  }

  lemma DeliveredJoins(delivered: seq<Request>, r: Request, a: ActorId)
    ensures Of(delivered + [r], a) == Of(delivered, a) + (if a == r.actor then [r] else [])
  {
    assert (delivered + [r])[..|delivered|] == delivered;
    assert a != r.actor ==> Of(delivered, a) + [] == Of(delivered, a);
  }

  /** How a request joins a line: at the end of what waits, or, if nothing does, of what is delivered. */
  lemma Joins(delivered: seq<Request>, waiting: seq<Request>, r: Request)
    ensures delivered + (waiting + [r]) == (delivered + waiting) + [r]
    ensures (delivered + [r]) + [] == (delivered + []) + [r]
    ensures (delivered + []) + waiting == delivered + waiting && delivered + (waiting + []) == delivered + waiting
    ensures (delivered + waiting) + [] == delivered + waiting
  {
  }

  lemma ActiveJoins(s: Shard, r: Request, stored: bool, a: ActorId)
    requires r.supported && r.actor in s.entities && s.entities[r.actor].state.Active?
    ensures Line(OnAsk(s, r, stored), a) == Line(s, a) + (if a == r.actor then [r] else [])
  {
    var before, waits := Of(s.delivered, a), Buffer(s, a);
    assert OnAsk(s, r, stored) == s.(delivered := s.delivered + [r]);
    DeliveredJoins(s.delivered, r, a);
    assert a == r.actor ==> waits == [];
    Joins(before, waits, r);
  }

  lemma WaitingJoins(s: Shard, r: Request, stored: bool, a: ActorId)
    requires !(r.supported && r.actor in s.entities && s.entities[r.actor].state.Active?)
    ensures Line(OnAsk(s, r, stored), a) == Line(s, a) + (if a == r.actor && Accepts(s, r) then [r] else [])
  {
    AskBuffers(s, r, stored, a);
    assert OnAsk(s, r, stored).delivered == s.delivered;
    Joins(Of(s.delivered, a), Buffer(s, a), r);
  }

  lemma AskJoins(s: Shard, r: Request, stored: bool, a: ActorId)
    ensures Line(OnAsk(s, r, stored), a) == Line(s, a) + (if a == r.actor && Accepts(s, r) then [r] else [])
  {
    if r.supported && r.actor in s.entities && s.entities[r.actor].state.Active? {
      ActiveJoins(s, r, stored, a);
    } else {
      WaitingJoins(s, r, stored, a);
    }
  }

  lemma StartedKeepsLine(s: Shard, actor: ActorId, ok: bool, a: ActorId)
    requires AtHome(s)
    ensures Line(OnStarted(s, actor, ok), a) == Line(s, a)
  {
    var s' := OnStarted(s, actor, ok);
    if ok && actor in s.entities {
      var buffer := Buffer(s, actor);
      assert s'.delivered == s.delivered + buffer;
      assert Own(buffer, actor);
      OfAppend(s.delivered, buffer, a);
      OfOwn(buffer, actor, a);
      if a == actor {
        assert Buffer(s', a) == [];
      } else {
        assert Buffer(s', a) == Buffer(s, a) && Of(s.delivered, a) + [] == Of(s.delivered, a);
      }
    }
  }

  lemma ReplayBuffersNothing(records: seq<Record>, a: ActorId)
    ensures a in Replay(records) && Replay(records)[a].state.Starting? ==> Replay(records)[a].state.buffer == []
  {
    RestartedIffLastStarted(records, a);
    assert a in Replay(records) && Replay(records)[a].state.Starting? ==> a in ActiveEntities(Replay(records));
  }

  lemma AskKeepsHome(s: Shard, r: Request, stored: bool, a: ActorId)
    requires Own(Buffer(s, a), a)
    ensures Own(Buffer(OnAsk(s, r, stored), a), a)
  {
    AskBuffers(s, r, stored, a);
  }

  /** The other events add nothing to a buffer. */
  lemma OthersKeepHome(s: Shard, e: Event, a: ActorId)
    requires !e.Ask?
    ensures Buffer(Handle(s, e), a) == [] || Buffer(Handle(s, e), a) == Buffer(s, a)
  {
    if e.Restart? {
      ReplayBuffersNothing(s.journal, a);
    }
  }

  lemma HandleKeepsHome(s: Shard, e: Event)
    requires AtHome(s)
    ensures AtHome(Handle(s, e))
  {
    forall a
      ensures Own(Buffer(Handle(s, e), a), a)
    {
      assert Own(Buffer(s, a), a);
      if e.Ask? {
        AskKeepsHome(s, e.request, e.stored, a);
      } else {
        OthersKeepHome(s, e, a);
      }
    }
  }

  /** What one event makes of an entity's line: an accepted request joins it, a start from outside drops what
      waits at the entity, and a restart begins anew. */
  function After(s: Shard, e: Event, a: ActorId): seq<Request> {
    match e
    case Ask(r, _) => Line(s, a) + (if a == r.actor && Accepts(s, r) then [r] else [])
    case Start(actor, _, _) => if a == actor then Line(s, a)[..|Line(s, a)| - |Buffer(s, a)|] else Line(s, a)
    case Started(_, _) => Line(s, a)
    case Restart => []
  }

  lemma LineIsExact(s: Shard, e: Event, a: ActorId)
    requires AtHome(s)
    ensures Line(Handle(s, e), a) == After(s, e, a)
  {
    match e
    case Ask(r, stored) => AskJoins(s, r, stored, a);
    case Started(actor, ok) => StartedKeepsLine(s, actor, ok, a);
    case Restart => ReplayBuffersNothing(s.journal, a);
    case Start(_, _, _) =>
  }

  /** Short of a restart, an entity's line loses requests in exactly one way: a start from outside finds some
      waiting at the entity. */
  lemma LineKeptIff(s: Shard, e: Event, a: ActorId)
    requires AtHome(s) && !e.Restart?
    ensures Line(s, a) <= Line(Handle(s, e), a) <==> !(e.Start? && e.actor == a && Buffer(s, a) != [])
  {
    LineIsExact(s, e, a);
  }

  /** It happens: a request waits for its entity to start, the entity is started again from outside, and the
      request is delivered to nobody. */
  lemma WaitingRequestIsDropped(r: Request, recipe: Recipe) returns (shards: seq<Shard>, events: seq<Event>)
    requires r.supported && r.recipe.Some?
    ensures Run(shards, events) && events == [Ask(r, true), Start(r.actor, recipe, true), Started(r.actor, true)]
    ensures Accepts(shards[0], r) && Line(shards[1], r.actor) == [r]
    ensures shards[3].delivered == [] && shards[3].refused == [] && Line(shards[3], r.actor) == []
  {
    events := [Ask(r, true), Start(r.actor, recipe, true), Started(r.actor, true)];
    var first := Shard(map[], [], multiset{}, [], []);
    var second := OnAsk(first, r, true);
    var third := OnStart(second, r.actor, recipe, true);
    shards := [first, second, third, OnStarted(third, r.actor, true)];
    AskJoins(first, r, true, r.actor);
  }

  lemma {:induction false} RunAtHome(shards: seq<Shard>, events: seq<Event>, i: nat)
    requires Run(shards, events) && i < |shards|
    ensures AtHome(shards[i])
    decreases i
  {
    if i > 0 {
      RunAtHome(shards, events, i - 1);
      HandleKeepsHome(shards[i - 1], events[i - 1]);
    }
  }

  /** The accepted requests of an entity since the last restart, in order. */
  function Accepted(shards: seq<Shard>, events: seq<Event>, i: nat, a: ActorId): seq<Request>
    requires i <= |events| <= |shards|
  {
    if i == 0 || events[i - 1].Restart? then []
    else
      var before, e := Accepted(shards, events, i - 1, a), events[i - 1];
      if e.Ask? && e.request.actor == a && Accepts(shards[i - 1], e.request) then before + [e.request] else before
  }

  /** In every run in which no start from outside drops waiting requests, each entity's accepted requests are
      delivered in the order in which they came, and the ones not delivered yet wait in that order: none is
      lost and none is doubled. */
  lemma {:induction false} AcceptedAreServed(shards: seq<Shard>, events: seq<Event>, i: nat, a: ActorId)
    requires Run(shards, events) && i < |shards|
    requires forall k :: 0 <= k < i && events[k].Start? && events[k].actor == a ==> Buffer(shards[k], a) == []
    ensures Line(shards[i], a) == Accepted(shards, events, i, a)
    decreases i
  {
    if i > 0 {
      var k := i - 1;
      AcceptedAreServed(shards, events, k, a);
      RunAtHome(shards, events, k);
      LineIsExact(shards[k], events[k], a);
    }
  }

  /** In every run exactly the requests that are not accepted are refused, each with its reason, and the starts
      in progress are exactly those that an event or a restart has begun and no result has ended. */
  lemma RefusalsAndStartsAreExact(shards: seq<Shard>, events: seq<Event>, i: nat)
    requires Run(shards, events) && i < |events| && !events[i].Restart?
    ensures
      var s, s', e := shards[i], shards[i + 1], events[i];
      && s'.refused == s.refused + (if e.Ask? && !Accepts(s, e.request) then [(e.request, Reason(s, e.request))] else [])
      && s'.spawned == s.spawned + (if StartOf(s, e).Some? then multiset{StartOf(s, e).value.0} else multiset{})
                       - (if e.Started? then multiset{e.actor} else multiset{})
  {
    var s, e := shards[i], events[i];
    if e.Ask? {
      AskBuffers(s, e.request, e.stored, e.request.actor);
    }
  }

  predicate IsActive(s: Shard, a: ActorId) {
    a in s.entities && s.entities[a].state.Active?
  }

  lemma AskKeepsActive(s: Shard, r: Request, stored: bool, a: ActorId)
    ensures IsActive(OnAsk(s, r, stored), a) <==> IsActive(s, a)
  {
  }

  /** In every run an entity is active after an event exactly if it was before and is neither started anew nor
      lost in a restart, or if its start has just succeeded. */
  lemma ActiveIsExact(shards: seq<Shard>, events: seq<Event>, i: nat, a: ActorId)
    requires Run(shards, events) && i < |events|
    ensures
      var s, e := shards[i], events[i];
      IsActive(shards[i + 1], a)
      <==> (IsActive(s, a) && !e.Restart? && !(e.Start? && e.actor == a))
           || (e.Started? && e.ok && e.actor == a && a in s.entities)
  {
    var s, e := shards[i], events[i];
    assert shards[i + 1] == Handle(s, e);
    match e
    case Ask(r, stored) => AskKeepsActive(s, r, stored, a);
    case Restart => NeverActive(s.journal, a);
    case _ =>
  }

  lemma {:induction false} NeverActive(records: seq<Record>, a: ActorId)
    ensures a in Replay(records) ==> !Replay(records)[a].state.Active?
  {
    if records != [] {
      NeverActive(records[..|records| - 1], a);
    }
  }
}
