/** A shard: the entities it runs, the journal of their starts, and what replaying that journal rebuilds. */
module Shard {
  import opened Prelude

  type ActorId = string
  type Recipe = nat

  /** A request to an entity.  `supported` is whether a handler is configured for its message type. */
  datatype Request = Request(id: nat, actor: ActorId, recipe: Option<Recipe>, supported: bool)

  datatype EntityState = Idle | Starting(buffer: seq<Request>) | Active | Passivated

  datatype Entity = Entity(recipe: Recipe, state: EntityState)

  datatype Record =
    | StartEntity(actor: ActorId, recipe: Recipe)
    | PassivateEntity(actor: ActorId)
    | RemoveEntity(actor: ActorId)

  datatype Refusal = NotSupported | NotFound | ActorUnavailable

  /** `spawned` are the entity starts in progress, `delivered` the requests handed to running entities,
      `refused` the ones answered with an error. */
  datatype Shard = Shard(
    entities: map<ActorId, Entity>,
    journal: seq<Record>,
    spawned: multiset<ActorId>,
    delivered: seq<Request>,
    refused: seq<(Request, Refusal)>)

  datatype Event =
    | Ask(request: Request, stored: bool)
    | Start(actor: ActorId, recipe: Recipe, stored: bool)
    | Started(actor: ActorId, ok: bool)
    | Restart

  /** `start_entity`: the start is journaled unless the shard is recovering; a failed write is ignored. */
  function Spawn(s: Shard, actor: ActorId, recipe: Recipe, recovering: bool, stored: bool): Shard {
    s.(journal := if !recovering && stored then s.journal + [StartEntity(actor, recipe)] else s.journal,
       spawned := s.spawned + multiset{actor})
  }

  function Deliver(s: Shard, r: Request): Shard
    requires r.actor in s.entities
  {
    var e := s.entities[r.actor];
    match e.state
    case Starting(buffer) => s.(entities := s.entities[r.actor := e.(state := Starting(buffer + [r]))])
    case Active => s.(delivered := s.delivered + [r])
    case _ => s.(refused := s.refused + [(r, ActorUnavailable)])
  }

  function OnAsk(s: Shard, r: Request, stored: bool): Shard {
    if !r.supported then s.(refused := s.refused + [(r, NotSupported)])
    else if r.actor in s.entities then Deliver(s, r)
    else if r.recipe.Some? then
      Spawn(s.(entities := s.entities[r.actor := Entity(r.recipe.value, Starting([r]))]),
            r.actor, r.recipe.value, false, stored)
    else s.(refused := s.refused + [(r, NotFound)])
  }

  function OnStart(s: Shard, actor: ActorId, recipe: Recipe, stored: bool): Shard {
    Spawn(s.(entities := s.entities[actor := Entity(recipe, Starting([]))]), actor, recipe, false, stored)
  }

  function OnStarted(s: Shard, actor: ActorId, ok: bool): Shard {
    var s' := s.(spawned := s.spawned - multiset{actor});
    if ok && actor in s.entities then
      var e := s.entities[actor];
      s'.(entities := s.entities[actor := e.(state := Active)],
          delivered := s.delivered + (if e.state.Starting? then e.state.buffer else []))
    else
      s'
  }

  function Handle(s: Shard, e: Event): Shard {
    match e
    case Ask(r, stored) => OnAsk(s, r, stored)
    case Start(actor, recipe, stored) => OnStart(s, actor, recipe, stored)
    case Started(actor, ok) => OnStarted(s, actor, ok)
    case Restart => Reopen(s.journal)
  }

  /** A new shard over the same journal. */
  function Reopen(records: seq<Record>): Shard {
    Shard(Replay(records), records, multiset(ActiveEntities(Replay(records))), [], [])
  }

  /** The effect of one journal record during recovery. */
  function Recover(entities: map<ActorId, Entity>, r: Record): map<ActorId, Entity> {
    match r
    case StartEntity(actor, recipe) => entities[actor := Entity(recipe, Starting([]))]
    case PassivateEntity(actor) =>
      if actor in entities then entities[actor := entities[actor].(state := Passivated)] else entities
    case RemoveEntity(actor) => entities - {actor}
  }

  function Replay(records: seq<Record>): map<ActorId, Entity> {
    if records == [] then map[]
    else Recover(Replay(records[..|records| - 1]), records[|records| - 1])
  }

  /** The entities that recovery starts again. */
  function ActiveEntities(entities: map<ActorId, Entity>): set<ActorId> {
    set a | a in entities && entities[a].state.Starting?
  }

  /** The shard actor. */
  class ShardActor {
    var entities: map<ActorId, Entity>
    var journal: seq<Record>
    var spawned: multiset<ActorId>
    var delivered: seq<Request>
    var refused: seq<(Request, Refusal)>

    ghost function View(): Shard
      reads this
    {
      Shard(entities, journal, spawned, delivered, refused)
    }

    /** A shard that starts over the given journal: the records are applied, and then exactly the
        entities left in `Starting` are started again, without journaling anything. */
    constructor Recovered(records: seq<Record>)
      ensures View() == Reopen(records)
    {
      entities, journal, spawned := map[], records, multiset{};
      delivered, refused := [], [];
      new;
      for i := 0 to |records|
        invariant entities == Replay(records[..i])
        invariant journal == records && spawned == multiset{} && delivered == [] && refused == []
      {
        assert records[..i + 1][..i] == records[..i];
        match records[i]
        case StartEntity(actor, recipe) =>
          entities := entities[actor := Entity(recipe, Starting([]))];
        case PassivateEntity(actor) =>
          if actor in entities {
            entities := entities[actor := entities[actor].(state := Passivated)];
          }
        case RemoveEntity(actor) =>
          entities := entities - {actor};
      }
      assert records[..|records|] == records;
      RecoverEntities();
    }

    method RecoverEntities()
      modifies this`spawned, this`journal
      ensures spawned == old(spawned) + multiset(ActiveEntities(entities)) && journal == old(journal)
    {
      var active := set a | a in entities && entities[a].state.Starting?;
      assert active == ActiveEntities(entities);
      var todo := active;
      while todo != {}
        invariant todo <= active
        invariant spawned == old(spawned) + multiset(active - todo) && journal == old(journal)
        decreases todo
      {
        var a :| a in todo;
        OneMoreSpawned(active, todo, a);
        todo := todo - {a};
        DoSpawn(a, entities[a].recipe, true, false);
      }
      assert active - todo == active;
    }

    method DoSpawn(actor: ActorId, recipe: Recipe, recovering: bool, stored: bool)
      modifies this`spawned, this`journal
      ensures View() == Spawn(old(View()), actor, recipe, recovering, stored)
    {
      if !recovering {
        if stored {
          journal := journal + [StartEntity(actor, recipe)];
        }
      }
      spawned := spawned + multiset{actor};
    }

    method HandleAsk(r: Request, stored: bool)
      modifies this
      ensures View() == OnAsk(old(View()), r, stored)
    {
      if !r.supported {
        refused := refused + [(r, NotSupported)];
        return;
      }
      if r.actor in entities {
        var e := entities[r.actor];
        match e.state
        case Starting(buffer) => entities := entities[r.actor := e.(state := Starting(buffer + [r]))];
        case Active => delivered := delivered + [r];
        case _ => refused := refused + [(r, ActorUnavailable)];
      } else if r.recipe.Some? {
        entities := entities[r.actor := Entity(r.recipe.value, Starting([r]))];
        DoSpawn(r.actor, r.recipe.value, false, stored);
      } else {
        refused := refused + [(r, NotFound)];
      }
    }

    method HandleStart(actor: ActorId, recipe: Recipe, stored: bool)
      modifies this
      ensures View() == OnStart(old(View()), actor, recipe, stored)
    {
      entities := entities[actor := Entity(recipe, Starting([]))];
      DoSpawn(actor, recipe, false, stored);
    }

    method HandleStarted(actor: ActorId, ok: bool)
      modifies this
      ensures View() == OnStarted(old(View()), actor, ok)
    {
      spawned := spawned - multiset{actor};
      if ok && actor in entities {
        var previous := entities[actor].state;
        entities := entities[actor := entities[actor].(state := Active)];
        if previous.Starting? {
          var buffer := previous.buffer;
          var i := 0;
          while i < |buffer|
            invariant i <= |buffer| && delivered == old(delivered) + buffer[..i]
            invariant View() == OnStarted(old(View()), actor, ok).(delivered := delivered)
          {
            delivered := delivered + [buffer[i]];
            i := i + 1;
          }
          assert buffer[..i] == buffer;
        }
      }
    }
  }

  lemma OneMoreSpawned(active: set<ActorId>, todo: set<ActorId>, a: ActorId)
    requires todo <= active && a in todo
    ensures multiset(active - (todo - {a})) == multiset(active - todo) + multiset{a}
  {
    assert active - (todo - {a}) == (active - todo) + {a};
  }

  // ---------------------------------------------------------------------------------------------
  // What replay rebuilds

  function Recipes(entities: map<ActorId, Entity>): map<ActorId, Recipe> {
    map a | a in entities :: entities[a].recipe
  }

  /** The last record that names the actor. */
  function LastRecord(records: seq<Record>, actor: ActorId): Option<Record> {
    if records == [] then None
    else if records[|records| - 1].actor == actor then Some(records[|records| - 1])
    else LastRecord(records[..|records| - 1], actor)
  }

  /** For any list of records, the entities started again are exactly those whose last record is a start,
      with the recipe of that start; a removal leaves nothing behind, and a passivated entity stays down. */
  lemma {:induction false} RestartedIffLastStarted(records: seq<Record>, actor: ActorId)
    ensures
      var last, entities := LastRecord(records, actor), Replay(records);
      && (actor in ActiveEntities(entities) <==> last.Some? && last.value.StartEntity?)
      && (last.Some? && last.value.StartEntity? ==> entities[actor] == Entity(last.value.recipe, Starting([])))
      && (last.None? || last.value.RemoveEntity? ==> actor !in entities)
      && (last.Some? && last.value.PassivateEntity? && actor in entities ==> entities[actor].state.Passivated?)
  {
    if records != [] {
      RestartedIffLastStarted(records[..|records| - 1], actor);
    }
  }

  /** The last record that starts or removes the actor. */
  function LastLifecycle(records: seq<Record>, actor: ActorId): Option<Record> {
    if records == [] then None
    else
      var r := records[|records| - 1];
      if r.actor == actor && !r.PassivateEntity? then Some(r) else LastLifecycle(records[..|records| - 1], actor)
  }

  /** For any list of records, the entities there are after recovery are exactly those last started rather than
      removed, with the recipe of that start, however often they were passivated since. */
  lemma {:induction false} PresentIffStarted(records: seq<Record>, actor: ActorId)
    ensures
      var last, entities := LastLifecycle(records, actor), Replay(records);
      && (actor in entities <==> last.Some? && last.value.StartEntity?)
      && (actor in entities ==> entities[actor].recipe == last.value.recipe)
  {
    if records != [] {
      PresentIffStarted(records[..|records| - 1], actor);
    }
  }

  /** The live shard and its journal name the same entities with the same recipes. */
  ghost predicate Faithful(s: Shard) {
    Recipes(s.entities) == Recipes(Replay(s.journal))
  }

  /** The entity that the event starts, if any, and with which recipe. */
  function StartOf(s: Shard, e: Event): Option<(ActorId, Recipe)> {
    match e
    case Ask(r, _) =>
      if r.supported && r.actor !in s.entities && r.recipe.Some? then Some((r.actor, r.recipe.value)) else None
    case Start(actor, recipe, _) => Some((actor, recipe))
    case _ => None
  }

  predicate WasStored(e: Event) {
    (e.Ask? || e.Start?) && e.stored
  }

  lemma HandleRecipes(s: Shard, e: Event)
    requires !e.Restart?
    ensures
      var s', start := Handle(s, e), StartOf(s, e);
      && Recipes(s'.entities) == (if start.Some? then Recipes(s.entities)[start.value.0 := start.value.1] else Recipes(s.entities))
      && s'.journal == (if start.Some? && WasStored(e) then s.journal + [StartEntity(start.value.0, start.value.1)] else s.journal)
  {
    var s', start := Handle(s, e), StartOf(s, e);
    if start.None? {
      assert Recipes(s'.entities) == Recipes(s.entities);
    } else {
      assert Recipes(s'.entities) == Recipes(s.entities)[start.value.0 := start.value.1];
    }
  }

  lemma ReplayOneMore(records: seq<Record>, actor: ActorId, recipe: Recipe)
    ensures Recipes(Replay(records + [StartEntity(actor, recipe)])) == Recipes(Replay(records))[actor := recipe]
  {
    var more := records + [StartEntity(actor, recipe)];
    assert more[..|more| - 1] == records;
  }

  lemma RecipesAgree(entities: map<ActorId, Entity>, actor: ActorId, recipe: Recipe)
    ensures Recipes(entities)[actor := recipe] == Recipes(entities)
       <==> actor in entities && entities[actor].recipe == recipe
  {
    assert Recipes(entities)[actor := recipe][actor] == recipe;
    if actor in entities && entities[actor].recipe == recipe {
      assert Recipes(entities)[actor := recipe] == Recipes(entities);
    }
  }

  lemma FaithfulStart(s: Shard, s': Shard, actor: ActorId, recipe: Recipe, stored: bool)
    requires Faithful(s) && Recipes(s'.entities) == Recipes(s.entities)[actor := recipe]
    requires s'.journal == if stored then s.journal + [StartEntity(actor, recipe)] else s.journal
    ensures Faithful(s') <==> stored || (actor in s.entities && s.entities[actor].recipe == recipe)
  {
    if stored {
      ReplayOneMore(s.journal, actor, recipe);
    } else {
      RecipesAgree(s.entities, actor, recipe);
    }
  }

  /** A step keeps the journal faithful if and only if the start it makes, if any, was stored or changes
      no recipe: a start whose write failed runs, but is not there after a restart. */
  lemma FaithfulIffStored(s: Shard, e: Event)
    requires Faithful(s)
    ensures
      var start := StartOf(s, e);
      Faithful(Handle(s, e)) <==>
        start.None? || WasStored(e)
        || (start.value.0 in s.entities && s.entities[start.value.0].recipe == start.value.1)
  {
    if !e.Restart? {
      var start := StartOf(s, e);
      HandleRecipes(s, e);
      if start.Some? {
        FaithfulStart(s, Handle(s, e), start.value.0, start.value.1, WasStored(e));
      }
    }
  }

  /** An entity whose start could not be stored runs, and after a restart nothing of it is left. */
  lemma UnstoredStartIsLost(r: Request) returns (shards: seq<Shard>, events: seq<Event>)
    requires r.supported && r.recipe.Some?
    ensures Run(shards, events) && events == [Ask(r, false), Started(r.actor, true), Restart]
    ensures shards[2].entities == map[r.actor := Entity(r.recipe.value, Active)] && shards[2].delivered == [r]
    ensures !Faithful(shards[1]) && shards[3] == shards[0]
  {
    events := [Ask(r, false), Started(r.actor, true), Restart];
    var first := Shard(map[], [], multiset{}, [], []);
    var second := OnAsk(first, r, false);
    var third := OnStarted(second, r.actor, true);
    assert [] + [r] == [r];
    assert StartOf(first, events[0]) == Some((r.actor, r.recipe.value));
    assert Recipes(map[]) == map[];
    FaithfulIffStored(first, events[0]);
    assert ActiveEntities(map[]) == {};
    shards := [first, second, third, Reopen([])];
  }

  ghost predicate Run(shards: seq<Shard>, events: seq<Event>) {
    && |shards| == |events| + 1
    && shards[0] == Shard(map[], [], multiset{}, [], [])
    && forall i :: 0 <= i < |events| ==> shards[i + 1] == Handle(shards[i], events[i])
  }

  /** Replaying the journal at any point of any run, across any number of restarts, rebuilds the entities
      of the live shard with their recipes, every one of them to be started again, provided that the
      starts were stored. */
  lemma {:induction false} ReplayMatchesLive(shards: seq<Shard>, events: seq<Event>, i: nat)
    requires Run(shards, events) && i < |shards|
    requires forall k :: 0 <= k < |events| && StartOf(shards[k], events[k]).Some? ==> WasStored(events[k])
    ensures Faithful(shards[i])
    ensures ActiveEntities(Replay(shards[i].journal)) == shards[i].entities.Keys
    decreases i
  {
    if i == 0 {
      assert Recipes(map[]) == map[];
    } else {
      ReplayMatchesLive(shards, events, i - 1);
      FaithfulIffStored(shards[i - 1], events[i - 1]);
      StepKeepsActive(shards[i - 1], events[i - 1]);
    }
  }

  lemma SameEntities(a: map<ActorId, Entity>, b: map<ActorId, Entity>)
    requires Recipes(a) == Recipes(b)
    ensures a.Keys == b.Keys
  {
    assert Recipes(a).Keys == a.Keys && Recipes(b).Keys == b.Keys;
  }

  lemma StartAddsActive(records: seq<Record>, actor: ActorId, recipe: Recipe)
    ensures ActiveEntities(Replay(records + [StartEntity(actor, recipe)])) == ActiveEntities(Replay(records)) + {actor}
  {
    var more := records + [StartEntity(actor, recipe)];
    assert more[..|more| - 1] == records;
  }

  lemma StepKeepsActive(s: Shard, e: Event)
    requires Faithful(s) && ActiveEntities(Replay(s.journal)) == s.entities.Keys
    requires StartOf(s, e).Some? ==> WasStored(e)
    ensures ActiveEntities(Replay(Handle(s, e).journal)) == Handle(s, e).entities.Keys
  {
    var start, s' := StartOf(s, e), Handle(s, e);
    if e.Restart? {
      SameEntities(s'.entities, s.entities);
    } else {
      HandleRecipes(s, e);
      assert Recipes(s'.entities).Keys == s'.entities.Keys && Recipes(s.entities).Keys == s.entities.Keys;
      if start.Some? {
        StartAddsActive(s.journal, start.value.0, start.value.1);
      }
    }
  }
}
