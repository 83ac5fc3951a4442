/** The shard coordinator's books: which host owns which shard, kept twice.

    `shards` maps a shard to its host, and every host keeps the set of its shards.  The functions
    and relations over `Book` say what the coordinator's operations do to both; the class
    `ShardCoordinator` performs them in place.
 */
module Coordinator {
  import opened Prelude

  datatype Status = Unknown | Starting | Ready | Unavailable

  datatype Host = Host(shards: set<ShardId>, status: Status)

  datatype Book = Book(hosts: map<NodeId, Host>, shards: map<ShardId, NodeId>)

  /** An allocation broadcast to hosts. */
  datatype Announcement = Announcement(shard: ShardId, node: NodeId, to: set<NodeId>)

  datatype AllocateError = UnknownError | PersistenceError

  datatype AllocateResult =
    | Allocated(shard: ShardId, node: NodeId)
    | AlreadyAllocated(shard: ShardId, node: NodeId)
    | NotAllocated
    | Err(error: AllocateError)

  /** The two indexes are inverses of each other. */
  ghost predicate Mirrored(b: Book) {
    && (forall s :: s in b.shards ==> b.shards[s] in b.hosts && s in b.hosts[b.shards[s]].shards)
    && (forall n, s :: n in b.hosts && s in b.hosts[n].shards ==> s in b.shards && b.shards[s] == n)
  }

  ghost predicate OnlyReadyOwn(b: Book) {
    forall n :: n in b.hosts && b.hosts[n].shards != {} ==> b.hosts[n].status.Ready?
  }

  ghost predicate Sound(b: Book) {
    Mirrored(b) && OnlyReadyOwn(b) && b.hosts != map[]
  }

  function ReadyHosts(b: Book): set<NodeId> {
    set n | n in b.hosts && b.hosts[n].status.Ready?
  }

  function Load(b: Book, n: NodeId): nat
    requires n in b.hosts
  {
    |b.hosts[n].shards|
  }

  predicate LeastLoaded(b: Book, n: NodeId) {
    && n in ReadyHosts(b)
    && forall m :: m in ReadyHosts(b) ==> Load(b, n) <= Load(b, m)
  }

  function Place(b: Book, s: ShardId, n: NodeId): Book
    requires n in b.hosts
  {
    Book(b.hosts[n := b.hosts[n].(shards := b.hosts[n].shards + {s})], b.shards[s := n])
  }

  /** `allocate_shard`: a known shard stays put; a new one goes to a ready host with the least load,
      whichever of them it is; without a ready host nothing happens. */
  ghost predicate Allocates(b: Book, s: ShardId, b': Book) {
    if s in b.shards || ReadyHosts(b) == {} then
      b' == b
    else
      exists n :: LeastLoaded(b, n) && b' == Place(b, s, n)
  }

  /** The books after each of a series of allocations. */
  ghost predicate Allocations(books: seq<Book>, order: seq<ShardId>) {
    && |books| == |order| + 1
    && forall i :: 0 <= i < |order| ==> Allocates(books[i], order[i], books[i + 1])
  }

  /** The books without the given shards. */
  function Drop(b: Book, gone: set<ShardId>): Book {
    Book(map n | n in b.hosts :: b.hosts[n].(shards := b.hosts[n].shards - gone),
         map s | s in b.shards && s !in gone :: b.shards[s])
  }

  /** What a full rebalance takes away: from each host, its shards above the fair share. */
  ghost predicate Surplus(b: Book, gone: set<ShardId>)
    requires b.hosts != map[]
  {
    var fair := |b.shards| / |b.hosts|;
    && gone <= b.shards.Keys
    && forall n {:trigger Overlap(b, n, gone)} :: n in b.hosts ==> Overlap(b, n, gone) == Excess(Load(b, n), fair)
  }

  function Overlap(b: Book, n: NodeId, gone: set<ShardId>): nat
    requires n in b.hosts
  {
    |b.hosts[n].shards * gone|
  }

  function Excess(load: nat, fair: nat): nat {
    if load > fair then load - fair else 0
  }

  /** The books once a host is written off: it is unavailable and owns nothing. */
  function WriteOff(b: Book, n: NodeId): Book
    requires n in b.hosts
  {
    Book(b.hosts[n := Host({}, Unavailable)], map s | s in b.shards && s !in b.hosts[n].shards :: b.shards[s])
  }

  function Discover(b: Book, n: NodeId): Book {
    b.(hosts := b.hosts[n := Host(if n in b.hosts then b.hosts[n].shards else {}, Ready)])
  }

  // ---------------------------------------------------------------------------------------------
  // What happens to a coordinator

  /** The coordinator's books, what it has journaled, and the shards it is moving: they have been
      taken off a host and wait for that host to stop them. */
  datatype World = World(book: Book, journal: seq<ShardId>, moving: multiset<ShardId>)

  datatype Event =
    | Request(shard: ShardId, stored: bool)
    | Stopped(shard: ShardId)
    | StopFailed(shard: ShardId)
    | RebalanceAll(gone: set<ShardId>)
    | RebalanceSome(list: seq<ShardId>)
    | NodeAdded(node: NodeId)
    | NodeRemoved(node: NodeId, order: seq<ShardId>, books: seq<Book>)
    | Restart(clean: Book, books: seq<Book>)

  /** Fresh books as `pre_recovery` sets them up: no shards, and at least this node is ready. */
  ghost predicate Fresh(b: Book) {
    Sound(b) && b.shards == map[] && ReadyHosts(b) != {}
  }

  ghost predicate Recovered(w: World, clean: Book, books: seq<Book>, b': Book) {
    && Fresh(clean) && Allocations(books, w.journal)
    && books[0] == clean && books[|w.journal|] == b'
  }

  ghost predicate Lost(b: Book, n: NodeId, order: seq<ShardId>, books: seq<Book>, b': Book) {
    if n in b.hosts then
      && Allocations(books, order) && Elements(order) == b.hosts[n].shards
      && books[0] == WriteOff(b, n) && books[|order|] == b'
    else
      b' == b
  }

  /** The effect of each event on the coordinator. */
  ghost predicate Step(w: World, e: Event, w': World) {
    match e
    case Request(s, stored) =>
      if s in w.book.shards || !stored then
        w' == w
      else
        && Allocates(w.book, s, w'.book)
        && w'.journal == w.journal + [s] && w'.moving == w.moving
    case Stopped(s) =>
      && s in w.moving
      && Allocates(w.book, s, w'.book)
      && w'.journal == w.journal && w'.moving == w.moving - multiset{s}
    case StopFailed(s) =>
      s in w.moving && w' == w.(moving := w.moving - multiset{s})
    case RebalanceAll(gone) =>
      && w.book.hosts != map[] && Surplus(w.book, gone)
      && w' == w.(book := Drop(w.book, gone), moving := w.moving + multiset(gone))
    case RebalanceSome(list) =>
      w' == w.(book := Drop(w.book, Elements(list)),
               moving := w.moving + multiset(Elements(list) * w.book.shards.Keys))
    case NodeAdded(n) =>
      w' == w.(book := Discover(w.book, n))
    case NodeRemoved(n, order, books) =>
      Lost(w.book, n, order, books, w'.book) && w' == w.(book := w'.book)
    case Restart(clean, books) =>
      Recovered(w, clean, books, w'.book) && w'.journal == w.journal && w'.moving == multiset{}
  }

  /** The coordinator actor.  `journal` is what it has persisted, `moving` the shards that are being
      stopped before they are allocated again, `announced` the allocations broadcast to the hosts, and
      `withdrawn` the re-allocations broadcast to them. */
  class ShardCoordinator {
    var hosts: map<NodeId, Host>
    var shards: map<ShardId, NodeId>
    var journal: seq<ShardId>
    var moving: multiset<ShardId>
    var announced: seq<Announcement>
    var withdrawn: seq<ShardId>
    var rebalanceScheduled: bool

    ghost function Books(): Book
      reads this
    {
      Book(hosts, shards)
    }

    ghost function State(): World
      reads this
    {
      World(Books(), journal, moving)
    }

    constructor (journal: seq<ShardId>)
      ensures Books() == Book(map[], map[]) && this.journal == journal && moving == multiset{}
      ensures announced == [] && withdrawn == [] && !rebalanceScheduled
    {
      hosts, shards, this.journal, moving := map[], map[], journal, multiset{};
      announced, withdrawn, rebalanceScheduled := [], [], false;
    }

    /** `pre_recovery`: this node is ready, the others if they are healthy or joining. */
    method PreRecovery(self: NodeId, others: map<NodeId, bool>)
      modifies this`hosts
      ensures hosts.Keys == old(hosts).Keys + others.Keys + {self}
      ensures hosts[self] == Host({}, Ready)
      ensures forall n :: n in others && n != self ==> hosts[n] == Host({}, if others[n] then Ready else Unavailable)
      ensures forall n :: n in old(hosts) && n !in others && n != self ==> hosts[n] == old(hosts)[n]
      ensures old(Books()) == Book(map[], map[]) ==>
        Sound(Books()) && ReadyHosts(Books()) == {self} + (set n | n in others && others[n])
    {
      hosts := hosts[self := Host({}, Ready)];
      var todo := others.Keys;
      while todo != {}
        invariant todo <= others.Keys
        invariant hosts.Keys == old(hosts).Keys + {self} + (others.Keys - todo)
        invariant hosts[self] == Host({}, Ready)
        invariant forall n :: n in others && n !in todo && n != self ==>
          hosts[n] == Host({}, if others[n] then Ready else Unavailable)
        invariant forall n :: n in old(hosts) && n !in others && n != self ==> hosts[n] == old(hosts)[n]
        decreases todo
      {
        var n :| n in todo;
        todo := todo - {n};
        if n != self {
          hosts := hosts[n := Host({}, if others[n] then Ready else Unavailable)];
        }
      }
      if old(Books()) == Book(map[], map[]) {
        FreshIsSound(Books(), self, others);
      }
    }

    /** The first ready host, in some order, among those with the least load. */
    method PickHost() returns (pick: Option<NodeId>)
      ensures pick.None? <==> ReadyHosts(Books()) == {}
      ensures pick.Some? ==> LeastLoaded(Books(), pick.value)
    {
      pick := None;
      var ready := set n | n in hosts && hosts[n].status.Ready?;
      assert ready == ReadyHosts(Books());
      var todo := ready;
      while todo != {}
        invariant todo <= ready
        invariant pick.None? ==> todo == ready
        invariant pick.Some? ==> pick.value in ready
        invariant pick.Some? ==> forall m :: m in ready - todo ==> Load(Books(), pick.value) <= Load(Books(), m)
        decreases todo
      {
        var n :| n in todo;
        todo := todo - {n};
        if pick.None? || |hosts[n].shards| < |hosts[pick.value].shards| {
          pick := Some(n);
        }
      }
    }

    method AllocateShard(s: ShardId) returns (r: AllocateResult)
      modifies this`hosts, this`shards, this`announced
      ensures Allocates(old(Books()), s, Books())
      ensures s in old(shards) ==> r == AlreadyAllocated(s, old(shards)[s]) && announced == old(announced)
      ensures s !in old(shards) && ReadyHosts(old(Books())) == {} ==> r == NotAllocated && announced == old(announced)
      ensures s !in old(shards) && ReadyHosts(old(Books())) != {} ==>
        && s in shards && shards[s] in old(hosts) && r == Allocated(s, shards[s])
        && announced == old(announced) + (if s in old(hosts)[shards[s]].shards then []
                                          else [Announcement(s, shards[s], ReadyHosts(old(Books())))])
    {
      if s in shards {
        return AlreadyAllocated(s, shards[s]);
      }
      var pick := PickHost();
      if pick.None? {
        return NotAllocated;
      }
      var n := pick.value;
      var host := hosts[n];
      var to := set m | m in hosts && hosts[m].status.Ready?;
      assert to == ReadyHosts(old(Books()));
      shards := shards[s := n];
      hosts := hosts[n := host.(shards := host.shards + {s})];
      if s !in host.shards {
        announced := announced + [Announcement(s, n, to)];
      }
      assert Books() == Place(old(Books()), s, n);
      r := Allocated(s, n);
    }

    /** A shard that nobody owns is announced whenever it is placed. */
    method AllocateFresh(s: ShardId) returns (r: AllocateResult)
      requires Sound(Books()) && s !in shards
      modifies this`hosts, this`shards, this`announced
      ensures Allocates(old(Books()), s, Books())
      ensures s in shards ==>
        r == Allocated(s, shards[s]) && announced == old(announced) + [Announcement(s, shards[s], ReadyHosts(old(Books())))]
      ensures s !in shards ==> r == NotAllocated && announced == old(announced)
    {
      assert forall n :: n in hosts ==> s !in hosts[n].shards;
      r := AllocateShard(s);
    }

    /** The `AllocateShard` message: a request, or, when `rebalancing`, the end of a move.  `stored` is whether
        the journal accepts the write. */
    method HandleAllocate(s: ShardId, rebalancing: bool, stored: bool) returns (r: AllocateResult)
      requires Sound(Books())
      modifies this
      ensures withdrawn == old(withdrawn) && rebalanceScheduled == old(rebalanceScheduled)
      ensures !rebalancing ==> Step(old(State()), Request(s, stored), State())
      ensures rebalancing && s in old(moving) ==> Step(old(State()), Stopped(s), State())
      ensures rebalancing ==>
        Allocates(old(Books()), s, Books()) && journal == old(journal) && moving == old(moving) - multiset{s}
      ensures s in old(shards) ==> r == AlreadyAllocated(s, old(shards)[s])
      ensures s !in old(shards) && s in shards ==>
        r == Allocated(s, shards[s]) && announced == old(announced) + [Announcement(s, shards[s], ReadyHosts(old(Books())))]
      ensures s !in shards ==>
        announced == old(announced) && r == if rebalancing || stored then NotAllocated else Err(PersistenceError)
    {
      if rebalancing {
        moving := moving - multiset{s};
      }
      if s in shards {
        return AlreadyAllocated(s, shards[s]);
      }
      if rebalancing {
        r := AllocateFresh(s);
        return;
      }
      if stored {
        journal := journal + [s];
        r := AllocateFresh(s);
      } else {
        r := Err(PersistenceError);
      }
    }

    /** Recovery applies every journaled allocation, in order. */
    method Recover() returns (ghost books: seq<Book>)
      requires Sound(Books())
      modifies this`hosts, this`shards, this`announced
      ensures Allocations(books, journal)
      ensures books[0] == old(Books()) && books[|journal|] == Books()
      ensures Sound(Books())
    {
      books := [Books()];
      for i := 0 to |journal|
        invariant Allocations(books, journal[..i])
        invariant books[0] == old(Books()) && books[i] == Books() && Sound(Books())
      {
        var before := Books();
        var _ := AllocateShard(journal[i]);
        AllocatesKeepsSound(before, journal[i], Books());
        AllocationsExtend(books, journal[..i], journal[i], Books());
        books := books + [Books()];
        assert journal[..i + 1] == journal[..i] + [journal[i]];
      }
      assert journal[..|journal|] == journal;
    }

    /** One turn of the loop in `rebalance_shards`. */
    method TakeOff(s: ShardId)
      requires Sound(Books())
      modifies this`hosts, this`shards, this`moving, this`withdrawn
      ensures withdrawn == old(withdrawn) + [s]
      ensures Books() == Drop(old(Books()), {s})
      ensures moving == old(moving) + (if s in old(shards) then multiset{s} else multiset{})
    {
      DropOne(Books(), s);
      withdrawn := withdrawn + [s];
      if s in shards {
        var n := shards[s];
        shards := shards - {s};
        hosts := hosts[n := hosts[n].(shards := hosts[n].shards - {s})];
        moving := moving + multiset{s};
      }
    }

    /** `rebalance_shards`: takes the listed shards off their hosts and begins to move each of them.
        The list may repeat shards or name unknown ones. */
    method RebalanceShards(list: seq<ShardId>)
      requires Sound(Books())
      modifies this`hosts, this`shards, this`moving, this`withdrawn
      ensures withdrawn == old(withdrawn) + list
      ensures Step(old(State()), RebalanceSome(list), State()) && Sound(Books())
    {
      ghost var b := Books();
      NothingTakenOff(b, moving, withdrawn, list);
      for i := 0 to |list|
        invariant TakenOff(b, old(moving), old(withdrawn), list, i, Books(), moving, withdrawn)
      {
        ghost var now, m, w := Books(), moving, withdrawn;
        TakeOff(list[i]);
        OneMoreTakenOff(b, old(moving), old(withdrawn), list, i, now, m, w);
      }
      ElementsTake(list, |list|);
    }

    /** `Rebalance::All`: every host above the fair share gives up the excess. */
    method RebalanceAll() returns (ghost gone: set<ShardId>)
      requires Sound(Books())
      modifies this`hosts, this`shards, this`moving, this`withdrawn
      ensures Step(old(State()), Event.RebalanceAll(gone), State()) && Sound(Books())
      ensures |old(withdrawn)| <= |withdrawn| && Elements(withdrawn[|old(withdrawn)|..]) == gone
    {
      var fair := |shards| / |hosts|;
      var list := CollectExcess(fair);
      gone := Elements(list);
      assert gone * shards.Keys == gone;
      RebalanceShards(list);
    }

    /** The outer loop: the excess of every host, host by host. */
    method CollectExcess(fair: nat) returns (list: seq<ShardId>)
      requires Mirrored(Books())
      ensures Trimmed(Books(), fair, Elements(list), {})
    {
      list := [];
      var todo := hosts.Keys;
      while todo != {}
        invariant todo <= hosts.Keys && Trimmed(Books(), fair, Elements(list), todo)
        decreases todo
      {
        var n :| n in todo;
        var taken := PickExcess(hosts[n].shards, fair);
        TrimmedStep(Books(), fair, Elements(list), todo, n, Elements(taken));
        assert Elements(list + taken) == Elements(list) + Elements(taken);
        list := list + taken;
        todo := todo - {n};
      }
    }

    /** The inner loop: the first `len - fair` shards of a host, in whatever order they come. */
    method PickExcess(owned: set<ShardId>, fair: nat) returns (taken: seq<ShardId>)
      ensures Elements(taken) <= owned
      ensures |Elements(taken)| == |taken| == Excess(|owned|, fair)
      ensures |owned| > fair ==> |owned| - |taken| == fair
      ensures |owned| <= fair ==> taken == []
    {
      taken := [];
      if |owned| > fair {
        var diff := |owned| - fair;
        var rest := owned;
        var i := 0;
        while rest != {} && i < diff
          invariant i <= diff && |rest| == |owned| - i
          invariant Elements(taken) == owned - rest && rest <= owned && |Elements(taken)| == |taken| == i
          decreases rest
        {
          var s :| s in rest;
          ghost var before := Elements(taken);
          taken := taken + [s];
          assert Elements(taken) == before + {s};
          rest := rest - {s};
          i := i + 1;
        }
      }
    }

    /** `rebalance_unavailable_node`: the lost host's shards are allocated again, one after another. */
    method RebalanceUnavailableNode(n: NodeId) returns (ghost books: seq<Book>, ghost order: seq<ShardId>)
      requires Sound(Books())
      modifies this`hosts, this`shards, this`announced
      ensures Step(old(State()), NodeRemoved(n, order, books), State()) && Sound(Books())
      ensures n in old(hosts) ==> |order| == |old(hosts)[n].shards|
    {
      books, order := [], [];
      if n !in hosts {
        return;
      }
      var lost := hosts[n].shards;
      WriteOffKeepsSound(Books(), n);
      assert WriteOff(Books(), n).shards == shards - lost;
      hosts := hosts[n := Host({}, Unavailable)];
      books, order := ReallocateAll(lost);
    }

    /** The loop of `rebalance_unavailable_node`. */
    method ReallocateAll(lost: set<ShardId>) returns (ghost books: seq<Book>, ghost order: seq<ShardId>)
      requires lost <= shards.Keys && Sound(Book(hosts, shards - lost))
      modifies this`hosts, this`shards, this`announced
      ensures Replaced(books, order, Book(old(hosts), old(shards) - lost), Books(), lost, {})
    {
      ghost var first := Book(hosts, shards - lost);
      books, order := [first], [];
      var todo := lost;
      while todo != {}
        invariant todo <= shards.Keys
        invariant Replaced(books, order, first, Book(hosts, shards - todo), lost, todo)
        decreases todo
      {
        var s :| s in todo;
        assert todo == (todo - {s}) + {s};
        todo := todo - {s};
        Reallocate(s, todo);
        ghost var after := Book(hosts, shards - todo);
        ReplacedTurn(books, order, first, lost, todo, s, after);
        books, order := books + [after], order + [s];
      }
      assert shards - todo == shards;
    }

    /** One turn of the loop above, while the entries in `stale` still name the lost host. */
    method Reallocate(s: ShardId, ghost stale: set<ShardId>)
      requires s !in stale && s in shards && stale <= shards.Keys
      requires Sound(Book(hosts, shards - (stale + {s})))
      modifies this`hosts, this`shards, this`announced
      ensures Allocates(Book(old(hosts), old(shards) - (stale + {s})), s, Book(hosts, shards - stale))
      ensures stale <= shards.Keys
    {
      ghost var sound := Book(hosts, shards - (stale + {s}));
      assert forall n :: n in sound.hosts && s in sound.hosts[n].shards ==> s in sound.shards;
      shards := shards - {s};
      ghost var before := Books();
      assert before.shards - stale == sound.shards;
      var _ := AllocateShard(s);
      AllocatesIgnoresStale(before, s, Books(), stale);
    }

    method HandleNodeAdded(n: NodeId)
      modifies this`hosts, this`rebalanceScheduled
      ensures Step(old(State()), NodeAdded(n), State())
      ensures rebalanceScheduled == (old(rebalanceScheduled) || n !in ReadyHosts(old(Books())))
    {
      if n in hosts {
        if hosts[n].status != Ready {
          hosts := hosts[n := hosts[n].(status := Ready)];
          rebalanceScheduled := true;
        }
      } else {
        hosts := hosts[n := Host({}, Ready)];
        rebalanceScheduled := true;
      }
    }
  }

  /** A coordinator starts over what a predecessor journaled: the hosts are set up, then the journal is replayed. */
  method Started(self: NodeId, others: map<NodeId, bool>, journal: seq<ShardId>)
    returns (c: ShardCoordinator, ghost clean: Book, ghost books: seq<Book>)
    ensures fresh(c) && Sound(c.Books())
    ensures ReadyHosts(clean) == {self} + (set n | n in others && others[n])
    ensures forall w: World :: w.journal == journal ==> Step(w, Restart(clean, books), c.State())
  {
    c := new ShardCoordinator(journal);
    c.PreRecovery(self, others);
    clean := c.Books();
    books := c.Recover();
  }

  lemma FreshIsSound(b: Book, self: NodeId, others: map<NodeId, bool>)
    requires b.hosts.Keys == others.Keys + {self} && b.shards == map[] && b.hosts[self] == Host({}, Ready)
    requires forall n :: n in others && n != self ==> b.hosts[n] == Host({}, if others[n] then Ready else Unavailable)
    ensures Sound(b) && ReadyHosts(b) == {self} + (set n | n in others && others[n])
  {
    assert forall n :: n in b.hosts ==> b.hosts[n].shards == {};
  }

  function Elements(list: seq<ShardId>): set<ShardId> {
    set s | s in list
  }

  lemma ElementsTake(list: seq<ShardId>, i: nat)
    requires i <= |list|
    ensures i < |list| ==> Elements(list[..i + 1]) == Elements(list[..i]) + {list[i]}
    ensures i == |list| ==> list[..i] == list
  {
  }

  lemma Extended(base: seq<ShardId>, list: seq<ShardId>, i: nat)
    requires i < |list|
    ensures base + list[..i] + [list[i]] == base + list[..i + 1]
  {
  }

  lemma DropNothing(b: Book)
    ensures Drop(b, {}) == b && Elements([]) == {}
  {
    assert forall n :: n in b.hosts ==> b.hosts[n].shards - {} == b.hosts[n].shards;
  }

  lemma DropKeepsSound(b: Book, gone: set<ShardId>)
    requires Sound(b)
    ensures Sound(Drop(b, gone)) && ReadyHosts(Drop(b, gone)) == ReadyHosts(b)
  {
    var b' := Drop(b, gone);
    assert b'.hosts.Keys == b.hosts.Keys;
  }

  /** Taking a shard off its own host takes it off every host. */
  lemma DropOne(b: Book, s: ShardId)
    requires Sound(b)
    ensures s !in b.shards ==> Drop(b, {s}) == b
    ensures s in b.shards ==>
      var n := b.shards[s];
      Drop(b, {s}) == Book(b.hosts[n := b.hosts[n].(shards := b.hosts[n].shards - {s})], b.shards - {s})
  {
    var d := Drop(b, {s});
    forall n | n in b.hosts && (s !in b.shards || b.shards[s] != n)
      ensures d.hosts[n] == b.hosts[n]
    {
      assert s !in b.hosts[n].shards;
      assert d.hosts[n].shards == b.hosts[n].shards;
    }
    assert d.shards == b.shards - {s};
  }

  lemma DropTwice(b: Book, gone: set<ShardId>, more: set<ShardId>)
    ensures Drop(Drop(b, gone), more) == Drop(b, gone + more)
  {
    var d, d' := Drop(Drop(b, gone), more), Drop(b, gone + more);
    forall n | n in b.hosts
      ensures d.hosts[n] == d'.hosts[n]
    {
      assert d.hosts[n].shards == d'.hosts[n].shards;
    }
    assert d.hosts == d'.hosts && d.shards == d'.shards;
  }

  /** The first `i` shards of the list have been taken off their hosts. */
  ghost predicate TakenOff(b: Book, moving: multiset<ShardId>, withdrawn: seq<ShardId>, list: seq<ShardId>, i: nat,
                           b': Book, moving': multiset<ShardId>, withdrawn': seq<ShardId>)
    requires i <= |list|
  {
    var gone := Elements(list[..i]);
    && b' == Drop(b, gone) && Sound(b')
    && moving' == moving + multiset(gone * b.shards.Keys)
    && withdrawn' == withdrawn + list[..i]
  }

  lemma NothingTakenOff(b: Book, moving: multiset<ShardId>, withdrawn: seq<ShardId>, list: seq<ShardId>)
    requires Sound(b)
    ensures TakenOff(b, moving, withdrawn, list, 0, b, moving, withdrawn)
  {
    DropNothing(b);
    assert list[..0] == [] && {} * b.shards.Keys == {};
  }

  lemma OneMoreTakenOff(b: Book, moving: multiset<ShardId>, withdrawn: seq<ShardId>, list: seq<ShardId>, i: nat,
                        b': Book, moving': multiset<ShardId>, withdrawn': seq<ShardId>)
    requires i < |list| && Sound(b) && TakenOff(b, moving, withdrawn, list, i, b', moving', withdrawn')
    ensures TakenOff(b, moving, withdrawn, list, i + 1, Drop(b', {list[i]}),
                     moving' + (if list[i] in b'.shards then multiset{list[i]} else multiset{}),
                     withdrawn' + [list[i]])
  {
    var s, gone := list[i], Elements(list[..i]);
    ElementsTake(list, i);
    assert Drop(b', {s}) == Drop(b, gone + {s}) && Sound(Drop(b, gone + {s})) by {
      DropTwice(b, gone, {s});
      DropKeepsSound(b, gone + {s});
    }
    DroppedMoves(b, gone, s, moving);
    Extended(withdrawn, list, i);
  }

  lemma DroppedMoves(b: Book, gone: set<ShardId>, s: ShardId, moving: multiset<ShardId>)
    ensures moving + multiset(gone * b.shards.Keys) + (if s in Drop(b, gone).shards then multiset{s} else multiset{})
         == moving + multiset((gone + {s}) * b.shards.Keys)
  {
    MovingGrows(b.shards.Keys, gone, s);
  }

  lemma MovingGrows(known: set<ShardId>, dropped: set<ShardId>, s: ShardId)
    ensures multiset((dropped + {s}) * known)
         == multiset(dropped * known) + (if s in known && s !in dropped then multiset{s} else multiset{})
  {
    if s in known && s !in dropped {
      assert (dropped + {s}) * known == dropped * known + {s};
    } else {
      assert (dropped + {s}) * known == dropped * known;
    }
  }

  /** The hosts outside `todo` have given up their excess, and `gone` is exactly that. */
  ghost predicate Trimmed(b: Book, fair: nat, gone: set<ShardId>, todo: set<NodeId>) {
    && (forall s :: s in gone ==> s in b.shards && b.shards[s] !in todo)
    && (forall n {:trigger Overlap(b, n, gone)} :: n in b.hosts && n !in todo ==> Overlap(b, n, gone) == Excess(Load(b, n), fair))
  }

  /** Shards of one host overlap with no other host's. */
  lemma OverlapAfter(b: Book, gone: set<ShardId>, n: NodeId, extra: set<ShardId>, m: NodeId)
    requires Mirrored(b) && n in b.hosts && m in b.hosts && extra <= b.hosts[n].shards
    requires forall s :: s in gone ==> s in b.shards && b.shards[s] != n
    ensures Overlap(b, m, gone + extra) == if m == n then |extra| else Overlap(b, m, gone)
  {
    if m == n {
      assert b.hosts[n].shards * (gone + extra) == extra;
    } else {
      assert forall s :: s in extra ==> s in b.hosts[n].shards && b.shards[s] == n;
      assert b.hosts[m].shards * (gone + extra) == b.hosts[m].shards * gone;
    }
  }

  lemma TrimmedStep(b: Book, fair: nat, gone: set<ShardId>, todo: set<NodeId>, n: NodeId, extra: set<ShardId>)
    requires Mirrored(b) && n in todo && todo <= b.hosts.Keys && Trimmed(b, fair, gone, todo)
    requires extra <= b.hosts[n].shards && |extra| == Excess(Load(b, n), fair)
    ensures Trimmed(b, fair, gone + extra, todo - {n})
  {
    forall s | s in gone + extra
      ensures s in b.shards && b.shards[s] !in todo - {n}
    {
      if s in extra {
        assert s in b.hosts[n].shards;
      }
    }
    forall m | m in b.hosts && m !in todo - {n}
      ensures Overlap(b, m, gone + extra) == Excess(Load(b, m), fair)
    {
      OverlapAfter(b, gone, n, extra, m);
      if m != n {
        assert Overlap(b, m, gone) == Excess(Load(b, m), fair);
      }
    }
  }

  lemma WriteOffKeepsSound(b: Book, n: NodeId)
    requires Sound(b) && n in b.hosts
    ensures Sound(WriteOff(b, n)) && ReadyHosts(WriteOff(b, n)) == ReadyHosts(b) - {n}
  {
    var b' := WriteOff(b, n);
    assert b'.hosts.Keys == b.hosts.Keys;
    forall m, s | m in b'.hosts && s in b'.hosts[m].shards
      ensures s in b'.shards && b'.shards[s] == m
    {
      assert s in b.hosts[m].shards && b.shards[s] == m;
    }
  }

  lemma DiscoverKeepsSound(b: Book, n: NodeId)
    requires Sound(b)
    ensures Sound(Discover(b, n)) && ReadyHosts(Discover(b, n)) == ReadyHosts(b) + {n}
  {
    var b' := Discover(b, n);
    assert b'.hosts.Keys == b.hosts.Keys + {n};
  }

  /** Entries of other shards do not influence where a shard goes. */
  lemma AllocatesIgnoresStale(b: Book, s: ShardId, b': Book, stale: set<ShardId>)
    requires Allocates(b, s, b') && s !in b.shards && s !in stale
    ensures Allocates(Book(b.hosts, b.shards - stale), s, Book(b'.hosts, b'.shards - stale))
  {
    var c := Book(b.hosts, b.shards - stale);
    assert ReadyHosts(c) == ReadyHosts(b);
    if ReadyHosts(b) != {} {
      var n :| LeastLoaded(b, n) && b' == Place(b, s, n);
      StaleLeastLoaded(b, n, stale);
      assert b'.shards - stale == (b.shards - stale)[s := n];
      assert Book(b'.hosts, b'.shards - stale) == Place(c, s, n);
    }
  }

  lemma StaleLeastLoaded(b: Book, n: NodeId, stale: set<ShardId>)
    requires LeastLoaded(b, n)
    ensures LeastLoaded(Book(b.hosts, b.shards - stale), n)
  {
    assert ReadyHosts(Book(b.hosts, b.shards - stale)) == ReadyHosts(b);
  }

  lemma AllocationsExtend(books: seq<Book>, order: seq<ShardId>, s: ShardId, b: Book)
    requires Allocations(books, order) && Allocates(books[|order|], s, b)
    ensures Allocations(books + [b], order + [s])
  {
    var books', order' := books + [b], order + [s];
    forall i | 0 <= i < |order'|
      ensures Allocates(books'[i], order'[i], books'[i + 1])
    {
      if i < |order| {
        assert Allocates(books[i], order[i], books[i + 1]);
      }
    }
  }

  lemma PlaceKeepsSound(b: Book, s: ShardId, n: NodeId)
    requires Sound(b) && s !in b.shards && n in ReadyHosts(b)
    ensures Sound(Place(b, s, n)) && ReadyHosts(Place(b, s, n)) == ReadyHosts(b)
  {
    var b' := Place(b, s, n);
    assert b'.hosts.Keys == b.hosts.Keys;
    assert forall m :: m in b.hosts ==> b'.hosts[m].status == b.hosts[m].status;
    forall m, t | m in b'.hosts && t in b'.hosts[m].shards
      ensures t in b'.shards && b'.shards[t] == m
    {
      if t != s {
        assert t in b.hosts[m].shards;
      }
    }
    assert Mirrored(b');
  }

  lemma PlaceAddsOne(b: Book, s: ShardId, n: NodeId)
    requires n in b.hosts && s !in b.shards
    ensures Place(b, s, n).hosts.Keys == b.hosts.Keys && Place(b, s, n).shards.Keys == b.shards.Keys + {s}
    ensures forall t :: t in b.shards ==> Place(b, s, n).shards[t] == b.shards[t]
  {
  }

  /** The lost shards outside `todo` have been allocated again, in the given order. */
  ghost predicate Replaced(books: seq<Book>, order: seq<ShardId>, first: Book, now: Book,
                           lost: set<ShardId>, todo: set<ShardId>) {
    && Allocations(books, order) && books[0] == first && books[|order|] == now && Sound(now)
    && todo <= lost && Elements(order) == lost - todo && |order| + |todo| == |lost|
  }

  /** Listing one more of the lost shards. */
  lemma OneMoreListed(order: seq<ShardId>, lost: set<ShardId>, todo: set<ShardId>, s: ShardId)
    requires s !in todo && todo + {s} <= lost
    requires Elements(order) == lost - (todo + {s}) && |order| + |todo + {s}| == |lost|
    ensures Elements(order + [s]) == lost - todo && |order + [s]| + |todo| == |lost|
  {
    assert Elements(order + [s]) == Elements(order) + {s};
  }

  lemma ReplacedTurn(books: seq<Book>, order: seq<ShardId>, first: Book, lost: set<ShardId>, todo: set<ShardId>,
                     s: ShardId, after: Book)
    requires s !in todo && |books| == |order| + 1
    requires Replaced(books, order, first, books[|order|], lost, todo + {s}) && Allocates(books[|order|], s, after)
    ensures Replaced(books + [after], order + [s], first, after, lost, todo)
  {
    OneMoreListed(order, lost, todo, s);
    assert Allocations(books + [after], order + [s]) by {
      AllocationsExtend(books, order, s, after);
    }
    assert Sound(after) by {
      AllocatesKeepsSound(books[|order|], s, after);
    }
  }

  lemma AllocatesKeepsSound(b: Book, s: ShardId, b': Book)
    requires Sound(b) && Allocates(b, s, b')
    ensures Sound(b')
    ensures b'.hosts.Keys == b.hosts.Keys && ReadyHosts(b') == ReadyHosts(b)
    ensures b'.shards.Keys == if ReadyHosts(b) == {} then b.shards.Keys else b.shards.Keys + {s}
    ensures forall t :: t in b.shards ==> b'.shards[t] == b.shards[t]
  {
    if s !in b.shards && ReadyHosts(b) != {} {
      var n :| LeastLoaded(b, n) && b' == Place(b, s, n);
      PlaceKeepsSound(b, s, n);
      PlaceAddsOne(b, s, n);
    }
  }
}
