/** Every run of a coordinator: requests, rebalances, nodes that come and go, and crashes followed by
    recovery from the journal. */
module CoordinatorRuns {
  import opened Prelude
  import opened Coordinator
  import opened CoordinatorBalance

  ghost predicate Run(worlds: seq<World>, events: seq<Event>) {
    && |worlds| == |events| + 1
    && Fresh(worlds[0].book) && worlds[0].journal == [] && worlds[0].moving == multiset{}
    && forall i :: 0 <= i < |events| ==> Step(worlds[i], events[i], worlds[i + 1])
  }

  /** Write-ahead: whatever is allocated or on the move has been journaled. */
  ghost predicate Journaled(w: World) {
    && (forall s :: s in w.book.shards ==> s in w.journal)
    && (forall s :: s in w.moving ==> s in w.journal)
  }

  ghost predicate Inv(w: World) {
    Sound(w.book) && Journaled(w)
  }

  lemma AllocateKeepsInv(w: World, s: ShardId, w': World)
    requires Inv(w) && Allocates(w.book, s, w'.book)
    requires s in w'.journal && w.journal <= w'.journal && w'.moving <= w.moving
    ensures Inv(w')
  {
    AllocatesKeepsSound(w.book, s, w'.book);
  }

  lemma DropKeepsInv(w: World, gone: set<ShardId>, w': World)
    requires Inv(w)
    requires w' == w.(book := Drop(w.book, gone), moving := w.moving + multiset(gone * w.book.shards.Keys))
    ensures Inv(w')
  {
    DropKeepsSound(w.book, gone);
  }

  lemma RestartKeepsInv(w: World, clean: Book, books: seq<Book>, w': World)
    requires Recovered(w, clean, books, w'.book) && w'.journal == w.journal && w'.moving == multiset{}
    ensures Inv(w') && w'.book.shards.Keys == Elements(w.journal) && FairlyShared(w'.book)
  {
    AllocationsConserve(books, w.journal, |w.journal|);
    ReplayIsExact(books, w.journal);
  }

  lemma NodeRemovedKeepsInv(w: World, n: NodeId, order: seq<ShardId>, books: seq<Book>, w': World)
    requires Inv(w) && Lost(w.book, n, order, books, w'.book) && w' == w.(book := w'.book)
    ensures Inv(w')
  {
    if n in w.book.hosts {
      NodeLossConserves(w.book, n, books, order);
    }
  }

  lemma StepInv(w: World, e: Event, w': World)
    requires Inv(w) && Step(w, e, w')
    ensures Inv(w')
  {
    match e
    case Request(s, stored) =>
      if s !in w.book.shards && stored {
        AllocateKeepsInv(w, s, w');
      }
    case Stopped(s) =>
      AllocateKeepsInv(w, s, w');
    case StopFailed(_) =>
    case RebalanceAll(gone) =>
      assert gone * w.book.shards.Keys == gone;
      DropKeepsInv(w, gone, w');
    case RebalanceSome(list) =>
      DropKeepsInv(w, Elements(list), w');
    case NodeAdded(n) =>
      DiscoverKeepsSound(w.book, n);
    case NodeRemoved(n, order, books) =>
      NodeRemovedKeepsInv(w, n, order, books, w');
    case Restart(clean, books) =>
      RestartKeepsInv(w, clean, books, w');
  }

  /** In every state of every run the two indexes mirror each other, only ready hosts own shards, there
      is a host, and every shard that is allocated or on the move is in the journal. */
  lemma {:induction false} RunKeepsBooks(worlds: seq<World>, events: seq<Event>, i: nat)
    requires Run(worlds, events) && i < |worlds|
    ensures Sound(worlds[i].book) && Journaled(worlds[i])
    decreases i
  {
    if i > 0 {
      RunKeepsBooks(worlds, events, i - 1);
      assert Step(worlds[i - 1], events[i - 1], worlds[i]);
      StepInv(worlds[i - 1], events[i - 1], worlds[i]);
    }
  }

  /** A coordinator that crashes at any point of any run and recovers has every shard that was
      allocated or on the move allocated again, and exactly the journaled ones, fairly shared. */
  lemma CrashRecovery(worlds: seq<World>, events: seq<Event>, i: nat)
    requires Run(worlds, events) && i < |events| && events[i].Restart?
    ensures
      var before, after := worlds[i], worlds[i + 1].book;
      && before.book.shards.Keys <= after.shards.Keys
      && (forall s :: s in before.moving ==> s in after.shards)
      && after.shards.Keys == Elements(before.journal)
      && FairlyShared(after)
  {
    RunKeepsBooks(worlds, events, i);
    assert Step(worlds[i], events[i], worlds[i + 1]);
    RestartKeepsInv(worlds[i], events[i].clean, events[i].books, worlds[i + 1]);
  }

  /** Every journaled shard is allocated or on the move. */
  ghost predicate Accounted(w: World) {
    forall s :: s in w.journal ==> s in w.book.shards || s in w.moving
  }

  lemma StepAccounts(w: World, e: Event, w': World)
    requires Inv(w) && Accounted(w) && Step(w, e, w')
    requires !e.StopFailed? && ReadyHosts(w'.book) != {}
    ensures Accounted(w')
  {
    match e
    case Request(s, stored) =>
      if s !in w.book.shards && stored {
        AllocatesKeepsSound(w.book, s, w'.book);
      }
    case Stopped(s) =>
      AllocatesKeepsSound(w.book, s, w'.book);
    case RebalanceAll(gone) =>
      DropAccounts(w, gone, w');
    case RebalanceSome(list) =>
      DropAccounts(w, Elements(list), w');
    case NodeAdded(_) =>
    case NodeRemoved(n, order, books) =>
      if n in w.book.hosts {
        NodeLossConserves(w.book, n, books, order);
        WriteOffKeepsSound(w.book, n);
        AllocationsConserve(books, order, |order|);
      }
    case Restart(clean, books) =>
      RestartKeepsInv(w, clean, books, w');
  }

  lemma DropAccounts(w: World, gone: set<ShardId>, w': World)
    requires Accounted(w) && w'.journal == w.journal && w'.book == Drop(w.book, gone)
    requires forall s :: s in w.moving || (s in gone && s in w.book.shards) ==> s in w'.moving
    ensures Accounted(w')
  {
  }

  /** As long as some host is ready and every stop request is answered, the journaled shards are
      exactly the allocated ones and the ones on the move: none is dropped, none appears. */
  lemma {:induction false} NothingIsLost(worlds: seq<World>, events: seq<Event>, i: nat)
    requires Run(worlds, events) && i < |worlds|
    requires forall k :: 0 <= k < |events| ==> !events[k].StopFailed?
    requires forall k :: 0 <= k < |worlds| ==> ReadyHosts(worlds[k].book) != {}
    ensures forall s :: s in worlds[i].journal <==> s in worlds[i].book.shards || s in worlds[i].moving
    decreases i
  {
    RunKeepsBooks(worlds, events, i);
    if i > 0 {
      NothingIsLost(worlds, events, i - 1);
      RunKeepsBooks(worlds, events, i - 1);
      assert Step(worlds[i - 1], events[i - 1], worlds[i]);
      StepAccounts(worlds[i - 1], events[i - 1], worlds[i]);
    }
  }
}
