/** How evenly the coordinator's placements spread the shards, whatever the order of the requests
    and whichever of the equally loaded hosts is picked. */
module CoordinatorBalance {
  import opened Prelude
  import opened Coordinator

  function Owned(b: Book, group: set<NodeId>): set<ShardId> {
    set s | s in b.shards && b.shards[s] in group
  }

  lemma OwnedByOne(b: Book, group: set<NodeId>, n: NodeId)
    requires Mirrored(b) && n in group && n in b.hosts
    ensures |Owned(b, group)| == |Owned(b, group - {n})| + Load(b, n)
  {
    var rest, own := Owned(b, group - {n}), b.hosts[n].shards;
    assert Owned(b, group) == rest + own;
    assert rest !! own;
  }

  /** If nobody carries more than `q`, the group carries at most `q` each. */
  lemma {:induction false} AtMost(b: Book, group: set<NodeId>, q: nat)
    requires Mirrored(b) && group <= b.hosts.Keys
    requires forall n :: n in group ==> Load(b, n) <= q
    ensures |Owned(b, group)| <= |group| * q
    decreases group
  {
    if group == {} {
      assert Owned(b, group) == {};
    } else {
      var n :| n in group;
      AtMost(b, group - {n}, q);
      OwnedByOne(b, group, n);
      TimesLess(group, n, q);
    }
  }

  /** ... and less, if anyone carries less. */
  lemma Below(b: Book, group: set<NodeId>, q: nat, n: NodeId)
    requires Mirrored(b) && group <= b.hosts.Keys && n in group
    requires forall m :: m in group ==> Load(b, m) <= q
    requires Load(b, n) < q
    ensures |Owned(b, group)| < |group| * q
  {
    AtMost(b, group - {n}, q);
    OwnedByOne(b, group, n);
    TimesLess(group, n, q);
  }

  lemma TimesLess(group: set<NodeId>, n: NodeId, q: nat)
    requires n in group
    ensures |group| * q == |group - {n}| * q + q
  {
    assert |group| == |group - {n}| + 1;
  }

  lemma {:induction false} AtLeast(b: Book, group: set<NodeId>, q: nat)
    requires Mirrored(b) && group <= b.hosts.Keys
    requires forall n :: n in group ==> Load(b, n) >= q
    ensures |Owned(b, group)| >= |group| * q
    decreases group
  {
    if group == {} {
      assert Owned(b, group) == {};
    } else {
      var n :| n in group;
      AtLeast(b, group - {n}, q);
      OwnedByOne(b, group, n);
      TimesLess(group, n, q);
    }
  }

  lemma ReadyOwnAll(b: Book)
    requires Sound(b)
    ensures Owned(b, ReadyHosts(b)) == b.shards.Keys
  {
    forall s | s in b.shards
      ensures b.shards[s] in ReadyHosts(b)
    {
      assert b.hosts[b.shards[s]].shards != {};
    }
  }

  // ---------------------------------------------------------------------------------------------
  // Series of allocations

  /** From `b0` to `b` the statuses stayed as they are, exactly the named shards were added if any host is
      ready, none otherwise, and nothing moved. */
  ghost predicate Conserved(b0: Book, b: Book, named: set<ShardId>) {
    && ReadyHosts(b) == ReadyHosts(b0)
    && b.shards.Keys == (if ReadyHosts(b0) == {} then b0.shards.Keys else b0.shards.Keys + named)
    && forall s :: s in b0.shards ==> b.shards[s] == b0.shards[s]
  }

  lemma OneMoreConserved(b0: Book, b: Book, named: set<ShardId>, s: ShardId, b': Book)
    requires Conserved(b0, b, named) && ReadyHosts(b') == ReadyHosts(b)
    requires b'.shards.Keys == if ReadyHosts(b) == {} then b.shards.Keys else b.shards.Keys + {s}
    requires forall t :: t in b.shards ==> b'.shards[t] == b.shards[t]
    ensures Conserved(b0, b', named + {s})
  {
    if ReadyHosts(b0) != {} {
      assert b0.shards.Keys + named + {s} == b0.shards.Keys + (named + {s});
    }
    forall t | t in b0.shards
      ensures t in b'.shards && b'.shards[t] == b0.shards[t]
    {
      assert t in b.shards.Keys;
    }
  }

  lemma {:induction false} AllocationsConserved(books: seq<Book>, order: seq<ShardId>, i: nat)
    requires Allocations(books, order) && Sound(books[0]) && i <= |order|
    ensures Sound(books[i]) && Conserved(books[0], books[i], Elements(order[..i]))
    decreases i
  {
    if i == 0 {
      assert Elements(order[..0]) == {};
    } else {
      AllocationsConserved(books, order, i - 1);
      assert Allocates(books[i - 1], order[i - 1], books[i]);
      AllocatesKeepsSound(books[i - 1], order[i - 1], books[i]);
      OneMoreConserved(books[0], books[i - 1], Elements(order[..i - 1]), order[i - 1], books[i]);
      ElementsTake(order, i - 1);
    }
  }

  /** A series of allocations keeps the books sound and the statuses as they are, adds exactly the
      named shards if any host is ready and none otherwise, and moves nothing. */
  lemma AllocationsConserve(books: seq<Book>, order: seq<ShardId>, i: nat)
    requires Allocations(books, order) && Sound(books[0]) && i <= |order|
    ensures Sound(books[i]) && ReadyHosts(books[i]) == ReadyHosts(books[0])
    ensures books[i].shards.Keys
         == if ReadyHosts(books[0]) == {} then books[0].shards.Keys else books[0].shards.Keys + Elements(order[..i])
    ensures forall s :: s in books[0].shards ==> books[i].shards[s] == books[0].shards[s]
  {
    AllocationsConserved(books, order, i);
  }

  /** No two ready hosts differ by more than one shard. */
  predicate Even(b: Book) {
    forall m, n :: m in ReadyHosts(b) && n in ReadyHosts(b) ==> Load(b, m) <= Load(b, n) + 1
  }

  lemma PlaceLoad(b: Book, s: ShardId, n: NodeId, m: NodeId)
    requires Sound(b) && s !in b.shards && n in b.hosts && m in b.hosts
    ensures Load(Place(b, s, n), m) == Load(b, m) + (if m == n then 1 else 0)
  {
    assert s !in b.hosts[n].shards;
  }

  /** One shard more on ready host `n`, which had the least load, and no change elsewhere. */
  ghost predicate Grew(b: Book, b': Book, n: NodeId) {
    && ReadyHosts(b') == ReadyHosts(b) && LeastLoaded(b, n) && |b'.shards| == |b.shards| + 1
    && forall m :: m in ReadyHosts(b) ==> Load(b', m) == Load(b, m) + (if m == n then 1 else 0)
  }

  lemma AllocatesGrows(b: Book, s: ShardId, b': Book)
    requires Sound(b) && Allocates(b, s, b') && b' != b
    ensures exists n :: Grew(b, b', n)
  {
    AllocatesKeepsSound(b, s, b');
    var n :| LeastLoaded(b, n) && b' == Place(b, s, n);
    forall m | m in ReadyHosts(b)
      ensures Load(b', m) == Load(b, m) + (if m == n then 1 else 0)
    {
      PlaceLoad(b, s, n, m);
    }
    assert b'.shards.Keys == b.shards.Keys + {s};
    assert Grew(b, b', n);
  }

  lemma AllocatesKeepsEven(b: Book, s: ShardId, b': Book)
    requires Sound(b) && Allocates(b, s, b') && Even(b)
    ensures Even(b')
  {
    if b' != b {
      AllocatesGrows(b, s, b');
      var n :| Grew(b, b', n);
      GrewKeepsEven(b, b', n);
    }
  }

  lemma GrewKeepsEven(b: Book, b': Book, n: NodeId)
    requires Grew(b, b', n) && Even(b)
    ensures Even(b')
  {
  }

  /** A load spread of at most one is never lost. */
  lemma {:induction false} AllocationsKeepEven(books: seq<Book>, order: seq<ShardId>, i: nat)
    requires Allocations(books, order) && Sound(books[0]) && Even(books[0]) && i <= |order|
    ensures Even(books[i])
    decreases i
  {
    if i > 0 {
      AllocationsConserve(books, order, i - 1);
      AllocationsKeepEven(books, order, i - 1);
      assert Allocates(books[i - 1], order[i - 1], books[i]);
      AllocatesKeepsEven(books[i - 1], order[i - 1], books[i]);
    }
  }

  /** On the way to `q` or `q + 1` shards each: nobody is above `q` yet, or everybody is in range. */
  predicate Filling(b: Book, q: nat) {
    || (forall n :: n in ReadyHosts(b) ==> Load(b, n) <= q)
    || (forall n :: n in ReadyHosts(b) ==> q <= Load(b, n) <= q + 1)
  }

  lemma NotFullYet(b: Book, n: NodeId, q: nat)
    requires Sound(b) && LeastLoaded(b, n) && |b.shards| < |ReadyHosts(b)| * (q + 1)
    ensures Load(b, n) <= q
  {
    if Load(b, n) > q {
      AtLeast(b, ReadyHosts(b), q + 1);
      ReadyOwnAll(b);
    }
  }

  lemma AllocatesKeepsFilling(b: Book, s: ShardId, b': Book, q: nat)
    requires Sound(b) && Allocates(b, s, b') && Filling(b, q)
    requires |b'.shards| < |ReadyHosts(b)| * (q + 1)
    ensures Filling(b', q)
  {
    if b' != b {
      AllocatesGrows(b, s, b');
      var n :| Grew(b, b', n);
      NotFullYet(b, n, q);
      GrewKeepsFilling(b, b', n, q);
    }
  }

  lemma GrewKeepsFilling(b: Book, b': Book, n: NodeId, q: nat)
    requires Grew(b, b', n) && Filling(b, q) && Load(b, n) <= q
    ensures Filling(b', q)
  {
  }

  lemma {:induction false} AllocationsKeepFilling(books: seq<Book>, order: seq<ShardId>, i: nat, q: nat)
    requires Allocations(books, order) && Sound(books[0]) && i <= |order|
    requires Filling(books[0], q)
    requires |books[|order|].shards| < |ReadyHosts(books[0])| * (q + 1)
    ensures Filling(books[i], q)
    decreases i
  {
    if i > 0 {
      AllocationsKeepFilling(books, order, i - 1, q);
      NextKeepsFilling(books, order, i - 1, q);
    }
  }

  lemma NextKeepsFilling(books: seq<Book>, order: seq<ShardId>, k: nat, q: nat)
    requires Allocations(books, order) && Sound(books[0]) && k < |order| && Filling(books[k], q)
    requires |books[|order|].shards| < |ReadyHosts(books[0])| * (q + 1)
    ensures Filling(books[k + 1], q)
  {
    AllocationsConserve(books, order, k);
    AllocationsOnlyAdd(books, order, k + 1);
    assert Allocates(books[k], order[k], books[k + 1]);
    AllocatesKeepsFilling(books[k], order[k], books[k + 1], q);
  }

  /** At any point of a series there are no more shards than at its end. */
  lemma AllocationsOnlyAdd(books: seq<Book>, order: seq<ShardId>, i: nat)
    requires Allocations(books, order) && Sound(books[0]) && i <= |order|
    ensures |books[i].shards| <= |books[|order|].shards|
  {
    AllocationsConserve(books, order, i);
    AllocationsConserve(books, order, |order|);
    assert Elements(order[..i]) <= Elements(order[..|order|]);
    SubsetIsSmaller(books[i].shards.Keys, books[|order|].shards.Keys);
  }

  lemma SubsetIsSmaller(a: set<ShardId>, b: set<ShardId>)
    requires a <= b
    ensures |a| <= |b|
  {
    assert b == a + (b - a);
  }

  /** `q` is the whole part of `total` over `parts`. */
  predicate IsShare(q: nat, total: nat, parts: nat) {
    parts * q <= total < parts * (q + 1)
  }

  lemma ShareExists(total: nat, parts: nat)
    requires parts > 0
    ensures IsShare(total / parts, total, parts)
  {
    assert total == parts * (total / parts) + total % parts;
  }

  /** Every ready host carries `q` or `q + 1` shards. */
  predicate Within(b: Book, q: nat) {
    forall n :: n in ReadyHosts(b) ==> q <= Load(b, n) <= q + 1
  }

  /** Every ready host carries the same number of shards, up to one. */
  predicate FairlyShared(b: Book) {
    ReadyHosts(b) != {} && Within(b, |b.shards| / |ReadyHosts(b)|)
  }

  lemma FillingEndsWithin(books: seq<Book>, order: seq<ShardId>, q: nat)
    requires Allocations(books, order) && Sound(books[0])
    requires IsShare(q, |books[|order|].shards|, |ReadyHosts(books[0])|)
    requires Filling(books[0], q)
    ensures ReadyHosts(books[|order|]) == ReadyHosts(books[0]) && Within(books[|order|], q)
  {
    AllocationsConserve(books, order, |order|);
    AllocationsKeepFilling(books, order, |order|, q);
    FullIsFair(books[|order|], q);
  }

  /** If no ready host starts above its final fair share, every one of them ends up with it. */
  lemma FillingEndsFair(books: seq<Book>, order: seq<ShardId>)
    requires Allocations(books, order) && Sound(books[0]) && ReadyHosts(books[0]) != {}
    requires forall n :: n in ReadyHosts(books[0]) ==>
      Load(books[0], n) <= |books[|order|].shards| / |ReadyHosts(books[0])|
    ensures FairlyShared(books[|order|])
  {
    var q := |books[|order|].shards| / |ReadyHosts(books[0])|;
    ShareExists(|books[|order|].shards|, |ReadyHosts(books[0])|);
    FillingEndsWithin(books, order, q);
  }

  lemma FullIsFair(b: Book, q: nat)
    requires Sound(b) && Filling(b, q) && |b.shards| >= |ReadyHosts(b)| * q
    ensures Within(b, q)
  {
    ReadyOwnAll(b);
    if n :| n in ReadyHosts(b) && Load(b, n) < q {
      Below(b, ReadyHosts(b), q, n);
    }
  }

  // ---------------------------------------------------------------------------------------------
  // The coordinator's operations

  lemma Remaining(own: set<ShardId>, gone: set<ShardId>)
    ensures |own - gone| == |own| - |own * gone|
  {
    assert own == (own - gone) + (own * gone);
  }

  lemma Trims(own: set<ShardId>, gone: set<ShardId>, q: nat)
    requires |own * gone| == Excess(|own|, q)
    ensures |own - gone| == (if |own| <= q then |own| else q) && (|own| <= q ==> own !! gone)
  {
    Remaining(own, gone);
    if |own| <= q {
      assert own * gone == {};
      assert forall s :: s in own && s in gone ==> s in own * gone;
    }
  }

  /** What a full rebalance leaves: a host above the fair share keeps exactly that, and any other host keeps
      every shard it has. */
  lemma RebalanceLeaves(b: Book, gone: set<ShardId>, n: NodeId)
    requires Sound(b) && Surplus(b, gone) && n in b.hosts
    ensures
      var q := |b.shards| / |b.hosts|;
      && Load(Drop(b, gone), n) == (if Load(b, n) <= q then Load(b, n) else q)
      && (Load(b, n) <= q ==> b.hosts[n].shards !! gone)
  {
    var q := |b.shards| / |b.hosts|;
    assert Overlap(b, n, gone) == Excess(Load(b, n), q);
    Trims(b.hosts[n].shards, gone, q);
  }

  /** A rebalance takes nothing exactly when no host is above the fair share. */
  lemma RebalanceTakesNothingIff(b: Book, gone: set<ShardId>)
    requires Sound(b) && Surplus(b, gone)
    ensures gone == {} <==> forall n :: n in b.hosts ==> Load(b, n) <= |b.shards| / |b.hosts|
  {
    if gone == {} {
      forall n | n in b.hosts
        ensures Load(b, n) <= |b.shards| / |b.hosts|
      {
        RebalanceLeaves(b, gone, n);
        assert b.hosts[n].shards - gone == b.hosts[n].shards;
      }
    } else {
      var s :| s in gone;
      var n := b.shards[s];
      RebalanceLeaves(b, gone, n);
      assert s in b.hosts[n].shards;
    }
  }

  /** Fewer parts, or more to share, never makes a fair share smaller. */
  lemma ShareGrows(total: nat, parts: nat, total': nat, parts': nat)
    requires 0 < parts' <= parts && total <= total'
    ensures total / parts <= total' / parts'
  {
    var q, q' := total / parts, total' / parts';
    assert IsShare(q, total, parts) by {
      ShareExists(total, parts);
    }
    assert IsShare(q', total', parts') by {
      ShareExists(total', parts');
    }
    ShareOrder(q, total, parts, q', total', parts');
  }

  lemma ShareOrder(q: nat, total: nat, parts: nat, q': nat, total': nat, parts': nat)
    requires 0 < parts' <= parts && total <= total'
    requires IsShare(q, total, parts) && IsShare(q', total', parts')
    ensures q <= q'
  {
    MultiplyOrder(parts', parts, q);
    MultiplyCancel(parts', q, q' + 1);
  }

  lemma MultiplyOrder(a: nat, b: nat, c: nat)
    requires a <= b
    ensures a * c <= b * c && c * a <= c * b
  {
  }

  lemma MultiplyCancel(p: nat, x: nat, y: nat)
    requires p * x < p * y
    ensures x < y
  {
    if y <= x {
      MultiplyOrder(y, x, p);
    }
  }

  /** A full rebalance is fair.  Once every shard it took away has been allocated again, in any order,
      with any choice among equally loaded hosts, and with any other requests in between, each ready
      host carries its share of all the shards there are by then. */
  lemma FullRebalanceIsFair(b: Book, gone: set<ShardId>, books: seq<Book>, order: seq<ShardId>)
    requires Sound(b) && Surplus(b, gone) && ReadyHosts(b) != {}
    requires Allocations(books, order) && books[0] == Drop(b, gone)
    requires gone <= Elements(order)
    ensures FairlyShared(books[|order|])
    ensures b.shards.Keys <= books[|order|].shards.Keys
    ensures Elements(order) <= b.shards.Keys ==> books[|order|].shards.Keys == b.shards.Keys
  {
    RebalanceKeepsKeys(b, gone, books, order);
    HostsAreEnough(b);
    ShareGrows(|b.shards|, |b.hosts|, |books[|order|].shards|, |ReadyHosts(b)|);
    forall n | n in ReadyHosts(books[0])
      ensures Load(books[0], n) <= |books[|order|].shards| / |ReadyHosts(books[0])|
    {
      RebalanceLeaves(b, gone, n);
    }
    FillingEndsFair(books, order);
  }

  lemma RebalanceKeepsKeys(b: Book, gone: set<ShardId>, books: seq<Book>, order: seq<ShardId>)
    requires Sound(b) && ReadyHosts(b) != {} && gone <= Elements(order)
    requires Allocations(books, order) && books[0] == Drop(b, gone)
    ensures Sound(books[0]) && ReadyHosts(books[0]) == ReadyHosts(b)
    ensures books[|order|].shards.Keys == b.shards.Keys + Elements(order)
    ensures |b.shards| <= |books[|order|].shards|
  {
    var last := books[|order|];
    DropKeepsSound(b, gone);
    AllocationsConserve(books, order, |order|);
    ElementsTake(order, |order|);
    SubsetIsSmaller(b.shards.Keys, last.shards.Keys);
  }

  lemma HostsAreEnough(b: Book)
    ensures |ReadyHosts(b)| <= |b.hosts|
  {
    assert b.hosts.Keys == ReadyHosts(b) + (b.hosts.Keys - ReadyHosts(b));
  }

  /** Losing a node conserves shards.  With another host ready, exactly the lost node's shards move
      and none is lost; with none, exactly those become unallocated. */
  lemma NodeLossConserves(b: Book, n: NodeId, books: seq<Book>, order: seq<ShardId>)
    requires Sound(b) && n in b.hosts
    requires Allocations(books, order) && books[0] == WriteOff(b, n) && Elements(order) == b.hosts[n].shards
    ensures
      var last := books[|order|];
      && Sound(last) && n in last.hosts && last.hosts[n] == Host({}, Unavailable)
      && (ReadyHosts(b) - {n} != {} ==> last.shards.Keys == b.shards.Keys)
      && (ReadyHosts(b) - {n} == {} ==> last.shards.Keys == b.shards.Keys - b.hosts[n].shards)
      && (forall s :: s in b.shards && b.shards[s] != n ==> s in last.shards && last.shards[s] == b.shards[s])
  {
    WriteOffKeepsSound(b, n);
    AllocationsConserve(books, order, |order|);
    ElementsTake(order, |order|);
    AllocationsKeepHost(books, order, |order|, n);
    WriteOffShards(b, n);
  }

  lemma WriteOffShards(b: Book, n: NodeId)
    requires Mirrored(b) && n in b.hosts
    ensures b.hosts[n].shards <= b.shards.Keys
    ensures WriteOff(b, n).shards.Keys == b.shards.Keys - b.hosts[n].shards
    ensures forall s :: s in b.shards && b.shards[s] != n ==>
      s in WriteOff(b, n).shards && WriteOff(b, n).shards[s] == b.shards[s]
  {
  }

  /** If the hosts that remain were evenly loaded, they are so after every re-placement. */
  lemma NodeLossStaysEven(b: Book, n: NodeId, books: seq<Book>, order: seq<ShardId>, i: nat)
    requires Sound(b) && n in b.hosts && i <= |order|
    requires Allocations(books, order) && books[0] == WriteOff(b, n)
    requires forall x, y :: x in ReadyHosts(b) - {n} && y in ReadyHosts(b) - {n} ==> Load(b, x) <= Load(b, y) + 1
    ensures Even(books[i])
  {
    WriteOffKeepsSound(b, n);
    AllocationsKeepEven(books, order, i);
  }

  /** A host that is not ready is left alone. */
  lemma {:induction false} AllocationsKeepHost(books: seq<Book>, order: seq<ShardId>, i: nat, n: NodeId)
    requires Allocations(books, order) && Sound(books[0]) && i <= |order|
    requires n in books[0].hosts && n !in ReadyHosts(books[0])
    ensures n in books[i].hosts && books[i].hosts[n] == books[0].hosts[n]
    decreases i
  {
    if i > 0 {
      AllocationsKeepHost(books, order, i - 1, n);
      AllocationsConserve(books, order, i - 1);
      assert Allocates(books[i - 1], order[i - 1], books[i]);
    }
  }

  /** Replaying a journal on fresh books allocates exactly the journaled shards, each once, and
      spreads them evenly. */
  lemma ReplayIsExact(books: seq<Book>, journal: seq<ShardId>)
    requires Allocations(books, journal) && Sound(books[0]) && books[0].shards == map[]
    requires ReadyHosts(books[0]) != {}
    ensures books[|journal|].shards.Keys == Elements(journal)
    ensures FairlyShared(books[|journal|]) && Even(books[|journal|])
  {
    AllocationsConserve(books, journal, |journal|);
    ElementsTake(journal, |journal|);
    NothingOwned(books[0]);
    FreshEndsFair(books, journal);
    AllocationsKeepEven(books, journal, |journal|);
  }

  lemma FreshEndsFair(books: seq<Book>, order: seq<ShardId>)
    requires Allocations(books, order) && Sound(books[0]) && ReadyHosts(books[0]) != {}
    requires forall n :: n in ReadyHosts(books[0]) ==> Load(books[0], n) == 0
    ensures FairlyShared(books[|order|])
  {
    ShareGrows(0, |ReadyHosts(books[0])|, |books[|order|].shards|, |ReadyHosts(books[0])|);
    FillingEndsFair(books, order);
  }

  lemma NothingOwned(b: Book)
    requires Sound(b) && b.shards == map[]
    ensures forall n :: n in b.hosts ==> Load(b, n) == 0
  {
    forall n | n in b.hosts
      ensures b.hosts[n].shards == {}
    {
      assert forall s :: s in b.hosts[n].shards ==> s in b.shards;
    }
  }
}
