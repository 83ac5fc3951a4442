/** What recovery returns after any history of writes, snapshots, compactions and restarts.

    The reference, `Remembered`, knows nothing of sequence numbers: it says in terms of the operations
    which events a later recovery brings back.
 */
module JournalHistory {
  import opened Prelude
  import opened Journal

  datatype Op =
    | Message(payload: Payload)
    | Batch(payloads: seq<Payload>)
    | Snapshot(payload: Payload)
    | Compaction
    | Restart

  function Apply(l: Log, op: Op): Log {
    match op
    case Message(p) => PersistMessage(l, p)
    case Batch(ps) => PersistBatch(l, ps)
    case Snapshot(p) => PersistSnapshot(l, p)
    case Compaction => Compact(l)
    case Restart => Reopen(l.stored)
  }

  function Replay(history: seq<Op>): Log {
    if history == [] then EMPTY
    else Apply(Replay(history[..|history| - 1]), history[|history| - 1])
  }

  /** The newest snapshot, the events that recovery adds to it, and whether the journal is at the
      snapshot: nothing that recovery can see has been numbered since. */
  datatype Memory = Memory(snapshot: Option<Payload>, events: seq<Payload>, atSnapshot: bool)

  function Remember(m: Memory, op: Op): Memory {
    match op
    case Message(p) => if m.atSnapshot then m.(atSnapshot := false) else m.(events := m.events + [p])
    case Batch(ps) => m.(events := m.events + ps, atSnapshot := m.atSnapshot && ps == [])
    case Snapshot(p) => Memory(Some(p), [], true)
    case Compaction => m
    case Restart => m.(atSnapshot := m.snapshot.Some? && m.events == [])
  }

  function Remembered(history: seq<Op>): Memory {
    if history == [] then Memory(None, [], false)
    else Remember(Remembered(history[..|history| - 1]), history[|history| - 1])
  }

  // ---------------------------------------------------------------------------------------------
  // Tails and filters

  ghost predicate Sorted(entries: seq<Entry>) {
    forall i, j :: 0 <= i < j < |entries| ==> entries[i].sequence <= entries[j].sequence
  }

  ghost predicate StrictlySorted(entries: seq<Entry>) {
    forall i, j :: 0 <= i < j < |entries| ==> entries[i].sequence < entries[j].sequence
  }

  /** The entries at the given sequence or above it. */
  function From(entries: seq<Entry>, bound: int): seq<Entry> {
    if entries == [] then []
    else
      var init := From(entries[..|entries| - 1], bound);
      var e := entries[|entries| - 1];
      if e.sequence >= bound then init + [e] else init
  }

  lemma {:induction false} FromAppend(a: seq<Entry>, b: seq<Entry>, bound: int)
    ensures From(a + b, bound) == From(a, bound) + From(b, bound)
  {
    if b == [] {
      assert a + b == a;
    } else {
      var init := b[..|b| - 1];
      FromAppend(a, init, bound);
      assert (a + b)[..|a + b| - 1] == a + init;
    }
  }

  lemma {:induction false} FromAll(entries: seq<Entry>, bound: int)
    requires forall i :: 0 <= i < |entries| ==> entries[i].sequence >= bound
    ensures From(entries, bound) == entries
  {
    if entries != [] {
      FromAll(entries[..|entries| - 1], bound);
    }
  }

  lemma {:induction false} FromNone(entries: seq<Entry>, bound: int)
    requires forall i :: 0 <= i < |entries| ==> entries[i].sequence < bound
    ensures From(entries, bound) == []
  {
    if entries != [] {
      FromNone(entries[..|entries| - 1], bound);
    }
  }

  lemma {:induction false} FromTwice(entries: seq<Entry>, low: int, high: int)
    requires low <= high
    ensures From(From(entries, low), high) == From(entries, high)
  {
    if entries != [] {
      FromTwice(entries[..|entries| - 1], low, high);
    }
  }

  ghost predicate Bounded(entries: seq<Entry>, low: int, high: int) {
    forall i :: 0 <= i < |entries| ==> low <= entries[i].sequence <= high
  }

  lemma SortedAppend(a: seq<Entry>, b: seq<Entry>, low: int, middle: int, high: int)
    requires Sorted(a) && Sorted(b) && Bounded(a, low, middle) && Bounded(b, middle, high) && low <= middle <= high
    ensures Sorted(a + b) && Bounded(a + b, low, high)
  {
    var ab := a + b;
    forall i, j | 0 <= i < j < |ab|
      ensures ab[i].sequence <= ab[j].sequence
    {
      if i < |a| <= j {
        assert ab[i].sequence <= middle <= ab[j].sequence;
      }
    }
  }

  lemma SortedTail(entries: seq<Entry>, k: nat, low: int, high: int)
    requires Sorted(entries) && Bounded(entries, low, high) && k <= |entries|
    ensures Sorted(entries[k..]) && Bounded(entries[k..], low, high)
  {
  }

  /** On sorted entries, searching for the first match and taking the tail is filtering. */
  lemma TailIsFilter(entries: seq<Entry>, bound: int)
    requires Sorted(entries)
    ensures entries[FirstFrom(entries, bound, 0)..] == From(entries, bound)
  {
    var k := FirstFrom(entries, bound, 0);
    SplitFilter(entries, k, bound);
  }

  lemma SplitFilter(entries: seq<Entry>, k: nat, bound: int)
    requires k <= |entries|
    requires forall i :: 0 <= i < k ==> entries[i].sequence < bound
    requires forall i :: k <= i < |entries| ==> entries[i].sequence >= bound
    ensures entries[k..] == From(entries, bound)
  {
    var head, tail := entries[..k], entries[k..];
    assert entries == head + tail;
    FromNone(head, bound);
    FromAll(tail, bound);
    FromAppend(head, tail, bound);
  }

  lemma FromKeeps(entries: seq<Entry>, bound: int, low: int, high: int)
    requires Sorted(entries) && Bounded(entries, low, high)
    ensures Sorted(From(entries, bound)) && Bounded(From(entries, bound), low, high)
  {
    TailIsFilter(entries, bound);
    SortedTail(entries, FirstFrom(entries, bound, 0), low, high);
  }

  // ---------------------------------------------------------------------------------------------
  // The counters

  /** The lowest sequence that recovery reads. */
  function Cut(s: Stored): int {
    if s.snapshots == [] then 0 else s.snapshots[|s.snapshots| - 1].sequence + 1
  }

  /** Message sequences never decrease, snapshot sequences strictly increase, the counter bounds them
      all, and the journal knows its newest snapshot. */
  ghost predicate Ordered(l: Log) {
    && l.last >= 0
    && Sorted(l.stored.messages) && Bounded(l.stored.messages, 0, l.last)
    && StrictlySorted(l.stored.snapshots) && Bounded(l.stored.snapshots, 1, l.last)
    && l.lastSnapshot == (if l.stored.snapshots == [] then None else Some(Cut(l.stored) - 1))
  }

  lemma ReadIsFilter(l: Log)
    requires Ordered(l)
    ensures
      var from := if LatestSnapshot(l.stored).Some? then LatestSnapshot(l.stored).value.sequence else 0;
      ReadLatest(l.stored, from) == From(l.stored.messages, Cut(l.stored))
  {
    if l.stored.snapshots == [] {
      FromAll(l.stored.messages, 0);
    } else {
      TailIsFilter(l.stored.messages, Cut(l.stored));
    }
  }

  lemma DeleteIsFilter(l: Log)
    requires Ordered(l) && l.lastSnapshot.Some?
    ensures DeleteTo(l.stored, l.lastSnapshot.value).messages == From(l.stored.messages, l.lastSnapshot.value)
  {
    var messages, to := l.stored.messages, l.lastSnapshot.value;
    TailIsFilter(messages, to);
    if messages != [] && messages[|messages| - 1].sequence < to {
      FromNone(messages, to);
    }
  }

  /** The log agrees with the reference: it holds the snapshot, its readable tail is the remembered
      events, and it is at the snapshot when the counter says so. */
  ghost predicate Agrees(l: Log, m: Memory) {
    Ordered(l) && Reads(l, m)
  }

  ghost predicate Reads(l: Log, m: Memory) {
    && m.snapshot == (if l.stored.snapshots == [] then None else Some(l.stored.snapshots[|l.stored.snapshots| - 1].payload))
    && Payloads(From(l.stored.messages, Cut(l.stored))) == m.events
    && (m.atSnapshot <==> l.stored.snapshots != [] && l.last == Cut(l.stored) - 1)
  }

  lemma {:induction false} PayloadsAppend(a: seq<Entry>, b: seq<Entry>)
    ensures Payloads(a + b) == Payloads(a) + Payloads(b)
  {
    if b == [] {
      assert a + b == a;
    } else {
      var init := b[..|b| - 1];
      PayloadsAppend(a, init);
      assert (a + b)[..|a + b| - 1] == a + init;
    }
  }

  lemma CutBound(l: Log)
    requires Ordered(l)
    ensures Cut(l.stored) <= l.last + 1
    ensures l.stored.snapshots == [] ==> Cut(l.stored) <= l.last
  {
  }

  /** More messages, numbered from the counter on. */
  lemma AppendOrdered(l: Log, es: seq<Entry>, last: int)
    requires Ordered(l) && l.last <= last && Sorted(es) && Bounded(es, l.last, last)
    ensures Ordered(l.(stored := l.stored.(messages := l.stored.messages + es), last := last))
  {
    SortedAppend(l.stored.messages, es, 0, l.last, last);
  }

  /** Recovery reads the new messages that are not below the cut, after the ones it read before. */
  lemma AppendReads(l: Log, es: seq<Entry>)
    ensures Payloads(From(l.stored.messages + es, Cut(l.stored)))
         == Payloads(From(l.stored.messages, Cut(l.stored))) + Payloads(From(es, Cut(l.stored)))
  {
    FromAppend(l.stored.messages, es, Cut(l.stored));
    PayloadsAppend(From(l.stored.messages, Cut(l.stored)), From(es, Cut(l.stored)));
  }

  lemma FromOne(e: Entry, bound: int)
    ensures From([e], bound) == if e.sequence >= bound then [e] else []
  {
    assert [e][..0] == [];
  }

  /** The log with more messages and a higher counter. */
  function Grown(l: Log, es: seq<Entry>, step: nat): (l': Log)
    ensures l'.stored.snapshots == l.stored.snapshots && Cut(l'.stored) == Cut(l.stored)
    ensures l'.last == l.last + step && l'.stored.messages == l.stored.messages + es
  {
    l.(stored := l.stored.(messages := l.stored.messages + es), last := l.last + step)
  }

  /** The same in terms of the reference, which leaves the snapshot when the counter moves. */
  lemma GrownReads(l: Log, m: Memory, es: seq<Entry>, step: nat)
    requires Reads(l, m) && Cut(l.stored) - 1 <= l.last
    ensures Reads(Grown(l, es, step),
                  m.(events := m.events + Payloads(From(es, Cut(l.stored))), atSnapshot := m.atSnapshot && step == 0))
  {
    AppendReads(l, es);
    var l' := Grown(l, es, step);
    assert l'.stored.snapshots == l.stored.snapshots && Cut(l'.stored) == Cut(l.stored);
  }

  lemma MessageReads(l: Log, m: Memory, p: Payload)
    requires Reads(l, m) && Cut(l.stored) - 1 <= l.last && (l.stored.snapshots == [] ==> l.last >= 0)
    ensures Reads(PersistMessage(l, p), Remember(m, Message(p)))
  {
    var e := Entry(l.last, p);
    GrownReads(l, m, [e], 1);
    FromOne(e, Cut(l.stored));
    PayloadsOne(e);
    assert m.events + Payloads([]) == m.events;
    assert PersistMessage(l, p) == Grown(l, [e], 1);
  }

  lemma MessageOrdered(l: Log, p: Payload)
    requires Ordered(l)
    ensures Ordered(PersistMessage(l, p))
  {
    AppendOrdered(l, [Entry(l.last, p)], l.last + 1);
  }

  lemma MessageAgrees(l: Log, m: Memory, p: Payload)
    requires Agrees(l, m)
    ensures Agrees(PersistMessage(l, p), Remember(m, Message(p)))
  {
    assert Ordered(PersistMessage(l, p)) by {
      MessageOrdered(l, p);
    }
    assert Reads(PersistMessage(l, p), Remember(m, Message(p))) by {
      CutBound(l);
      MessageReads(l, m, p);
    }
  }

  lemma PayloadsOne(e: Entry)
    ensures Payloads([e]) == [e.payload]
  {
    assert [e][..0] == [];
  }

  lemma BatchReads(l: Log, m: Memory, ps: seq<Payload>)
    requires Reads(l, m) && Cut(l.stored) - 1 <= l.last
    ensures Reads(PersistBatch(l, ps), Remember(m, Batch(ps)))
  {
    var es := Numbered(l.last + 1, ps);
    NumberedAbove(l.last + 1, ps, Cut(l.stored));
    GrownReads(l, m, es, |ps|);
    assert PersistBatch(l, ps) == Grown(l, es, |ps|);
  }

  lemma BatchOrdered(l: Log, ps: seq<Payload>)
    requires Ordered(l)
    ensures Ordered(PersistBatch(l, ps))
  {
    NumberedOrdered(l.last + 1, ps);
    AppendOrdered(l, Numbered(l.last + 1, ps), l.last + |ps|);
  }

  lemma BatchAgrees(l: Log, m: Memory, ps: seq<Payload>)
    requires Agrees(l, m)
    ensures Agrees(PersistBatch(l, ps), Remember(m, Batch(ps)))
  {
    assert Ordered(PersistBatch(l, ps)) by {
      BatchOrdered(l, ps);
    }
    assert Reads(PersistBatch(l, ps), Remember(m, Batch(ps))) by {
      CutBound(l);
      BatchReads(l, m, ps);
    }
  }

  /** Every payload of a batch has the sequence after its predecessor's. */
  lemma {:induction false} NumberedConsecutively(first: int, ps: seq<Payload>, k: nat)
    requires k < |ps|
    ensures |Numbered(first, ps)| == |ps| && Numbered(first, ps)[k] == Entry(first + k, ps[k])
    decreases ps
  {
    var n := |ps| - 1;
    NumberedLength(first, ps[..n]);
    if k < n {
      NumberedConsecutively(first, ps[..n], k);
    }
  }

  lemma {:induction false} NumberedLength(first: int, ps: seq<Payload>)
    ensures |Numbered(first, ps)| == |ps|
    decreases ps
  {
    if ps != [] {
      NumberedLength(first, ps[..|ps| - 1]);
    }
  }

  lemma {:induction false} NumberedPayloads(first: int, ps: seq<Payload>)
    ensures Payloads(Numbered(first, ps)) == ps
    decreases ps
  {
    if ps != [] {
      var n := |ps| - 1;
      var init, e := Numbered(first, ps[..n]), Entry(first + n, ps[n]);
      NumberedPayloads(first, ps[..n]);
      PayloadsAppend(init, [e]);
      PayloadsOne(e);
      assert ps == ps[..n] + [ps[n]];
    }
  }

  lemma NumberedAbove(first: int, ps: seq<Payload>, bound: int)
    requires bound <= first
    ensures |Numbered(first, ps)| == |ps|
    ensures From(Numbered(first, ps), bound) == Numbered(first, ps)
    ensures Payloads(Numbered(first, ps)) == ps
  {
    NumberedPayloads(first, ps);
    NumberedOrdered(first, ps);
    FromAll(Numbered(first, ps), bound);
  }

  lemma {:induction false} NumberedOrdered(first: int, ps: seq<Payload>)
    ensures |Numbered(first, ps)| == |ps|
    ensures Sorted(Numbered(first, ps)) && Bounded(Numbered(first, ps), first, first - 1 + |ps|)
    decreases ps
  {
    if ps != [] {
      var n := |ps| - 1;
      NumberedOrdered(first, ps[..n]);
      if n > 0 {
        SortedAppend(Numbered(first, ps[..n]), [Entry(first + n, ps[n])], first, first + n - 1, first + n);
      }
    }
  }

  lemma SnapshotOrdered(l: Log, p: Payload)
    requires Ordered(l)
    ensures Ordered(PersistSnapshot(l, p))
  {
    var before, after := l.stored.snapshots, PersistSnapshot(l, p).stored.snapshots;
    assert after == before + [Entry(l.last + 1, p)];
    assert forall i :: 0 <= i < |before| ==> after[i] == before[i] && before[i].sequence <= l.last;
  }

  lemma SnapshotReads(l: Log, m: Memory, p: Payload)
    requires Bounded(l.stored.messages, 0, l.last)
    ensures Reads(PersistSnapshot(l, p), Remember(m, Snapshot(p)))
  {
    FromNone(l.stored.messages, l.last + 2);
  }

  lemma SnapshotAgrees(l: Log, m: Memory, p: Payload)
    requires Agrees(l, m)
    ensures Agrees(PersistSnapshot(l, p), Remember(m, Snapshot(p)))
  {
    assert Ordered(PersistSnapshot(l, p)) by {
      SnapshotOrdered(l, p);
    }
    SnapshotReads(l, m, p);
  }

  lemma CompactionReads(l: Log, m: Memory, kept: seq<Entry>)
    requires Reads(l, m) && l.stored.snapshots != [] && kept == From(l.stored.messages, Cut(l.stored) - 1)
    ensures Reads(l.(stored := l.stored.(messages := kept)), m)
  {
    FromTwice(l.stored.messages, Cut(l.stored) - 1, Cut(l.stored));
  }

  lemma CompactionKeeps(l: Log)
    requires Ordered(l) && l.lastSnapshot.Some?
    ensures Compact(l) == l.(stored := l.stored.(messages := From(l.stored.messages, Cut(l.stored) - 1)))
  {
    DeleteIsFilter(l);
  }

  lemma CompactionOrdered(l: Log, kept: seq<Entry>)
    requires Ordered(l) && kept == From(l.stored.messages, Cut(l.stored) - 1)
    ensures Ordered(l.(stored := l.stored.(messages := kept)))
  {
    FromKeeps(l.stored.messages, Cut(l.stored) - 1, 0, l.last);
  }

  lemma CompactionAgrees(l: Log, m: Memory)
    requires Agrees(l, m)
    ensures Agrees(Compact(l), m)
  {
    if l.lastSnapshot.Some? {
      var kept := From(l.stored.messages, Cut(l.stored) - 1);
      CompactionKeeps(l);
      assert Ordered(Compact(l)) by {
        CompactionOrdered(l, kept);
      }
      assert Reads(Compact(l), m) by {
        CompactionReads(l, m, kept);
      }
    }
  }

  lemma RestartAgrees(l: Log, m: Memory)
    requires Agrees(l, m)
    ensures Agrees(Reopen(l.stored), Remember(m, Restart))
  {
    ReadIsFilter(l);
    ReopenLast(l);
  }

  /** The recovered counter: the newest sequence stored, which bounds every other. */
  lemma ReopenLast(l: Log)
    requires Ordered(l)
    ensures
      var l', tail := Reopen(l.stored), From(l.stored.messages, Cut(l.stored));
      && Ordered(l')
      && (tail == [] ==> l'.last == if l.stored.snapshots == [] then 0 else Cut(l.stored) - 1)
      && (tail != [] ==> l'.last >= Cut(l.stored))
  {
    var messages, cut, last := l.stored.messages, Cut(l.stored), Reopen(l.stored).last;
    var k := FirstFrom(messages, cut, 0);
    ReopenCounts(l);
    ReopenBounds(messages, cut, k, l.last, last);
    assert From(messages, cut) == messages[k..] by {
      TailIsFilter(messages, cut);
    }
    ReopenOrdered(l);
  }

  lemma ReopenOrdered(l: Log)
    requires Ordered(l)
    ensures Ordered(Reopen(l.stored))
  {
    var messages, cut, l' := l.stored.messages, Cut(l.stored), Reopen(l.stored);
    ReopenCounts(l);
    ReopenBounds(messages, cut, FirstFrom(messages, cut, 0), l.last, l'.last);
    assert l'.last >= cut - 1 && l'.last >= 0;
    SnapshotBounds(l, l'.last);
  }

  lemma TailEnd(entries: seq<Entry>, k: nat, otherwise: int)
    requires k <= |entries|
    ensures LastSequence(entries[k..], otherwise) == if k == |entries| then otherwise else entries[|entries| - 1].sequence
  {
  }

  /** What recovery reads is the tail from the cut on. */
  lemma ReadIsTail(l: Log)
    requires Ordered(l)
    ensures
      var from := if LatestSnapshot(l.stored).Some? then LatestSnapshot(l.stored).value.sequence else 0;
      ReadLatest(l.stored, from) == l.stored.messages[FirstFrom(l.stored.messages, Cut(l.stored), 0)..]
  {
    ReadIsFilter(l);
    TailIsFilter(l.stored.messages, Cut(l.stored));
  }

  lemma ReopenCounts(l: Log)
    requires Ordered(l)
    ensures
      var l', k := Reopen(l.stored), FirstFrom(l.stored.messages, Cut(l.stored), 0);
      && l'.stored == l.stored && l'.lastSnapshot == l.lastSnapshot
      && l'.last == if k == |l.stored.messages| then (if Cut(l.stored) == 0 then 0 else Cut(l.stored) - 1)
                    else l.stored.messages[|l.stored.messages| - 1].sequence
  {
    var from := if LatestSnapshot(l.stored).Some? then LatestSnapshot(l.stored).value.sequence else 0;
    assert from == if Cut(l.stored) == 0 then 0 else Cut(l.stored) - 1;
    ReadIsTail(l);
    TailEnd(l.stored.messages, FirstFrom(l.stored.messages, Cut(l.stored), 0), from);
  }

  lemma ReopenBounds(messages: seq<Entry>, cut: int, k: nat, last: int, last': int)
    requires Sorted(messages) && Bounded(messages, 0, last) && k <= |messages|
    requires forall i :: 0 <= i < k ==> messages[i].sequence < cut
    requires k < |messages| ==> messages[k].sequence >= cut
    requires last' == if k == |messages| then (if cut == 0 then 0 else cut - 1) else messages[|messages| - 1].sequence
    ensures Bounded(messages, 0, last') && (k < |messages| ==> last' >= cut)
  {
  }

  lemma SnapshotBounds(l: Log, last: int)
    requires Ordered(l) && last >= Cut(l.stored) - 1
    ensures Bounded(l.stored.snapshots, 1, last)
  {
  }

  lemma {:induction false} ReplayAgrees(history: seq<Op>)
    ensures Agrees(Replay(history), Remembered(history))
  {
    if history != [] {
      var init, op := history[..|history| - 1], history[|history| - 1];
      ReplayAgrees(init);
      var l, m := Replay(init), Remembered(init);
      match op
      case Message(p) => MessageAgrees(l, m, p);
      case Batch(ps) => BatchAgrees(l, m, ps);
      case Snapshot(p) => SnapshotAgrees(l, m, p);
      case Compaction => CompactionAgrees(l, m);
      case Restart => RestartAgrees(l, m);
    }
  }

  // ---------------------------------------------------------------------------------------------
  // What every history guarantees

  /** Across any history, message sequences never decrease, snapshot sequences strictly increase and the
      counter bounds them all; so the searches of reads and deletes are filters by sequence. */
  lemma SequencesStayOrdered(history: seq<Op>)
    ensures Ordered(Replay(history))
    ensures
      var l := Replay(history);
      forall bound :: l.stored.messages[FirstFrom(l.stored.messages, bound, 0)..] == From(l.stored.messages, bound)
  {
    ReplayAgrees(history);
    var l := Replay(history);
    forall bound
      ensures l.stored.messages[FirstFrom(l.stored.messages, bound, 0)..] == From(l.stored.messages, bound)
    {
      TailIsFilter(l.stored.messages, bound);
    }
  }

  /** Recovery after any history returns the newest snapshot and exactly the remembered events, in
      order: all of them except single messages written while the journal was at the snapshot. */
  lemma RecoveryIsExact(history: seq<Op>, types: Handlers)
    ensures
      var r, m := Recovered(Replay(history).stored, types), Remembered(history);
      && r.messages == Handled(types.messages, m.events)
      && r.snapshot == (if m.snapshot.Some? && m.snapshot.value.kind in types.snapshots then m.snapshot else None)
  {
    ReplayAgrees(history);
    RecoveredReads(Replay(history), Remembered(history), types);
  }

  lemma RecoveredReads(l: Log, m: Memory, types: Handlers)
    requires Agrees(l, m)
    ensures
      var r := Recovered(l.stored, types);
      && r.messages == Handled(types.messages, m.events)
      && r.snapshot == (if m.snapshot.Some? && m.snapshot.value.kind in types.snapshots then m.snapshot else None)
  {
    ReadIsFilter(l);
    FilteredReads(l, m, types);
  }

  lemma FilteredReads(l: Log, m: Memory, types: Handlers)
    requires Reads(l, m)
    requires
      var from := if LatestSnapshot(l.stored).Some? then LatestSnapshot(l.stored).value.sequence else 0;
      ReadLatest(l.stored, from) == From(l.stored.messages, Cut(l.stored))
    ensures
      var r := Recovered(l.stored, types);
      && r.messages == Handled(types.messages, m.events)
      && r.snapshot == (if m.snapshot.Some? && m.snapshot.value.kind in types.snapshots then m.snapshot else None)
  {
  }

  /** Every event written since the newest snapshot. */
  function Written(history: seq<Op>): seq<Payload> {
    if history == [] then []
    else
      var init := Written(history[..|history| - 1]);
      match history[|history| - 1]
      case Message(p) => init + [p]
      case Batch(ps) => init + ps
      case Snapshot(_) => []
      case _ => init
  }

  /** Since the newest snapshot, no single message was written while the journal was at it. */
  predicate Careful(history: seq<Op>) {
    if history == [] then true
    else
      var init, op := history[..|history| - 1], history[|history| - 1];
      op.Snapshot? || (Careful(init) && !(op.Message? && Remembered(init).atSnapshot))
  }

  lemma {:induction false} RememberedLength(history: seq<Op>)
    ensures |Remembered(history).events| <= |Written(history)|
    ensures Careful(history) ==> Remembered(history).events == Written(history)
    ensures !Careful(history) ==> |Remembered(history).events| < |Written(history)|
  {
    if history != [] {
      RememberedLength(history[..|history| - 1]);
    }
  }

  /** Recovery by an actor that handles every type brings back all that was written since the newest
      snapshot if and only if the history was careful. */
  lemma CompleteIffCareful(history: seq<Op>, types: Handlers)
    requires forall p :: p in Written(history) ==> p.kind in types.messages
    ensures Recovered(Replay(history).stored, types).messages == Written(history) <==> Careful(history)
  {
    RecoveryIsExact(history, types);
    RememberedLength(history);
    HandledLength(types.messages, Remembered(history).events);
    if Careful(history) {
      HandledAll(types.messages, Written(history));
    }
  }

  lemma {:induction false} HandledLength(types: set<string>, ps: seq<Payload>)
    ensures |Handled(types, ps)| <= |ps|
  {
    if ps != [] {
      HandledLength(types, ps[..|ps| - 1]);
    }
  }

  lemma {:induction false} HandledAll(types: set<string>, ps: seq<Payload>)
    requires forall i :: 0 <= i < |ps| ==> ps[i].kind in types
    ensures Handled(types, ps) == ps
  {
    if ps != [] {
      var n := |ps| - 1;
      HandledAll(types, ps[..n]);
      assert ps == ps[..n] + [ps[n]];
    }
  }

  lemma {:induction false} HandledAppend(types: set<string>, a: seq<Payload>, b: seq<Payload>)
    ensures Handled(types, a + b) == Handled(types, a) + Handled(types, b)
  {
    if b == [] {
      assert a + b == a && Handled(types, a) + [] == Handled(types, a);
    } else {
      var n := |b| - 1;
      HandledAppend(types, a, b[..n]);
      assert (a + b)[..|a + b| - 1] == a + b[..n];
    }
  }

  /** Exactly the payloads with a handler are kept, as often as they occur, whatever else is in between. */
  lemma {:induction false} HandledExactly(types: set<string>, ps: seq<Payload>, p: Payload)
    ensures multiset(Handled(types, ps))[p] == if p.kind in types then multiset(ps)[p] else 0
  {
    if ps != [] {
      var n := |ps| - 1;
      HandledExactly(types, ps[..n], p);
      assert ps == ps[..n] + [ps[n]];
    }
  }

  /** Over every history, whatever is recovered has a handler, and every remembered event that has one is
      recovered, as often as it was written. */
  lemma OnlyHandledIsRecovered(history: seq<Op>, types: Handlers, p: Payload)
    ensures multiset(Recovered(Replay(history).stored, types).messages)[p]
         == if p.kind in types.messages then multiset(Remembered(history).events)[p] else 0
  {
    RecoveryIsExact(history, types);
    HandledExactly(types.messages, Remembered(history).events, p);
  }

  lemma {:induction false} BatchesAreCareful(history: seq<Op>)
    requires forall i :: 0 <= i < |history| ==> !history[i].Message?
    ensures Careful(history)
  {
    if history != [] {
      BatchesAreCareful(history[..|history| - 1]);
    }
  }

  /** Histories of batches and snapshots are recovered completely, across any number of restarts and
      compactions. */
  lemma BatchesAreRecovered(history: seq<Op>, types: Handlers)
    requires forall i :: 0 <= i < |history| ==> !history[i].Message?
    requires forall p :: p in Written(history) ==> p.kind in types.messages
    ensures Recovered(Replay(history).stored, types).messages == Written(history)
  {
    BatchesAreCareful(history);
    CompleteIffCareful(history, types);
  }

  lemma {:induction false} SnapshotFreeIsCareful(history: seq<Op>)
    requires forall i :: 0 <= i < |history| ==> !history[i].Snapshot?
    ensures Careful(history) && Remembered(history).snapshot == None && !Remembered(history).atSnapshot
  {
    if history != [] {
      SnapshotFreeIsCareful(history[..|history| - 1]);
    }
  }

  /** So are histories without snapshots, single messages included: all that was ever written comes back, in
      order, although sequences repeat after a restart. */
  lemma SnapshotFreeIsRecovered(history: seq<Op>, types: Handlers)
    requires forall i :: 0 <= i < |history| ==> !history[i].Snapshot?
    requires forall p :: p in Written(history) ==> p.kind in types.messages
    ensures Recovered(Replay(history).stored, types) == Recovery(None, Written(history))
  {
    SnapshotFreeIsCareful(history);
    CompleteIffCareful(history, types);
    RecoveryIsExact(history, types);
  }

  /** The shortest history that loses an event, whoever recovers it. */
  lemma MessageAfterSnapshotIsLost(snapshot: Payload, event: Payload, types: Handlers)
    ensures Recovered(Replay([Snapshot(snapshot), Message(event)]).stored, types).messages == []
    ensures !Careful([Snapshot(snapshot), Message(event)])
  {
    var first := [Snapshot(snapshot)];
    var history := first + [Message(event)];
    assert history == [Snapshot(snapshot), Message(event)];
    assert history[..1] == first && first[..0] == [];
    assert Remembered(first) == Memory(Some(snapshot), [], true);
    assert Remembered(history) == Memory(Some(snapshot), [], false);
    RecoveryIsExact(history, types);
  }

  // ---------------------------------------------------------------------------------------------
  // Compaction

  function WithoutCompaction(history: seq<Op>): seq<Op> {
    if history == [] then []
    else
      var init, op := WithoutCompaction(history[..|history| - 1]), history[|history| - 1];
      if op.Compaction? then init else init + [op]
  }

  lemma {:induction false} CompactionForgotten(history: seq<Op>)
    ensures Remembered(WithoutCompaction(history)) == Remembered(history)
  {
    if history != [] {
      var init, op := history[..|history| - 1], history[|history| - 1];
      CompactionForgotten(init);
      if !op.Compaction? {
        var kept := WithoutCompaction(init);
        assert (kept + [op])[..|kept + [op]| - 1] == kept;
      }
    }
  }

  /** Compaction is invisible: taking every compaction out of a history changes no recovery. */
  lemma CompactionIsInvisible(history: seq<Op>, types: Handlers)
    ensures Recovered(Replay(history).stored, types) == Recovered(Replay(WithoutCompaction(history)).stored, types)
  {
    CompactionForgotten(history);
    RecoveryIsExact(history, types);
    RecoveryIsExact(WithoutCompaction(history), types);
  }

  /** And it does its work: right after it, no message below the newest snapshot is stored, and no other
      message is gone. */
  lemma CompactionClears(history: seq<Op>)
    ensures
      var l, l' := Replay(history), Replay(history + [Compaction]);
      && (l.lastSnapshot.None? ==> l' == l)
      && (l.lastSnapshot.Some? ==>
            l' == l.(stored := l.stored.(messages := From(l.stored.messages, l.lastSnapshot.value))))
  {
    assert (history + [Compaction])[..|history|] == history;
    SequencesStayOrdered(history);
    var l := Replay(history);
    if l.lastSnapshot.Some? {
      CompactionKeeps(l);
    }
  }
}
