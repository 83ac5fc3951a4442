/** The event journal of one persistent actor: how it numbers messages, batches and snapshots, what the
    in-memory storage keeps, and what recovery reads back.

    The functions over `Log` say what each operation does; the classes `Storage` and `Journal` perform
    them in place.
 */
module Journal {
  import opened Prelude

  newtype Byte = x: int | 0 <= x < 256

  /** What is persisted: the type tag that selects a recovery handler, and the serialised value. */
  datatype Payload = Payload(kind: string, bytes: seq<Byte>)

  datatype Entry = Entry(sequence: int, payload: Payload)

  datatype Stored = Stored(snapshots: seq<Entry>, messages: seq<Entry>)

  /** What storage holds for the actor, and the journal's two counters. */
  datatype Log = Log(stored: Stored, last: int, lastSnapshot: Option<int>)

  /** The type tags that an actor has recovery handlers for. */
  datatype Handlers = Handlers(snapshots: set<string>, messages: set<string>)

  datatype Recovery = Recovery(snapshot: Option<Payload>, messages: seq<Payload>)

  const EMPTY := Log(Stored([], []), 0, None)

  function Payloads(entries: seq<Entry>): seq<Payload> {
    if entries == [] then []
    else Payloads(entries[..|entries| - 1]) + [entries[|entries| - 1].payload]
  }

  /** A batch is numbered from the given sequence on. */
  function Numbered(first: int, batch: seq<Payload>): seq<Entry>
    decreases batch
  {
    if batch == [] then []
    else
      var n := |batch| - 1;
      Numbered(first, batch[..n]) + [Entry(first + n, batch[n])]
  }

  /** A single message takes the current sequence; the counter moves on afterwards. */
  function PersistMessage(l: Log, p: Payload): Log {
    l.(stored := l.stored.(messages := l.stored.messages + [Entry(l.last, p)]), last := l.last + 1)
  }

  /** A batch takes the sequences after the current one. */
  function PersistBatch(l: Log, batch: seq<Payload>): Log {
    l.(stored := l.stored.(messages := l.stored.messages + Numbered(l.last + 1, batch)), last := l.last + |batch|)
  }

  function PersistSnapshot(l: Log, p: Payload): Log {
    Log(l.stored.(snapshots := l.stored.snapshots + [Entry(l.last + 1, p)]), l.last + 1, Some(l.last + 1))
  }

  function LatestSnapshot(s: Stored): Option<Entry> {
    if s.snapshots == [] then None else Some(s.snapshots[|s.snapshots| - 1])
  }

  /** The first index from `i` on whose sequence is at least `bound`, or the length. */
  function FirstFrom(entries: seq<Entry>, bound: int, i: nat): (k: nat)
    requires i <= |entries|
    ensures i <= k <= |entries|
    ensures forall j :: i <= j < k ==> entries[j].sequence < bound
    ensures k < |entries| ==> entries[k].sequence >= bound
    decreases |entries| - i
  {
    if i == |entries| || entries[i].sequence >= bound then i else FirstFrom(entries, bound, i + 1)
  }

  /** `read_latest_messages`: everything from sequence zero, otherwise the tail that begins with the
      first entry above the given sequence. */
  function ReadLatest(s: Stored, from: int): seq<Entry> {
    if from == 0 then s.messages else s.messages[FirstFrom(s.messages, from + 1, 0)..]
  }

  /** `delete_messages_to`: keeps the tail that begins with the first entry at the given sequence or
      above it, and nothing if the newest entry is below. */
  function DeleteTo(s: Stored, to: int): Stored {
    if s.messages != [] && s.messages[|s.messages| - 1].sequence < to then
      s.(messages := [])
    else
      s.(messages := s.messages[FirstFrom(s.messages, to, 0)..])
  }

  function Compact(l: Log): Log {
    if l.lastSnapshot.Some? then l.(stored := DeleteTo(l.stored, l.lastSnapshot.value)) else l
  }

  function LastSequence(entries: seq<Entry>, otherwise: int): int {
    if entries == [] then otherwise else entries[|entries| - 1].sequence
  }

  /** The counters of a new journal over what is stored, once it has been recovered. */
  function Reopen(s: Stored): Log {
    var snapshot := LatestSnapshot(s);
    var from := if snapshot.Some? then snapshot.value.sequence else 0;
    Log(s, LastSequence(ReadLatest(s, from), from), if snapshot.Some? then Some(from) else None)
  }

  /** The payloads whose type has a recovery handler; the others are skipped. */
  function Handled(types: set<string>, payloads: seq<Payload>): seq<Payload> {
    if payloads == [] then []
    else
      var p := payloads[|payloads| - 1];
      Handled(types, payloads[..|payloads| - 1]) + (if p.kind in types then [p] else [])
  }

  /** What recovery hands to the actor. */
  function Recovered(s: Stored, types: Handlers): Recovery {
    var snapshot := LatestSnapshot(s);
    var from := if snapshot.Some? then snapshot.value.sequence else 0;
    Recovery(if snapshot.Some? && snapshot.value.payload.kind in types.snapshots then Some(snapshot.value.payload) else None,
             Handled(types.messages, Payloads(ReadLatest(s, from))))
  }

  // ---------------------------------------------------------------------------------------------

  /** In-memory storage.  `faults` says which of the coming writes fail; a failed write stores nothing. */
  class Storage {
    var store: map<string, Stored>
    var faults: seq<bool>
    var writes: nat

    constructor (faults: seq<bool>)
      ensures store == map[] && this.faults == faults && writes == 0
    {
      store, this.faults, writes := map[], faults, 0;
    }

    ghost function Of(id: string): Stored
      reads this
    {
      if id in store then store[id] else Stored([], [])
    }

    /** The outcome of the next write. */
    method Attempt() returns (ok: bool)
      modifies this`faults, this`writes
      ensures ok == (old(faults) == [] || !old(faults)[0])
      ensures faults == (if old(faults) == [] then [] else old(faults)[1..]) && writes == old(writes) + 1
    {
      ok := true;
      writes := writes + 1;
      if |faults| > 0 {
        ok := !faults[0];
        faults := faults[1..];
      }
    }

    method WriteSnapshot(id: string, e: Entry) returns (ok: bool)
      modifies this
      ensures Attempted(ok, old(faults), faults) && writes == old(writes) + 1
      ensures store == if ok then old(store)[id := old(Of(id)).(snapshots := old(Of(id)).snapshots + [e])] else old(store)
    {
      ok := Attempt();
      if ok {
        if id in store {
          store := store[id := store[id].(snapshots := store[id].snapshots + [e])];
        } else {
          assert [] + [e] == [e];
          store := store[id := Stored([e], [])];
        }
      }
    }

    method WriteMessage(id: string, e: Entry) returns (ok: bool)
      modifies this
      ensures Attempted(ok, old(faults), faults) && writes == old(writes) + 1
      ensures store == if ok then old(store)[id := old(Of(id)).(messages := old(Of(id)).messages + [e])] else old(store)
    {
      ok := Attempt();
      if ok {
        if id in store {
          store := store[id := store[id].(messages := store[id].messages + [e])];
        } else {
          assert [] + [e] == [e];
          store := store[id := Stored([], [e])];
        }
      }
    }

    method WriteBatch(id: string, es: seq<Entry>) returns (ok: bool)
      modifies this
      ensures Attempted(ok, old(faults), faults) && writes == old(writes) + 1
      ensures store == if ok then old(store)[id := old(Of(id)).(messages := old(Of(id)).messages + es)] else old(store)
    {
      ok := Attempt();
      if ok {
        if id in store {
          store := store[id := store[id].(messages := store[id].messages + es)];
        } else {
          assert [] + es == es;
          store := store[id := Stored([], es)];
        }
      }
    }

    method ReadLatestSnapshot(id: string) returns (r: Option<Entry>)
      ensures r == LatestSnapshot(Of(id))
    {
      if id in store && |store[id].snapshots| > 0 {
        r := Some(store[id].snapshots[|store[id].snapshots| - 1]);
      } else {
        r := None;
      }
    }

    /** The search of the reads and deletes: the first entry whose sequence is at least `bound`. */
    method Find(entries: seq<Entry>, bound: int) returns (index: Option<nat>)
      ensures index == if FirstFrom(entries, bound, 0) == |entries| then None else Some(FirstFrom(entries, bound, 0))
    {
      var i := 0;
      while i < |entries|
        invariant i <= |entries| && FirstFrom(entries, bound, 0) == FirstFrom(entries, bound, i)
      {
        if entries[i].sequence >= bound {
          return Some(i);
        }
        i := i + 1;
      }
      index := None;
    }

    method ReadLatestMessages(id: string, from: int) returns (r: Option<seq<Entry>>)
      ensures r.Some? <==> id in store
      ensures r.Some? ==> r.value == ReadLatest(Of(id), from)
    {
      if id !in store {
        return None;
      }
      var messages := store[id].messages;
      if from == 0 {
        return Some(messages);
      }
      var start := Find(messages, from + 1);
      r := Some(if start.Some? then messages[start.value..] else []);
    }

    method DeleteMessagesTo(id: string, to: int)
      modifies this`store
      ensures store == if id in old(store) then old(store)[id := DeleteTo(old(store)[id], to)] else old(store)
    {
      if id in store {
        var j := store[id];
        var kept := [];
        if |j.messages| == 0 || j.messages[|j.messages| - 1].sequence >= to {
          var start := Find(j.messages, to);
          kept := if start.Some? then j.messages[start.value..] else [];
        }
        store := store[id := Stored(j.snapshots, kept)];
      }
    }
  }

  /** A write succeeds unless a fault is due, and uses the fault up. */
  predicate Attempted(ok: bool, faults: seq<bool>, faults': seq<bool>) {
    && ok == (faults == [] || !faults[0])
    && faults' == if faults == [] then [] else faults[1..]
  }

  /** Numbers the entries of a batch and returns the last sequence used. */
  method Number(last: int, batch: seq<Payload>) returns (entries: seq<Entry>, sequence: int)
    ensures entries == Numbered(last + 1, batch) && sequence == last + |batch|
    ensures |entries| == |batch| && forall k :: 0 <= k < |batch| ==> entries[k] == Entry(last + 1 + k, batch[k])
  {
    sequence := last;
    entries := [];
    for i := 0 to |batch|
      invariant sequence == last + i && entries == Numbered(last + 1, batch[..i])
      invariant |entries| == i && forall k :: 0 <= k < i ==> entries[k] == Entry(last + 1 + k, batch[k])
    {
      sequence := sequence + 1;
      assert batch[..i + 1][..i] == batch[..i];
      entries := entries + [Entry(sequence, batch[i])];
    }
    assert batch[..|batch|] == batch;
  }

  /** The journal of one actor. */
  class Journal {
    const id: string
    const types: Handlers
    const storage: Storage
    var last: int
    var lastSnapshot: Option<int>

    ghost function View(): Log
      reads this, storage
    {
      Log(storage.Of(id), last, lastSnapshot)
    }

    /** The journal is as `l` says, and nobody else's entries were touched. */
    ghost predicate Became(before: map<string, Stored>, l: Log)
      reads this, storage
    {
      View() == l && storage.store == before[id := l.stored]
    }

    constructor (id: string, types: Handlers, storage: Storage)
      ensures this.id == id && this.types == types && this.storage == storage
      ensures last == 0 && lastSnapshot == None
    {
      this.id, this.types, this.storage := id, types, storage;
      last, lastSnapshot := 0, None;
    }

    method WriteMessage(p: Payload) returns (ok: bool)
      modifies this, storage
      ensures Attempted(ok, old(storage.faults), storage.faults) && storage.writes == old(storage.writes) + 1
      ensures ok ==> Became(old(storage.store), PersistMessage(old(View()), p))
      ensures !ok ==> View() == old(View()) && storage.store == old(storage.store)
    {
      ok := storage.WriteMessage(id, Entry(last, p));
      if ok {
        last := last + 1;
      }
    }

    method WriteBatch(batch: seq<Payload>) returns (ok: bool)
      modifies this, storage
      ensures Attempted(ok, old(storage.faults), storage.faults) && storage.writes == old(storage.writes) + 1
      ensures ok ==> Became(old(storage.store), PersistBatch(old(View()), batch))
      ensures !ok ==> View() == old(View()) && storage.store == old(storage.store)
    {
      var entries, sequence := Number(last, batch);
      ok := storage.WriteBatch(id, entries);
      if ok {
        last := sequence;
      }
    }

    method WriteSnapshot(p: Payload) returns (ok: bool)
      modifies this, storage
      ensures Attempted(ok, old(storage.faults), storage.faults) && storage.writes == old(storage.writes) + 1
      ensures ok ==> Became(old(storage.store), PersistSnapshot(old(View()), p))
      ensures !ok ==> View() == old(View()) && storage.store == old(storage.store)
    {
      var sequence := last + 1;
      ok := storage.WriteSnapshot(id, Entry(sequence, p));
      if ok {
        last := sequence;
        lastSnapshot := Some(sequence);
      }
    }

    method RecoverSnapshot() returns (r: Option<Payload>)
      modifies this
      ensures r == Recovered(storage.Of(id), types).snapshot
      ensures
        var snapshot := LatestSnapshot(storage.Of(id));
        && last == (if snapshot.Some? then snapshot.value.sequence else old(last))
        && lastSnapshot == (if snapshot.Some? then Some(snapshot.value.sequence) else old(lastSnapshot))
    {
      var snapshot := storage.ReadLatestSnapshot(id);
      r := None;
      if snapshot.Some? {
        last := snapshot.value.sequence;
        lastSnapshot := Some(snapshot.value.sequence);
        if snapshot.value.payload.kind in types.snapshots {
          r := Some(snapshot.value.payload);
        }
      }
    }

    method RecoverMessages() returns (r: Option<seq<Payload>>)
      modifies this`last
      ensures
        var read := ReadLatest(storage.Of(id), old(last));
        && last == LastSequence(read, old(last))
        && r == (if Handled(types.messages, Payloads(read)) == [] then None else Some(Handled(types.messages, Payloads(read))))
      ensures r.Some? ==> forall p :: p in r.value ==> p.kind in types.messages
    {
      var read := storage.ReadLatestMessages(id, last);
      if read.None? {
        return None;
      }
      var entries := read.value;
      var recoverable := [];
      for i := 0 to |entries|
        invariant last == LastSequence(entries[..i], old(last))
        invariant recoverable == Handled(types.messages, Payloads(entries[..i]))
        invariant forall p :: p in recoverable ==> p.kind in types.messages
      {
        assert entries[..i + 1][..i] == entries[..i];
        ghost var before := Payloads(entries[..i]);
        assert (before + [entries[i].payload])[..|before|] == before;
        last := entries[i].sequence;
        if entries[i].payload.kind in types.messages {
          recoverable := recoverable + [entries[i].payload];
        }
      }
      assert entries[..|entries|] == entries;
      r := if |recoverable| == 0 then None else Some(recoverable);
    }

    method ClearOldMessages() returns (cleared: bool)
      modifies storage`store
      ensures cleared == lastSnapshot.Some?
      ensures View() == Compact(old(View()))
      ensures storage.store == if lastSnapshot.Some? && id in old(storage.store)
                               then old(storage.store)[id := storage.Of(id)] else old(storage.store)
    {
      if lastSnapshot.Some? {
        storage.DeleteMessagesTo(id, lastSnapshot.value);
        cleared := true;
      } else {
        cleared := false;
      }
    }
  }

  /** What happens to one attempt to load a journal. */
  datatype Attempt = Works | SnapshotFails | MessagesFail

  /** `load_journal`: a new journal over the same storage, snapshot first and messages after it. */
  method Load(id: string, types: Handlers, storage: Storage, attempt: Attempt) returns (j: Journal, r: Option<Recovery>)
    ensures fresh(j) && j.id == id && j.types == types && j.storage == storage
    ensures attempt.Works? ==> r == Some(Recovered(storage.Of(id), types)) && j.View() == Reopen(storage.Of(id))
    ensures !attempt.Works? ==> r == None
  {
    j := new Journal(id, types, storage);
    if attempt.SnapshotFails? {
      return j, None;
    }
    var snapshot := j.RecoverSnapshot();
    if attempt.MessagesFail? {
      return j, None;
    }
    var messages := j.RecoverMessages();
    r := Some(Recovery(snapshot, if messages.Some? then messages.value else []));
  }
}
