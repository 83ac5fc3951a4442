/** Persisting and recovering under failing storage: how often a write is attempted, and that a write
    reported as done was done exactly once. */
module PersistRetry {
  import opened Prelude
  import opened Journal
  import JournalHistory

  datatype Retry = UntilSuccess | MaxAttempts(max: nat)

  /** What the actor does when a write or a recovery fails; `ReturnErr` applies to writes only. */
  datatype Policy = Retrying(retry: Retry) | ReturnErr | StopActor | Panic

  datatype Write = OneMessage(payload: Payload) | OneBatch(payloads: seq<Payload>) | OneSnapshot(payload: Payload)

  datatype Outcome = Done | NotSerialised | StorageError | ActorStopping | Panicked

  function Written(l: Log, w: Write): Log {
    match w
    case OneMessage(p) => PersistMessage(l, p)
    case OneBatch(ps) => PersistBatch(l, ps)
    case OneSnapshot(p) => PersistSnapshot(l, p)
  }

  /** What a write adds to the stored messages, and to the stored snapshots. */
  function Adds(w: Write): (seq<Payload>, seq<Payload>) {
    match w
    case OneMessage(p) => ([p], [])
    case OneBatch(ps) => (ps, [])
    case OneSnapshot(p) => ([], [p])
  }

  /** A write stores its payloads once, at the end, in order, and changes nothing that was stored. */
  lemma WrittenOnce(l: Log, w: Write)
    ensures
      var l' := Written(l, w);
      && l.stored.messages <= l'.stored.messages && l.stored.snapshots <= l'.stored.snapshots
      && Payloads(l'.stored.messages) == Payloads(l.stored.messages) + Adds(w).0
      && Payloads(l'.stored.snapshots) == Payloads(l.stored.snapshots) + Adds(w).1
  {
    match w
    case OneMessage(p) =>
      JournalHistory.PayloadsAppend(l.stored.messages, [Entry(l.last, p)]);
      JournalHistory.PayloadsOne(Entry(l.last, p));
    case OneBatch(ps) =>
      JournalHistory.PayloadsAppend(l.stored.messages, Numbered(l.last + 1, ps));
      JournalHistory.NumberedPayloads(l.last + 1, ps);
    case OneSnapshot(p) =>
      JournalHistory.PayloadsAppend(l.stored.snapshots, [Entry(l.last + 1, p)]);
      JournalHistory.PayloadsOne(Entry(l.last + 1, p));
  }

  /** The next `n` writes all fail; the ones beyond the plan succeed. */
  predicate AllFail(faults: seq<bool>, n: nat) {
    n <= |faults| && forall i :: 0 <= i < n ==> faults[i]
  }

  /** What the policies promise of an operation that was attempted `made` times and whose success is `done`:
      a bounded retry gives up after `max(1, max)` attempts and an unbounded one never, the others try once;
      `stop` is whether the actor is told to stop. */
  predicate Bounds(policy: Policy, made: nat, done: bool, stop: bool) {
    match policy
    case Retrying(UntilSuccess) => done && !stop
    case Retrying(MaxAttempts(max)) =>
      var bound := if max == 0 then 1 else max;
      made <= bound && (!done ==> made == bound) && stop == !done
    case StopActor => made == 1 && stop == !done
    case _ => made == 1 && !stop
  }

  /** `check` with `should_retry`: whether to try again, and whether the actor is told to stop. */
  method ShouldRetry(policy: Policy, attempts: nat) returns (again: bool, stop: bool)
    requires attempts >= 1
    ensures policy == Retrying(UntilSuccess) ==> again && !stop
    ensures policy.Retrying? && policy.retry.MaxAttempts? ==> (again <==> attempts < policy.retry.max) && stop == !again
    ensures policy.StopActor? ==> !again && stop
    ensures policy.ReturnErr? || policy.Panic? ==> !again && !stop
  {
    match policy
    case Retrying(UntilSuccess) =>
      again, stop := true, false;
    case Retrying(MaxAttempts(max)) =>
      again, stop := attempts < max, attempts >= max;
    case StopActor =>
      again, stop := false, true;
    case _ =>
      again, stop := false, false;
  }

  method AttemptWrite(j: Journal, w: Write) returns (ok: bool)
    modifies j, j.storage
    ensures Attempted(ok, old(j.storage.faults), j.storage.faults) && j.storage.writes == old(j.storage.writes) + 1
    ensures ok ==> j.Became(old(j.storage.store), Written(old(j.View()), w))
    ensures !ok ==> j.View() == old(j.View()) && j.storage.store == old(j.storage.store)
  {
    match w
    case OneMessage(p) => ok := j.WriteMessage(p);
    case OneBatch(ps) => ok := j.WriteBatch(ps);
    case OneSnapshot(p) => ok := j.WriteSnapshot(p);
  }

  /** `persist`, `persist_batch` and `snapshot` share this loop; `write` is absent if the value could
      not be serialised.  A write reported as done was stored exactly once; any other outcome stored
      nothing and moved no counter.  Every attempt but the last failed, the last one failed exactly if the
      write is not done, and the policy bounds their number. */
  method Persist(j: Journal, write: Option<Write>, policy: Policy) returns (outcome: Outcome, stop: bool)
    modifies j, j.storage
    ensures outcome == Done && write != Some(OneBatch([])) ==>
      write.Some? && j.Became(old(j.storage.store), Written(old(j.View()), write.value))
    ensures outcome != Done || write == Some(OneBatch([])) ==>
      j.View() == old(j.View()) && j.storage.store == old(j.storage.store)
    ensures write.None? ==> outcome == NotSerialised && !stop && j.storage.writes == old(j.storage.writes)
    ensures write == Some(OneBatch([])) ==> outcome == Done && !stop && j.storage.writes == old(j.storage.writes)
    ensures write.Some? && write != Some(OneBatch([])) ==>
      var made, faults := j.storage.writes - old(j.storage.writes), old(j.storage.faults);
      && made >= 1 && AllFail(faults, made - 1) && (outcome == Done <==> !AllFail(faults, made))
      && Bounds(policy, made, outcome == Done, stop)
    ensures write.Some? && outcome != Done ==>
      outcome == if policy.StopActor? then ActorStopping else if policy.Panic? then Panicked else StorageError
    ensures write.Some? && write != Some(OneBatch([])) && policy.Retrying? && policy.retry.MaxAttempts? ==>
      (outcome == Done <==> !AllFail(old(j.storage.faults), if policy.retry.max == 0 then 1 else policy.retry.max))
  {
    if write.None? {
      return NotSerialised, false;
    }
    if write.value.OneBatch? && |write.value.payloads| == 0 {
      return Done, false;
    }
    ghost var made;
    outcome, stop, made := WriteUntilDone(j, write.value, policy);
    BoundDecides(policy, old(j.storage.faults), made, outcome == Done, stop);
  }

  /** The loop itself; `made` is how many writes it attempted. */
  method WriteUntilDone(j: Journal, w: Write, policy: Policy) returns (outcome: Outcome, stop: bool, ghost made: nat)
    modifies j, j.storage
    ensures outcome == Done ==> j.Became(old(j.storage.store), Written(old(j.View()), w))
    ensures outcome != Done ==> j.View() == old(j.View()) && j.storage.store == old(j.storage.store)
    ensures outcome != Done ==>
      outcome == if policy.StopActor? then ActorStopping else if policy.Panic? then Panicked else StorageError
    ensures made >= 1 && j.storage.writes == old(j.storage.writes) + made && AllFail(old(j.storage.faults), made - 1)
    ensures (outcome == Done <==> !AllFail(old(j.storage.faults), made)) && Bounds(policy, made, outcome == Done, stop)
  {
    stop := false;
    var attempts := 1;
    while true
      invariant attempts >= 1 && j.storage.writes == old(j.storage.writes) + attempts - 1 && !stop
      invariant AllFail(old(j.storage.faults), attempts - 1) && j.storage.faults == old(j.storage.faults)[attempts - 1..]
      invariant j.View() == old(j.View()) && j.storage.store == old(j.storage.store)
      invariant policy.Retrying? || attempts == 1
      invariant policy.Retrying? && policy.retry.MaxAttempts? ==> attempts == 1 || attempts <= policy.retry.max
      decreases |j.storage.faults|
    {
      var ok := AttemptWrite(j, w);
      if ok {
        return Done, false, attempts;
      }
      var again;
      again, stop := ShouldRetry(policy, attempts);
      if !again {
        outcome, made := GiveUp(policy), attempts;
        return;
      }
      attempts := attempts + 1;
    }
  }

  function GiveUp(policy: Policy): (r: Outcome)
    ensures r == if policy.StopActor? then ActorStopping else if policy.Panic? then Panicked else StorageError
  {
    match policy
    case StopActor => ActorStopping
    case Panic => Panicked
    case _ => StorageError
  }

  /** A bounded retry succeeds exactly if not all of the attempts it allows fail. */
  lemma BoundDecides(policy: Policy, faults: seq<bool>, made: nat, done: bool, stop: bool)
    requires made >= 1 && AllFail(faults, made - 1) && (done <==> !AllFail(faults, made)) && Bounds(policy, made, done, stop)
    ensures policy.Retrying? && policy.retry.MaxAttempts? ==>
      (done <==> !AllFail(faults, if policy.retry.max == 0 then 1 else policy.retry.max))
  {
  }

  datatype RecoveryOutcome = Loaded(recovery: Recovery) | Failed | RecoveryPanicked

  predicate AllAttemptsFail(plan: seq<Attempt>, n: nat) {
    n <= |plan| && forall i :: 0 <= i < n ==> !plan[i].Works?
  }

  /** `recover_journal`: every failed attempt is followed by a new journal over the same storage, so a
      recovery that is reported is the one of the stored entries, however many attempts it took and
      wherever they failed.  `made` is how many there were. */
  method RecoverJournal(id: string, types: Handlers, storage: Storage, policy: Policy, plan: seq<Attempt>)
    returns (j: Journal, outcome: RecoveryOutcome, stop: bool, made: nat)
    requires !policy.ReturnErr?
    ensures outcome.Loaded? ==>
      outcome.recovery == Recovered(storage.Of(id), types)
      && j.id == id && j.storage == storage && j.View() == Reopen(storage.Of(id))
    ensures !outcome.Loaded? ==> outcome == if policy.Panic? then RecoveryPanicked else Failed
    ensures made >= 1 && AllAttemptsFail(plan, made - 1) && (outcome.Loaded? <==> !AllAttemptsFail(plan, made))
    ensures Bounds(policy, made, outcome.Loaded?, stop)
  {
    var rest := plan;
    made := 1;
    stop := false;
    while true
      invariant made >= 1 && !stop && AllAttemptsFail(plan, made - 1) && rest == plan[made - 1..]
      invariant policy.Retrying? || made == 1
      invariant policy.Retrying? && policy.retry.MaxAttempts? ==> made == 1 || made <= policy.retry.max
      decreases |rest|
    {
      var r;
      j, r := Load(id, types, storage, if |rest| == 0 then Works else rest[0]);
      if r.Some? {
        return j, Loaded(r.value), false, made;
      }
      rest := rest[1..];
      var again;
      again, stop := ShouldRetry(policy, made);
      if !again {
        outcome := if policy.Panic? then RecoveryPanicked else Failed;
        return;
      }
      made := made + 1;
    }
  }
}
