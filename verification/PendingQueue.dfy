/** What the attestation queue keeps (packages/middleware/src/attestation-queue.ts and
    attestation-queue-file.ts): one function per operation on the live entries, in insertion
    order, and on the whole dead-letter history. The retained log is the newest part of that
    history and the running total is its length; the class is in `AttestationQueues`. */
module PendingQueue {
  import opened Basics
  import opened ChainLedger

  datatype Entry = Entry(
    paymentTxHash: TxHash, serviceId: nat, nonce: nat, payer: Account, success: bool,
    enqueuedAt: int, attempts: nat, lastError: string)

  datatype Reason =
    | TerminalFailure(error: string)
    | GaveUp(afterAttempts: nat, error: string)
    | PrunedByAge(ageMs: int)

  datatype DeadLetter = DeadLetter(entry: Entry, deadLetteredAt: int, reason: Reason)

  datatype Options = Options(maxAttempts: int, maxAgeMs: int, maxDeadLetters: int) {
    predicate Positive() {
      maxAttempts >= 1 && maxAgeMs > 0 && maxDeadLetters >= 1
    }
  }

  const DEFAULT_OPTIONS := Options(12, 7 * 24 * 60 * 60 * 1000, 200)
  const MAX_ERROR_LENGTH: nat := 500

  /** Live entries, and every dead letter there ever was, newest last. */
  datatype Queue = Queue(items: seq<Entry>, dead: seq<DeadLetter>)

  const EMPTY := Queue([], [])

  function Keys(items: seq<Entry>): set<TxHash> {
    set e | e in items :: e.paymentTxHash
  }

  function DeadKeys(dead: seq<DeadLetter>): set<TxHash> {
    set d | d in dead :: d.entry.paymentTxHash
  }

  ghost predicate Unique(items: seq<Entry>) {
    forall i, j :: 0 <= i < j < |items| ==> items[i].paymentTxHash != items[j].paymentTxHash
  }

  function Find(items: seq<Entry>, txHash: TxHash): (found: Option<Entry>)
    ensures found.Some? ==> found.value in items && found.value.paymentTxHash == txHash
    ensures found.None? <==> txHash !in Keys(items)
  {
    if items == [] then None
    else if items[0].paymentTxHash == txHash then Some(items[0])
    else Find(items[1..], txHash)
  }

  /** Replaces the entry with the same key where it stands, or appends. */
  function SetItem(items: seq<Entry>, entry: Entry): (r: seq<Entry>)
    ensures Find(r, entry.paymentTxHash) == Some(entry)
    ensures forall other :: other != entry.paymentTxHash ==> Find(r, other) == Find(items, other)
  {
    if items == [] then [entry]
    else if items[0].paymentTxHash == entry.paymentTxHash then [entry] + items[1..]
    else [items[0]] + SetItem(items[1..], entry)
  }

  lemma {:induction false} SetItemKeys(items: seq<Entry>, entry: Entry)
    ensures Keys(SetItem(items, entry)) == Keys(items) + {entry.paymentTxHash}
    ensures |SetItem(items, entry)| == if entry.paymentTxHash in Keys(items) then |items| else |items| + 1
  {
    if items != [] {
      assert items == [items[0]] + items[1..];
      if items[0].paymentTxHash != entry.paymentTxHash {
        SetItemKeys(items[1..], entry);
        var rest := SetItem(items[1..], entry);
        assert Keys([items[0]] + rest) == {items[0].paymentTxHash} + Keys(rest);
      }
    }
  }

  /** A replaced entry keeps its place in the queue, and a new one goes last. */
  lemma {:induction false} SetsInPlace(items: seq<Entry>, entry: Entry, i: nat)
    requires Unique(items) && i < |items|
    ensures var r := SetItem(items, entry);
            && |r| >= |items|
            && r[i] == (if items[i].paymentTxHash == entry.paymentTxHash then entry else items[i])
            && (entry.paymentTxHash !in Keys(items) ==> r == items + [entry])
  {
    assert items == [items[0]] + items[1..];
    if items[0].paymentTxHash != entry.paymentTxHash {
      TailUnique(items[0], items[1..]);
      if i > 0 {
        SetsInPlace(items[1..], entry, i - 1);
      } else if |items| > 1 {
        SetsInPlace(items[1..], entry, 0);
      }
    }
  }

  function Drop(items: seq<Entry>, txHash: TxHash): (r: seq<Entry>)
    ensures forall e :: e in r <==> e in items && e.paymentTxHash != txHash
    ensures |r| <= |items| && (txHash !in Keys(items) ==> r == items)
  {
    if items == [] then []
    else if items[0].paymentTxHash == txHash then Drop(items[1..], txHash)
    else [items[0]] + Drop(items[1..], txHash)
  }

  predicate Expired(entry: Entry, now: int, opts: Options) {
    entry.enqueuedAt <= now - opts.maxAgeMs
  }

  function Survivors(items: seq<Entry>, now: int, opts: Options): seq<Entry> {
    if items == [] then []
    else (if Expired(items[0], now, opts) then [] else [items[0]]) + Survivors(items[1..], now, opts)
  }

  function AgedOut(items: seq<Entry>, now: int, opts: Options): seq<DeadLetter> {
    if items == [] then []
    else
      (if Expired(items[0], now, opts) then [DeadLetter(items[0], now, PrunedByAge(now - items[0].enqueuedAt))] else [])
      + AgedOut(items[1..], now, opts)
  }

  /** Pruning parts the entries: the young ones stay, and each of the others gets a letter. */
  lemma {:induction false} PruneParts(items: seq<Entry>, now: int, opts: Options)
    ensures forall e :: e in Survivors(items, now, opts) <==> e in items && !Expired(e, now, opts)
    ensures forall d :: d in AgedOut(items, now, opts) ==> d.entry in items && Expired(d.entry, now, opts)
    ensures forall d :: d in AgedOut(items, now, opts) ==>
              d.deadLetteredAt == now && d.reason == PrunedByAge(now - d.entry.enqueuedAt)
    ensures forall e :: e in items && Expired(e, now, opts) ==> e.paymentTxHash in DeadKeys(AgedOut(items, now, opts))
    ensures |Survivors(items, now, opts)| + |AgedOut(items, now, opts)| == |items|
  {
    if items != [] {
      PruneParts(items[1..], now, opts);
      var rest := AgedOut(items[1..], now, opts);
      var aged := AgedOut(items, now, opts);
      assert forall d :: d in rest ==> d in aged;
      assert items == [items[0]] + items[1..];
      if Expired(items[0], now, opts) {
        assert aged[0].entry == items[0];
      }
    }
  }

  lemma {:induction false} NoneAged(items: seq<Entry>, now: int, opts: Options)
    requires AgedOut(items, now, opts) == []
    ensures Survivors(items, now, opts) == items
  {
    if items != [] {
      NoneAged(items[1..], now, opts);
    }
  }

  lemma {:induction false} AgeConcat(before: seq<Entry>, entry: Entry, now: int, opts: Options)
    ensures Survivors(before + [entry], now, opts)
            == Survivors(before, now, opts) + if Expired(entry, now, opts) then [] else [entry]
    ensures AgedOut(before + [entry], now, opts)
            == AgedOut(before, now, opts)
               + if Expired(entry, now, opts) then [DeadLetter(entry, now, PrunedByAge(now - entry.enqueuedAt))] else []
  {
    if before != [] {
      AgeConcat(before[1..], entry, now, opts);
      assert (before + [entry])[1..] == before[1..] + [entry];
    }
  }

  lemma DropFirst(entry: Entry, after: seq<Entry>)
    requires Unique([entry] + after)
    ensures Drop([entry] + after, entry.paymentTxHash) == after
  {
    var all := [entry] + after;
    assert all[1..] == after;
    forall e | e in after
      ensures e.paymentTxHash != entry.paymentTxHash
    {
      var i :| 0 <= i < |after| && after[i] == e;
      assert all[0] == entry && all[i + 1] == e;
    }
  }

  lemma DropLater(head: Entry, tail: seq<Entry>, txHash: TxHash)
    requires head.paymentTxHash != txHash
    ensures Drop([head] + tail, txHash) == [head] + Drop(tail, txHash)
  {
    assert ([head] + tail)[1..] == tail;
  }

  lemma {:induction false} DropMiddle(before: seq<Entry>, entry: Entry, after: seq<Entry>)
    requires Unique(before + ([entry] + after))
    ensures Drop(before + ([entry] + after), entry.paymentTxHash) == before + after
  {
    hide Drop, Keys;
    var all := before + ([entry] + after);
    if before == [] {
      assert all == [entry] + after;
      DropFirst(entry, after);
    } else {
      var rest := before[1..];
      assert all == [before[0]] + (rest + ([entry] + after));
      assert all[0].paymentTxHash != all[|before|].paymentTxHash;
      DropLater(before[0], rest + ([entry] + after), entry.paymentTxHash);
      TailUnique(before[0], rest + ([entry] + after));
      DropMiddle(rest, entry, after);
      assert [before[0]] + (rest + after) == before + after;
    }
  }

  lemma TailUnique(head: Entry, tail: seq<Entry>)
    requires Unique([head] + tail)
    ensures Unique(tail)
  {
    assert forall i :: 0 <= i < |tail| ==> ([head] + tail)[i + 1] == tail[i];
  }

  // ---- operations on the queue ---------------------------------------------------

  function Prune(q: Queue, now: int, opts: Options): Queue {
    Queue(Survivors(q.items, now, opts), q.dead + AgedOut(q.items, now, opts))
  }

  /** A re-enqueue carries the attempts already spent over to the new entry. */
  function Charged(items: seq<Entry>, entry: Entry): Entry {
    match Find(items, entry.paymentTxHash)
    case Some(existing) => entry.(attempts := existing.attempts)
    case None => entry
  }

  function Insert(q: Queue, entry: Entry): Queue {
    q.(items := SetItem(q.items, Charged(q.items, entry)))
  }

  function Remove(q: Queue, txHash: TxHash): Queue {
    q.(items := Drop(q.items, txHash))
  }

  function Bury(q: Queue, entry: Entry, now: int, reason: Reason): Queue {
    Queue(Drop(q.items, entry.paymentTxHash), q.dead + [DeadLetter(entry, now, reason)])
  }

  /** The queue when the pruning loop, which walks a snapshot while the live entries shrink,
      has walked the first `i` of them. */
  ghost function PrunedUpTo(dead: seq<DeadLetter>, snapshot: seq<Entry>, i: nat, now: int, opts: Options): Queue
    requires i <= |snapshot|
  {
    Queue(Survivors(snapshot[..i], now, opts) + snapshot[i..], dead + AgedOut(snapshot[..i], now, opts))
  }

  lemma PruneEnds(q: Queue, now: int, opts: Options)
    ensures PrunedUpTo(q.dead, q.items, 0, now, opts) == q
    ensures PrunedUpTo(q.dead, q.items, |q.items|, now, opts) == Prune(q, now, opts)
  {
    assert q.items[..|q.items|] == q.items;
  }

  /** One turn of that loop. */
  lemma PruneTurn(dead: seq<DeadLetter>, snapshot: seq<Entry>, i: nat, now: int, opts: Options)
    requires i < |snapshot|
    requires Unique(PrunedUpTo(dead, snapshot, i, now, opts).items)
    ensures var entry := snapshot[i];
            var q := PrunedUpTo(dead, snapshot, i, now, opts);
            PrunedUpTo(dead, snapshot, i + 1, now, opts)
            == if Expired(entry, now, opts) then Bury(q, entry, now, PrunedByAge(now - entry.enqueuedAt)) else q
  {
    hide Unique, Survivors, AgedOut, Drop, Keys;
    assert snapshot[..i + 1] == snapshot[..i] + [snapshot[i]];
    assert snapshot[i..] == [snapshot[i]] + snapshot[i + 1..];
    AgeConcat(snapshot[..i], snapshot[i], now, opts);
    var kept := Survivors(snapshot[..i], now, opts);
    DropMiddle(kept, snapshot[i], snapshot[i + 1..]);
    assert kept + ([snapshot[i]] + snapshot[i + 1..]) == (kept + [snapshot[i]]) + snapshot[i + 1..];
  }

  datatype Outcome = Retrying | DeadLettered | Unknown

  function Blamed(entry: Entry, error: string): Entry {
    entry.(attempts := entry.attempts + 1, lastError := Truncated(error, MAX_ERROR_LENGTH))
  }

  function Fail(q: Queue, txHash: TxHash, terminal: bool, error: string, now: int, opts: Options): (Queue, Outcome) {
    match Find(q.items, txHash)
    case None => (q, Unknown)
    case Some(found) =>
      var entry := Blamed(found, error);
      if terminal then (Bury(q, entry, now, TerminalFailure(entry.lastError)), DeadLettered)
      else if entry.attempts >= opts.maxAttempts then
        (Bury(q, entry, now, GaveUp(entry.attempts, entry.lastError)), DeadLettered)
      else (q.(items := SetItem(q.items, entry)), Retrying)
  }

  // ---- the two files ---------------------------------------------------------------

  /** What the files hold: the history as of the last sidecar write, and the live file. */
  datatype Disk = Disk(dead: seq<DeadLetter>, live: seq<Entry>)

  datatype State = State(memory: Queue, disk: Disk)

  /** A flush writes the dead-letter sidecar first and the live file second. `writes` counts
      the writes that happened before an exception or a crash: two is a complete flush. */
  function Flush(s: State, writes: nat): State {
    s.(disk := Disk(if writes >= 1 then s.memory.dead else s.disk.dead,
                    if writes >= 2 then s.memory.items else s.disk.live))
  }

  function Reloaded(disk: Disk): State {
    State(Queue(disk.live, disk.dead), disk)
  }

  function PruneStep(s: State, now: int, writes: nat, opts: Options): (State, bool) {
    if AgedOut(s.memory.items, now, opts) == [] then (s, true)
    else (Flush(s.(memory := Prune(s.memory, now, opts)), writes), writes >= 2)
  }

  /** An enqueue prunes first; when that flush throws, nothing is inserted. */
  function EnqueueStep(s: State, entry: Entry, now: int, pruneWrites: nat, writes: nat, opts: Options): (State, bool) {
    var (pruned, ok) := PruneStep(s, now, pruneWrites, opts);
    if !ok then (pruned, false)
    else (Flush(pruned.(memory := Insert(pruned.memory, entry)), writes), writes >= 2)
  }

  function RemoveStep(s: State, txHash: TxHash, writes: nat): (State, bool) {
    if txHash !in Keys(s.memory.items) then (s, true)
    else (Flush(s.(memory := Remove(s.memory, txHash)), writes), writes >= 2)
  }

  function FailStep(s: State, txHash: TxHash, terminal: bool, error: string, now: int, writes: nat, opts: Options)
    : (State, Result<Outcome, ()>)
  {
    var (q, outcome) := Fail(s.memory, txHash, terminal, error, now, opts);
    if outcome == Unknown then (s, Ok(Unknown))
    else (Flush(s.(memory := q), writes), if writes >= 2 then Ok(outcome) else Err(()))
  }

  // ---- whole runs, with throwing writes and crashes ----------------------------------

  datatype Op =
    | EnqueueOp(entry: Entry, now: int, pruneWrites: nat, writes: nat)
    | RemoveOp(txHash: TxHash, writes: nat)
    | FailOp(txHash: TxHash, terminal: bool, error: string, now: int, writes: nat)
    | PruneOp(now: int, writes: nat)
    | CrashOp

  function Apply(s: State, op: Op, opts: Options): (State, bool) {
    match op
    case EnqueueOp(entry, now, pruneWrites, writes) => EnqueueStep(s, entry, now, pruneWrites, writes, opts)
    case RemoveOp(txHash, writes) => RemoveStep(s, txHash, writes)
    case FailOp(txHash, terminal, error, now, writes) =>
      var (s', outcome) := FailStep(s, txHash, terminal, error, now, writes, opts);
      (s', outcome.Ok?)
    case PruneOp(now, writes) => PruneStep(s, now, writes, opts)
    case CrashOp => (Reloaded(s.disk), true)
  }

  /** Counts over a run. `inserted` and `removed` count what the entries in memory went through,
      `savedInserted` and `savedRemoved` what those in the live file did, and `letters` how many
      dead letters there were when that file was written. A crash forgets what was not saved;
      letters already written for entries the live file still holds are then `doubled`.
      `acked` counts the insertions whose enqueue returned. */
  datatype Tally = Tally(
    acked: nat, inserted: nat, removed: nat, savedInserted: nat, savedRemoved: nat, letters: nat, doubled: int)

  function Saved(t: Tally, letters: nat, writes: nat): Tally {
    if writes < 2 then t
    else t.(savedInserted := t.inserted, savedRemoved := t.removed, letters := letters)
  }

  function PruneTally(s: State, t: Tally, now: int, writes: nat, opts: Options): Tally {
    if AgedOut(s.memory.items, now, opts) == [] then t
    else Saved(t, |Prune(s.memory, now, opts).dead|, writes)
  }

  function StepTally(s: State, t: Tally, op: Op, opts: Options): Tally {
    match op
    case EnqueueOp(entry, now, pruneWrites, writes) =>
      var (pruned, reached) := PruneStep(s, now, pruneWrites, opts);
      var t' := PruneTally(s, t, now, pruneWrites, opts);
      if !reached then t' else
      var isNew := if entry.paymentTxHash in Keys(pruned.memory.items) then 0 else 1;
      Saved(t'.(inserted := t'.inserted + isNew, acked := t'.acked + if writes >= 2 then isNew else 0),
            |pruned.memory.dead|, writes)
    case RemoveOp(txHash, writes) =>
      if txHash !in Keys(s.memory.items) then t
      else Saved(t.(removed := t.removed + 1), |s.memory.dead|, writes)
    case FailOp(txHash, terminal, error, now, writes) =>
      var (q, outcome) := Fail(s.memory, txHash, terminal, error, now, opts);
      if outcome == Unknown then t else Saved(t, |q.dead|, writes)
    case PruneOp(now, writes) => PruneTally(s, t, now, writes, opts)
    case CrashOp =>
      t.(inserted := t.savedInserted, removed := t.savedRemoved,
         letters := |s.disk.dead|, doubled := t.doubled + |s.disk.dead| - t.letters)
  }

  /** A run with its bookkeeping: `acked` are the keys whose enqueue returned, and `confirmed`
      those removed since. */
  datatype Trace = Trace(s: State, acked: set<TxHash>, confirmed: set<TxHash>, tally: Tally)

  const START := Trace(State(EMPTY, Disk([], [])), {}, {}, Tally(0, 0, 0, 0, 0, 0, 0))

  function StepTrace(t: Trace, op: Op, opts: Options): Trace {
    var (s', ok) := Apply(t.s, op, opts);
    var t' := t.(s := s', tally := StepTally(t.s, t.tally, op, opts));
    match op
    case EnqueueOp(entry, _, _, _) =>
      if ok then t'.(acked := t.acked + {entry.paymentTxHash}, confirmed := t.confirmed - {entry.paymentTxHash}) else t'
    case RemoveOp(txHash, _) =>
      if txHash in Keys(t.s.memory.items) then t'.(confirmed := t.confirmed + {txHash}) else t'
    case _ => t'
  }

  function RunTrace(ops: seq<Op>, opts: Options): Trace {
    if ops == [] then START else StepTrace(RunTrace(ops[..|ops| - 1], opts), ops[|ops| - 1], opts)
  }

  /** No acknowledged entry is lost, in memory or on disk. */
  ghost predicate Kept(t: Trace) {
    && t.acked <= Keys(t.s.memory.items) + DeadKeys(t.s.memory.dead) + t.confirmed
    && t.acked <= Keys(t.s.disk.live) + DeadKeys(t.s.disk.dead) + t.confirmed
    && t.s.disk.dead <= t.s.memory.dead
  }

  /** The books balance exactly, in memory and on disk. */
  ghost predicate Balanced(s: State, t: Tally) {
    && Unique(s.memory.items) && Unique(s.disk.live)
    && |s.memory.items| + |s.memory.dead| + t.removed == t.inserted + t.doubled
    && |s.disk.live| + t.letters + t.savedRemoved == t.savedInserted + t.doubled
    && t.letters <= |s.disk.dead| <= |s.memory.dead|
    && t.acked <= t.savedInserted <= t.inserted
  }

  lemma DropKeys(items: seq<Entry>, txHash: TxHash)
    ensures Keys(Drop(items, txHash)) == Keys(items) - {txHash}
  {
  }

  lemma ApartCons(head: Entry, tail: seq<Entry>)
    requires Unique(tail) && head.paymentTxHash !in Keys(tail)
    ensures Unique([head] + tail)
  {
    assert forall e :: e in tail ==> e.paymentTxHash in Keys(tail);
  }

  lemma {:induction false} DropOne(items: seq<Entry>, txHash: TxHash)
    requires Unique(items) && txHash in Keys(items)
    ensures Unique(Drop(items, txHash)) && |Drop(items, txHash)| == |items| - 1
  {
    HeadIsAlone(items);
    hide Keys, Unique;
    if items[0].paymentTxHash != txHash {
      DropOne(items[1..], txHash);
      DropKeys(items[1..], txHash);
      ApartCons(items[0], Drop(items[1..], txHash));
    }
  }

  lemma {:induction false} SetItemApart(items: seq<Entry>, entry: Entry)
    requires Unique(items)
    ensures Unique(SetItem(items, entry))
  {
    hide Find;
    if items != [] && items[0].paymentTxHash != entry.paymentTxHash {
      var tail := items[1..];
      SetItemApart(tail, entry);
      SetItemKeys(tail, entry);
      var rest := SetItem(tail, entry);
      assert forall e :: e in rest ==> e.paymentTxHash in Keys(rest);
      assert items[0].paymentTxHash !in Keys(tail);
    }
  }

  lemma SetItemUnique(items: seq<Entry>, entry: Entry)
    requires Unique(items)
    ensures Unique(SetItem(items, entry))
    ensures Keys(SetItem(items, entry)) == Keys(items) + {entry.paymentTxHash}
    ensures |SetItem(items, entry)| == if entry.paymentTxHash in Keys(items) then |items| else |items| + 1
  {
    hide Unique, Keys, SetItem;
    SetItemKeys(items, entry);
    SetItemApart(items, entry);
  }

  lemma {:induction false} SurvivorsUnique(items: seq<Entry>, now: int, opts: Options)
    requires Unique(items)
    ensures Unique(Survivors(items, now, opts))
  {
    if items != [] {
      SurvivorsUnique(items[1..], now, opts);
      PruneParts(items[1..], now, opts);
      var rest := Survivors(items[1..], now, opts);
      assert forall e :: e in rest ==> e in items[1..] && e.paymentTxHash != items[0].paymentTxHash;
      assert Survivors(items, now, opts) == if Expired(items[0], now, opts) then rest else [items[0]] + rest;
    }
  }

  /** Pruning loses no key, and what it leaves is younger than the age limit. */
  lemma PruneKeeps(q: Queue, now: int, opts: Options)
    ensures Keys(q.items) <= Keys(Prune(q, now, opts).items) + DeadKeys(Prune(q, now, opts).dead)
    ensures DeadKeys(q.dead) <= DeadKeys(Prune(q, now, opts).dead)
    ensures forall e :: e in Prune(q, now, opts).items ==> now - e.enqueuedAt < opts.maxAgeMs
    ensures forall d :: d in Prune(q, now, opts).dead[|q.dead|..] ==> now - d.entry.enqueuedAt >= opts.maxAgeMs
  {
    var pruned := Prune(q, now, opts);
    var aged := AgedOut(q.items, now, opts);
    PruneParts(q.items, now, opts);
    assert pruned.dead[|q.dead|..] == aged;
    forall e | e in q.items && Expired(e, now, opts)
      ensures e.paymentTxHash in DeadKeys(pruned.dead)
    {
      var d :| d in aged && d.entry.paymentTxHash == e.paymentTxHash;
      assert d in pruned.dead;
    }
    forall d | d in q.dead
      ensures d in pruned.dead
    {
    }
  }

  lemma BuryKeeps(q: Queue, entry: Entry, now: int, reason: Reason)
    ensures Keys(q.items) <= Keys(Bury(q, entry, now, reason).items) + DeadKeys(Bury(q, entry, now, reason).dead)
    ensures DeadKeys(q.dead) <= DeadKeys(Bury(q, entry, now, reason).dead)
    ensures q.dead <= Bury(q, entry, now, reason).dead
  {
    var buried := Bury(q, entry, now, reason);
    DropKeys(q.items, entry.paymentTxHash);
    assert DeadLetter(entry, now, reason) in buried.dead;
    assert forall d :: d in q.dead ==> d in buried.dead;
  }

  lemma FailLosesNone(q: Queue, txHash: TxHash, terminal: bool, error: string, now: int, opts: Options)
    ensures var q' := Fail(q, txHash, terminal, error, now, opts).0;
            && Keys(q.items) + DeadKeys(q.dead) <= Keys(q'.items) + DeadKeys(q'.dead)
            && q.dead <= q'.dead
  {
    hide Keys, DeadKeys, Bury;
    var found := Find(q.items, txHash);
    if found.Some? {
      var entry := Blamed(found.value, error);
      SetItemKeys(q.items, entry);
      BuryKeeps(q, entry, now, TerminalFailure(entry.lastError));
      BuryKeeps(q, entry, now, GaveUp(entry.attempts, entry.lastError));
    }
  }

  /** A flush of any length keeps what the new memory image accounts for. */
  lemma FlushKeeps(s: State, memory: Queue, writes: nat, acked: set<TxHash>, confirmed: set<TxHash>)
    requires acked <= Keys(memory.items) + DeadKeys(memory.dead) + confirmed
    requires acked <= Keys(s.disk.live) + DeadKeys(s.disk.dead) + confirmed
    requires s.disk.dead <= memory.dead
    ensures var s' := Flush(s.(memory := memory), writes);
            && acked <= Keys(s'.memory.items) + DeadKeys(s'.memory.dead) + confirmed
            && acked <= Keys(s'.disk.live) + DeadKeys(s'.disk.dead) + confirmed
            && s'.disk.dead <= s'.memory.dead
  {
    assert forall d :: d in s.disk.dead ==> d in memory.dead;
  }

  lemma PruneStepKeeps(s: State, now: int, writes: nat, opts: Options, acked: set<TxHash>, confirmed: set<TxHash>)
    requires acked <= Keys(s.memory.items) + DeadKeys(s.memory.dead) + confirmed
    requires acked <= Keys(s.disk.live) + DeadKeys(s.disk.dead) + confirmed
    requires s.disk.dead <= s.memory.dead
    ensures var s' := PruneStep(s, now, writes, opts).0;
            && acked <= Keys(s'.memory.items) + DeadKeys(s'.memory.dead) + confirmed
            && acked <= Keys(s'.disk.live) + DeadKeys(s'.disk.dead) + confirmed
            && s'.disk.dead <= s'.memory.dead
  {
    hide Flush, Keys, DeadKeys;
    PruneKeeps(s.memory, now, opts);
    FlushKeeps(s, Prune(s.memory, now, opts), writes, acked, confirmed);
  }

  lemma EnqueueKeeps(t: Trace, entry: Entry, now: int, pruneWrites: nat, writes: nat, opts: Options)
    requires Kept(t)
    ensures Kept(StepTrace(t, EnqueueOp(entry, now, pruneWrites, writes), opts))
  {
    hide PruneStep, Keys, DeadKeys, StepTally;
    PruneStepKeeps(t.s, now, pruneWrites, opts, t.acked, t.confirmed);
    var (pruned, ok) := PruneStep(t.s, now, pruneWrites, opts);
    if ok {
      var key := entry.paymentTxHash;
      SetItemKeys(pruned.memory.items, Charged(pruned.memory.items, entry));
      FlushKeeps(pruned, Insert(pruned.memory, entry), writes, t.acked, t.confirmed);
      if writes >= 2 {
        var memory := Insert(pruned.memory, entry);
        assert t.acked + {key} <= Keys(memory.items) + DeadKeys(memory.dead) + (t.confirmed - {key});
      }
    }
  }

  lemma StepKeeps(t: Trace, op: Op, opts: Options)
    requires Kept(t)
    ensures Kept(StepTrace(t, op, opts))
  {
    hide Flush, Keys, DeadKeys, PruneStep, Fail, StepTally;
    var q := t.s.memory;
    match op
    case EnqueueOp(entry, now, pruneWrites, writes) => EnqueueKeeps(t, entry, now, pruneWrites, writes, opts);
    case PruneOp(now, writes) => PruneStepKeeps(t.s, now, writes, opts, t.acked, t.confirmed);
    case RemoveOp(txHash, writes) =>
      DropKeys(q.items, txHash);
      if txHash in Keys(q.items) {
        FlushKeeps(t.s, Remove(q, txHash), writes, t.acked, t.confirmed + {txHash});
      }
    case FailOp(txHash, terminal, error, now, writes) =>
      FailLosesNone(q, txHash, terminal, error, now, opts);
      FlushKeeps(t.s, Fail(q, txHash, terminal, error, now, opts).0, writes, t.acked, t.confirmed);
    case CrashOp =>
  }

  lemma FlushBalances(s: State, t: Tally, memory: Queue, writes: nat)
    requires Unique(memory.items) && Unique(s.disk.live)
    requires |memory.items| + |memory.dead| + t.removed == t.inserted + t.doubled
    requires |s.disk.live| + t.letters + t.savedRemoved == t.savedInserted + t.doubled
    requires t.letters <= |s.disk.dead| <= |memory.dead|
    requires t.savedInserted <= t.inserted && t.acked <= if writes >= 2 then t.inserted else t.savedInserted
    ensures Balanced(Flush(s.(memory := memory), writes), Saved(t, |memory.dead|, writes))
  {
    hide Unique;
  }

  lemma PruneBalances(s: State, t: Tally, now: int, writes: nat, opts: Options)
    requires Balanced(s, t)
    ensures Balanced(PruneStep(s, now, writes, opts).0, PruneTally(s, t, now, writes, opts))
  {
    hide Unique, Survivors, AgedOut, Flush, Saved;
    SurvivorsUnique(s.memory.items, now, opts);
    PruneParts(s.memory.items, now, opts);
    if AgedOut(s.memory.items, now, opts) != [] {
      FlushBalances(s, t, Prune(s.memory, now, opts), writes);
    }
  }

  lemma EnqueueBalances(s: State, t: Tally, entry: Entry, now: int, pruneWrites: nat, writes: nat, opts: Options)
    requires Balanced(s, t)
    ensures var op := EnqueueOp(entry, now, pruneWrites, writes);
            Balanced(Apply(s, op, opts).0, StepTally(s, t, op, opts))
  {
    hide Unique, PruneStep, PruneTally, SetItem, Keys, Find, Flush;
    PruneBalances(s, t, now, pruneWrites, opts);
    var (pruned, reached) := PruneStep(s, now, pruneWrites, opts);
    if reached {
      var t' := PruneTally(s, t, now, pruneWrites, opts);
      var isNew := if entry.paymentTxHash in Keys(pruned.memory.items) then 0 else 1;
      SetItemUnique(pruned.memory.items, Charged(pruned.memory.items, entry));
      FlushBalances(pruned, t'.(inserted := t'.inserted + isNew, acked := t'.acked + if writes >= 2 then isNew else 0),
        Insert(pruned.memory, entry), writes);
    }
  }

  lemma FailBalances(
    s: State, t: Tally, txHash: TxHash, terminal: bool, error: string, now: int, writes: nat, opts: Options)
    requires Balanced(s, t)
    ensures var op := FailOp(txHash, terminal, error, now, writes);
            Balanced(Apply(s, op, opts).0, StepTally(s, t, op, opts))
  {
    hide Unique, Drop, SetItem, Keys, Find, Flush, Saved;
    var found := Find(s.memory.items, txHash);
    if found.Some? {
      DropOne(s.memory.items, txHash);
      SetItemUnique(s.memory.items, Blamed(found.value, error));
      FlushBalances(s, t, Fail(s.memory, txHash, terminal, error, now, opts).0, writes);
    }
  }

  lemma StepBalances(s: State, t: Tally, op: Op, opts: Options)
    requires Balanced(s, t)
    ensures Balanced(Apply(s, op, opts).0, StepTally(s, t, op, opts))
  {
    match op
    case EnqueueOp(entry, now, pruneWrites, writes) => EnqueueBalances(s, t, entry, now, pruneWrites, writes, opts);
    case PruneOp(now, writes) => PruneBalances(s, t, now, writes, opts);
    case RemoveOp(txHash, writes) =>
      hide Unique, Drop, Keys, Flush, Saved;
      if txHash in Keys(s.memory.items) {
        DropOne(s.memory.items, txHash);
        FlushBalances(s, t.(removed := t.removed + 1), Remove(s.memory, txHash), writes);
      }
    case FailOp(txHash, terminal, error, now, writes) => FailBalances(s, t, txHash, terminal, error, now, writes, opts);
    case CrashOp =>
  }

  /** Crash safety of the two-file flush: wherever writes throw and the process dies, every
      acknowledged entry is, in memory and again after a reload, live, in the dead-letter
      history, or confirmed since. */
  lemma {:induction false} NothingAcknowledgedIsLost(ops: seq<Op>, opts: Options)
    ensures Kept(RunTrace(ops, opts))
  {
    if ops != [] {
      NothingAcknowledgedIsLost(ops[..|ops| - 1], opts);
      StepKeeps(RunTrace(ops[..|ops| - 1], opts), ops[|ops| - 1], opts);
    }
  }

  /** Conservation: in every run, entries live and dead-lettered are exactly those inserted less
      those removed, plus the letters doubled by crashes; in memory, and in the live file as of
      its last write. */
  lemma {:induction false} EntriesConserved(ops: seq<Op>, opts: Options)
    ensures Balanced(RunTrace(ops, opts).s, RunTrace(ops, opts).tally)
  {
    if ops != [] {
      hide Balanced, Apply, StepTally;
      var before, last := RunTrace(ops[..|ops| - 1], opts), ops[|ops| - 1];
      EntriesConserved(ops[..|ops| - 1], opts);
      StepBalances(before.s, before.tally, last, opts);
    } else {
      NothingToBalance();
    }
  }

  lemma NothingToBalance()
    ensures Balanced(START.s, START.tally)
  {
  }

  /** So the dead-letter total a reload comes back with never undercounts: every insertion that
      reached the live file, and that the file neither holds nor saw removed, has a letter of its
      own; and every acknowledged insertion did reach it. */
  lemma {:induction false} TotalNeverUndercounts(ops: seq<Op>, opts: Options)
    ensures var t := RunTrace(ops, opts);
            && |Reloaded(t.s.disk).memory.dead|
               >= t.tally.savedInserted - t.tally.savedRemoved - |t.s.disk.live| + t.tally.doubled
            && t.tally.acked <= t.tally.savedInserted && t.tally.doubled >= 0
  {
    hide RunTrace, Unique;
    EntriesConserved(ops, opts);
    DoublingIsCounted(ops, opts);
  }

  lemma {:induction false} DoublingIsCounted(ops: seq<Op>, opts: Options)
    ensures RunTrace(ops, opts).tally.doubled >= 0
  {
    if ops != [] {
      hide Balanced, Apply, PruneStep, PruneTally, Fail, Keys;
      DoublingIsCounted(ops[..|ops| - 1], opts);
      EntriesConserved(ops[..|ops| - 1], opts);
      LettersAreWritten(RunTrace(ops[..|ops| - 1], opts));
      PruningDoublesNone(RunTrace(ops[..|ops| - 1], opts), opts);
    }
  }

  lemma LettersAreWritten(t: Trace)
    requires Balanced(t.s, t.tally)
    ensures t.tally.letters <= |t.s.disk.dead|
  {
  }

  lemma PruningDoublesNone(t: Trace, opts: Options)
    ensures forall now, writes :: PruneTally(t.s, t.tally, now, writes, opts).doubled == t.tally.doubled
  {
  }

  // ---- one hash, one payment -------------------------------------------------------------

  /** The payment an entry is about, beside its hash: the service and the invoice nonce. */
  function PaymentOf(e: Entry): (nat, nat) {
    (e.serviceId, e.nonce)
  }

  ghost predicate Holds(items: seq<Entry>, payment: (nat, nat), txHash: TxHash) {
    exists e :: e in items && PaymentOf(e) == payment && e.paymentTxHash == txHash
  }

  ghost predicate Buried(dead: seq<DeadLetter>, payment: (nat, nat), txHash: TxHash) {
    exists d :: d in dead && PaymentOf(d.entry) == payment && d.entry.paymentTxHash == txHash
  }

  /** A live payment of queue `q` that `q'` holds no more, with no letter for it either. */
  ghost predicate Drops(q: Queue, q': Queue, e: Entry) {
    && e in q.items && !Holds(q'.items, PaymentOf(e), e.paymentTxHash)
    && |q.dead| <= |q'.dead| && !Buried(q'.dead[|q.dead|..], PaymentOf(e), e.paymentTxHash)
  }

  /** The queue is keyed by the hash alone: another payment under the same hash, of another service
      or of another invoice of the same one, takes the first one's place, in memory and in the file,
      and no letter remains of it. */
  lemma {:induction false} SharedHashReplaces(first: Entry, second: Entry, now: int, opts: Options)
    requires first.paymentTxHash == second.paymentTxHash && !Expired(first, now, opts)
    ensures var s := State(Queue([first], []), Disk([], [first]));
            var kept := second.(attempts := first.attempts);
            && EnqueueStep(s, second, now, 2, 2, opts) == (State(Queue([kept], []), Disk([], [kept])), true)
            && (Drops(s.memory, Queue([kept], []), first) <==> PaymentOf(first) != PaymentOf(second))
  {
    var kept := second.(attempts := first.attempts);
    assert [first][1..] == [];
    assert AgedOut([first], now, opts) == [];
    assert Charged([first], second) == kept;
    assert SetItem([first], kept) == [kept];
    assert kept in [kept] && PaymentOf(kept) == PaymentOf(second);
  }

  lemma {:induction false} SetItemHolds(items: seq<Entry>, entry: Entry)
    requires Unique(items)
    ensures forall e :: e in SetItem(items, entry) <==>
              e == entry || (e in items && e.paymentTxHash != entry.paymentTxHash)
  {
    if items != [] {
      HeadIsAlone(items);
      assert items == [items[0]] + items[1..];
      assert forall e :: e in items[1..] ==> e.paymentTxHash in Keys(items[1..]);
      if items[0].paymentTxHash != entry.paymentTxHash {
        SetItemHolds(items[1..], entry);
      }
    }
  }

  lemma OneOfItsHash(items: seq<Entry>, a: Entry, b: Entry)
    requires Unique(items) && a in items && b in items && a.paymentTxHash == b.paymentTxHash
    ensures a == b
  {
  }

  /** Exactly when an insertion drops a payment: when a live entry has the new one's hash and is
      about another payment. It is that entry, and no other, whose payment is lost. */
  lemma {:induction false} InsertDropsExactly(q: Queue, entry: Entry, e: Entry)
    requires Unique(q.items)
    ensures Drops(q, Insert(q, entry), e) <==>
              e in q.items && e.paymentTxHash == entry.paymentTxHash && PaymentOf(e) != PaymentOf(entry)
  {
    hide SetItem, Unique;
    var charged := Charged(q.items, entry);
    SetItemHolds(q.items, charged);
    var after := SetItem(q.items, charged);
    assert charged in after && PaymentOf(charged) == PaymentOf(entry);
    assert q.dead[|q.dead|..] == [];
    if e in q.items && e.paymentTxHash != entry.paymentTxHash {
      assert e in after;
    }
  }

  /** The same of a whole enqueue, which prunes first: the entries it ages out get their letters. */
  lemma {:induction false} EnqueueDropsExactly(
    s: State, entry: Entry, now: int, pruneWrites: nat, writes: nat, opts: Options, e: Entry)
    requires Unique(s.memory.items) && PruneStep(s, now, pruneWrites, opts).1
    ensures Drops(s.memory, EnqueueStep(s, entry, now, pruneWrites, writes, opts).0.memory, e) <==>
              && e in s.memory.items && !Expired(e, now, opts)
              && e.paymentTxHash == entry.paymentTxHash && PaymentOf(e) != PaymentOf(entry)
  {
    hide Unique, Survivors, AgedOut, SetItem, Find, Drops;
    var q, pruned := s.memory, PruneStep(s, now, pruneWrites, opts).0.memory;
    NothingLeft(q.items, now, opts);
    assert q.dead + [] == q.dead;
    assert pruned == Prune(q, now, opts);
    PruneParts(q.items, now, opts);
    SurvivorsUnique(q.items, now, opts);
    InsertDropsExactly(pruned, entry, e);
    PrunedDrops(q, pruned, Insert(pruned, entry), now, opts, e);
  }

  lemma PrunedDrops(q: Queue, pruned: Queue, after: Queue, now: int, opts: Options, e: Entry)
    requires Unique(q.items) && pruned == Prune(q, now, opts) && after.dead == pruned.dead
    ensures Drops(q, after, e) <==> Drops(pruned, after, e)
  {
    var aged := AgedOut(q.items, now, opts);
    PruneParts(q.items, now, opts);
    assert pruned.dead[|q.dead|..] == aged && pruned.dead[|pruned.dead|..] == [];
    if e in q.items && Expired(e, now, opts) {
      var d :| d in aged && d.entry.paymentTxHash == e.paymentTxHash;
      OneOfItsHash(q.items, d.entry, e);
      assert Buried(aged, PaymentOf(e), e.paymentTxHash);
    } else if e in q.items {
      forall d | d in aged
        ensures d.entry.paymentTxHash != e.paymentTxHash
      {
        if d.entry.paymentTxHash == e.paymentTxHash {
          OneOfItsHash(q.items, d.entry, e);
        }
      }
    }
  }

  /** Likewise a removal drops the entry under its hash, whichever payment that is about. */
  lemma {:induction false} RemoveDropsExactly(q: Queue, txHash: TxHash, e: Entry)
    ensures Drops(q, Remove(q, txHash), e) <==> e in q.items && e.paymentTxHash == txHash
  {
    hide Drop;
    assert q.dead[|q.dead|..] == [];
    if e in q.items && e.paymentTxHash != txHash {
      assert e in Drop(q.items, txHash);
    }
  }

  /** Every entry and letter is about the payment its hash stands for. */
  ghost predicate OfPayments(s: State, paymentOf: TxHash -> (nat, nat)) {
    && (forall e :: e in s.memory.items ==> PaymentOf(e) == paymentOf(e.paymentTxHash))
    && (forall e :: e in s.disk.live ==> PaymentOf(e) == paymentOf(e.paymentTxHash))
    && (forall d :: d in s.memory.dead ==> PaymentOf(d.entry) == paymentOf(d.entry.paymentTxHash))
    && (forall d :: d in s.disk.dead ==> PaymentOf(d.entry) == paymentOf(d.entry.paymentTxHash))
  }

  /** What is enqueued under a hash is always the same payment. */
  ghost predicate HashesNamePayments(ops: seq<Op>, paymentOf: TxHash -> (nat, nat)) {
    forall i :: 0 <= i < |ops| && ops[i].EnqueueOp? ==> PaymentOf(ops[i].entry) == paymentOf(ops[i].entry.paymentTxHash)
  }

  lemma {:induction false} SetItemMembers(items: seq<Entry>, entry: Entry)
    ensures forall e :: e in SetItem(items, entry) ==> e == entry || e in items
  {
    if items != [] && items[0].paymentTxHash != entry.paymentTxHash {
      SetItemMembers(items[1..], entry);
    }
  }

  lemma FlushOfPayments(s: State, memory: Queue, writes: nat, paymentOf: TxHash -> (nat, nat))
    requires OfPayments(s, paymentOf) && OfPayments(State(memory, s.disk), paymentOf)
    ensures OfPayments(Flush(s.(memory := memory), writes), paymentOf)
  {
  }

  lemma PruneOfPayments(s: State, now: int, writes: nat, opts: Options, paymentOf: TxHash -> (nat, nat))
    requires OfPayments(s, paymentOf)
    ensures OfPayments(PruneStep(s, now, writes, opts).0, paymentOf)
  {
    hide Flush;
    PruneParts(s.memory.items, now, opts);
    FlushOfPayments(s, Prune(s.memory, now, opts), writes, paymentOf);
  }

  lemma StepOfPayments(s: State, op: Op, opts: Options, paymentOf: TxHash -> (nat, nat))
    requires OfPayments(s, paymentOf)
    requires op.EnqueueOp? ==> PaymentOf(op.entry) == paymentOf(op.entry.paymentTxHash)
    ensures OfPayments(Apply(s, op, opts).0, paymentOf)
  {
    hide Flush, SetItem, Drop, Keys, PruneStep;
    var q := s.memory;
    match op
    case EnqueueOp(entry, now, pruneWrites, writes) =>
      PruneOfPayments(s, now, pruneWrites, opts, paymentOf);
      var pruned := PruneStep(s, now, pruneWrites, opts).0;
      SetItemMembers(pruned.memory.items, Charged(pruned.memory.items, entry));
      FlushOfPayments(pruned, Insert(pruned.memory, entry), writes, paymentOf);
    case PruneOp(now, writes) => PruneOfPayments(s, now, writes, opts, paymentOf);
    case RemoveOp(txHash, writes) => FlushOfPayments(s, Remove(q, txHash), writes, paymentOf);
    case FailOp(txHash, terminal, error, now, writes) =>
      var found := Find(q.items, txHash);
      if found.Some? {
        SetItemMembers(q.items, Blamed(found.value, error));
        FlushOfPayments(s, Fail(q, txHash, terminal, error, now, opts).0, writes, paymentOf);
      }
    case CrashOp =>
  }

  lemma {:induction false} RunOfPayments(ops: seq<Op>, opts: Options, paymentOf: TxHash -> (nat, nat))
    requires HashesNamePayments(ops, paymentOf)
    ensures OfPayments(RunTrace(ops, opts).s, paymentOf)
  {
    if ops != [] {
      hide OfPayments, Apply;
      RunOfPayments(ops[..|ops| - 1], opts, paymentOf);
      StepOfPayments(RunTrace(ops[..|ops| - 1], opts).s, ops[|ops| - 1], opts, paymentOf);
    } else {
      NoneOfPayments(paymentOf);
    }
  }

  lemma NoneOfPayments(paymentOf: TxHash -> (nat, nat))
    ensures OfPayments(START.s, paymentOf)
  {
  }

  /** Where a hash stands for one payment, no acknowledged payment is lost: an entry or a letter of
      that very service, nonce and hash remains, in memory and after a reload. */
  lemma {:induction false} NoPaymentIsLost(
    ops: seq<Op>, opts: Options, paymentOf: TxHash -> (nat, nat), txHash: TxHash)
    requires HashesNamePayments(ops, paymentOf)
    requires txHash in RunTrace(ops, opts).acked && txHash !in RunTrace(ops, opts).confirmed
    ensures var s, payment := RunTrace(ops, opts).s, paymentOf(txHash);
            && (Holds(s.memory.items, payment, txHash) || Buried(s.memory.dead, payment, txHash))
            && (Holds(s.disk.live, payment, txHash) || Buried(s.disk.dead, payment, txHash))
  {
    hide RunTrace, HashesNamePayments;
    NothingAcknowledgedIsLost(ops, opts);
    RunOfPayments(ops, opts, paymentOf);
  }

  /** Why the sidecar goes first: a flush that wrote the live file first and then died would
      leave an expired entry in neither file. */
  lemma LiveFileFirstWouldLose(entry: Entry, now: int, opts: Options)
    requires Expired(entry, now, opts)
    ensures var s := State(Queue([entry], []), Disk([], [entry]));
            var pruned := Prune(s.memory, now, opts);
            var liveFirst := Disk(s.disk.dead, pruned.items);
            && entry.paymentTxHash !in Keys(liveFirst.live) + DeadKeys(liveFirst.dead)
            && entry.paymentTxHash in Keys(PruneStep(s, now, 1, opts).0.disk.live)
            && entry.paymentTxHash in DeadKeys(PruneStep(s, now, 1, opts).0.disk.dead)
  {
    var s := State(Queue([entry], []), Disk([], [entry]));
    assert [entry][1..] == [];
    assert Survivors([entry], now, opts) == [];
    assert entry in s.memory.items && entry in s.disk.live;
    PruneKeeps(s.memory, now, opts);
  }

  // ---- the attempt budget --------------------------------------------------------------

  function RunFrom(s: State, ops: seq<Op>, opts: Options): State {
    if ops == [] then s else Apply(RunFrom(s, ops[..|ops| - 1], opts), ops[|ops| - 1], opts).0
  }

  function FailuresOf(ops: seq<Op>, txHash: TxHash): nat {
    if ops == [] then 0
    else
      var last := ops[|ops| - 1];
      FailuresOf(ops[..|ops| - 1], txHash) + if last.FailOp? && last.txHash == txHash then 1 else 0
  }

  /** The entry is live after the step, and the step wrote no dead letter for it. */
  ghost predicate StaysLive(s: State, op: Op, txHash: TxHash, opts: Options) {
    var s' := Apply(s, op, opts).0;
    && txHash in Keys(s'.memory.items)
    && forall i :: |s.memory.dead| <= i < |s'.memory.dead| ==> s'.memory.dead[i].entry.paymentTxHash != txHash
  }

  lemma HeadIsAlone(items: seq<Entry>)
    requires Unique(items) && items != []
    ensures Unique(items[1..]) && items[0].paymentTxHash !in Keys(items[1..])
    ensures Keys(items) == {items[0].paymentTxHash} + Keys(items[1..])
  {
    assert items == [items[0]] + items[1..];
  }

  lemma SurvivorKeys(items: seq<Entry>, now: int, opts: Options)
    ensures Keys(Survivors(items, now, opts)) <= Keys(items)
  {
    PruneParts(items, now, opts);
  }

  lemma {:induction false} FindSurvivor(items: seq<Entry>, now: int, opts: Options, txHash: TxHash)
    requires Unique(items) && txHash in Keys(Survivors(items, now, opts))
    ensures Find(Survivors(items, now, opts), txHash) == Find(items, txHash)
  {
    hide Unique, Keys;
    SurvivorKeys(items, now, opts);
    if items != [] {
      HeadIsAlone(items);
      SurvivorKeys(items[1..], now, opts);
      if Expired(items[0], now, opts) {
        assert Survivors(items, now, opts) == Survivors(items[1..], now, opts);
      } else {
        assert Survivors(items, now, opts) == [items[0]] + Survivors(items[1..], now, opts);
      }
      if txHash in Keys(Survivors(items[1..], now, opts)) {
        FindSurvivor(items[1..], now, opts, txHash);
      }
    }
  }

  lemma StillThere(q: Queue, now: int, opts: Options, txHash: TxHash)
    requires Unique(q.items) && txHash in Keys(q.items)
    requires forall i :: |q.dead| <= i < |Prune(q, now, opts).dead| ==>
        Prune(q, now, opts).dead[i].entry.paymentTxHash != txHash
    ensures Find(Prune(q, now, opts).items, txHash) == Find(q.items, txHash)
    ensures txHash in Keys(Prune(q, now, opts).items)
  {
    hide Unique, Survivors, AgedOut;
    var found := Find(q.items, txHash).value;
    var aged := AgedOut(q.items, now, opts);
    PruneParts(q.items, now, opts);
    assert forall i :: 0 <= i < |aged| ==> aged[i] == Prune(q, now, opts).dead[|q.dead| + i];
    assert !Expired(found, now, opts);
    FindSurvivor(q.items, now, opts, txHash);
  }

  lemma {:induction false} FindDrop(items: seq<Entry>, other: TxHash, txHash: TxHash)
    requires txHash != other
    ensures Find(Drop(items, other), txHash) == Find(items, txHash)
  {
    if items != [] {
      FindDrop(items[1..], other, txHash);
    }
  }

  function AttemptsOf(items: seq<Entry>, txHash: TxHash): nat {
    match Find(items, txHash)
    case Some(e) => e.attempts
    case None => 0
  }

  /** The failures that crashes forgot, each as far as the live file was behind for this entry. */
  function Forgotten(s: State, ops: seq<Op>, txHash: TxHash, opts: Options): int {
    if ops == [] then 0 else
    var before := ops[..|ops| - 1];
    var at := RunFrom(s, before, opts);
    Forgotten(s, before, txHash, opts)
    + if ops[|ops| - 1].CrashOp? then AttemptsOf(at.memory.items, txHash) - AttemptsOf(at.disk.live, txHash) else 0
  }

  /** The entry is live and under its budget, in memory and, if it is there, in the live file. */
  ghost predicate InBudget(s: State, txHash: TxHash, opts: Options) {
    && Unique(s.memory.items) && Unique(s.disk.live)
    && txHash in Keys(s.memory.items)
    && AttemptsOf(s.memory.items, txHash) < opts.maxAttempts
    && AttemptsOf(s.disk.live, txHash) < opts.maxAttempts
  }

  /** Over a run in which an entry stays live throughout, its attempt count grows by exactly
      the failures charged to it less what crashes forgot, through re-enqueues and throwing
      writes; and it stays below the maximum. So the failures are all accounted for exactly when
      each crash, on balance, found the live file up to date for this entry. */
  lemma {:induction false} BudgetSpansBoots(s: State, ops: seq<Op>, txHash: TxHash, opts: Options)
    requires InBudget(s, txHash, opts)
    requires forall k :: 0 <= k < |ops| ==> StaysLive(RunFrom(s, ops[..k], opts), ops[k], txHash, opts)
    ensures var s' := RunFrom(s, ops, opts);
            && InBudget(s', txHash, opts)
            && AttemptsOf(s'.memory.items, txHash) - AttemptsOf(s.memory.items, txHash)
               == FailuresOf(ops, txHash) - Forgotten(s, ops, txHash, opts)
            && (AttemptsOf(s'.memory.items, txHash) - AttemptsOf(s.memory.items, txHash) == FailuresOf(ops, txHash)
                <==> Forgotten(s, ops, txHash, opts) == 0)
  {
    hide Apply, StaysLive, InBudget, AttemptsOf;
    assert ops[..|ops|] == ops;
    if ops != [] {
      var before, last := ops[..|ops| - 1], ops[|ops| - 1];
      forall k | 0 <= k < |before|
        ensures StaysLive(RunFrom(s, before[..k], opts), before[k], txHash, opts)
      {
        assert before[..k] == ops[..k];
        assert StaysLive(RunFrom(s, ops[..k], opts), ops[k], txHash, opts);
      }
      BudgetSpansBoots(s, before, txHash, opts);
      BudgetStep(RunFrom(s, before, opts), last, txHash, opts);
    }
  }

  lemma FlushBudget(s: State, memory: Queue, writes: nat, txHash: TxHash, opts: Options)
    requires InBudget(State(memory, s.disk), txHash, opts)
    ensures InBudget(Flush(s.(memory := memory), writes), txHash, opts)
  {
    hide Unique, Keys, AttemptsOf;
  }

  lemma PruneBudget(s: State, now: int, writes: nat, txHash: TxHash, opts: Options)
    requires InBudget(s, txHash, opts)
    requires forall i :: |s.memory.dead| <= i < |Prune(s.memory, now, opts).dead| ==>
               Prune(s.memory, now, opts).dead[i].entry.paymentTxHash != txHash
    ensures var s' := PruneStep(s, now, writes, opts).0;
            InBudget(s', txHash, opts) && AttemptsOf(s'.memory.items, txHash) == AttemptsOf(s.memory.items, txHash)
  {
    hide Unique, Keys, Find, Survivors, AgedOut;
    SurvivorsUnique(s.memory.items, now, opts);
    StillThere(s.memory, now, opts, txHash);
    FlushBudget(s, Prune(s.memory, now, opts), writes, txHash, opts);
  }

  lemma EnqueueBudget(s: State, entry: Entry, now: int, pruneWrites: nat, writes: nat, txHash: TxHash, opts: Options)
    requires InBudget(s, txHash, opts)
    requires StaysLive(s, EnqueueOp(entry, now, pruneWrites, writes), txHash, opts)
    ensures var s' := EnqueueStep(s, entry, now, pruneWrites, writes, opts).0;
            InBudget(s', txHash, opts) && AttemptsOf(s'.memory.items, txHash) == AttemptsOf(s.memory.items, txHash)
  {
    hide Unique, Keys, Find, SetItem, Survivors, AgedOut;
    NothingLeft(s.memory.items, now, opts);
    PruneBudget(s, now, pruneWrites, txHash, opts);
    var (pruned, reached) := PruneStep(s, now, pruneWrites, opts);
    if reached {
      SetItemUnique(pruned.memory.items, Charged(pruned.memory.items, entry));
      FlushBudget(pruned, Insert(pruned.memory, entry), writes, txHash, opts);
    }
  }

  lemma FailBudget(
    s: State, other: TxHash, terminal: bool, error: string, now: int, writes: nat, txHash: TxHash, opts: Options)
    requires InBudget(s, txHash, opts)
    requires StaysLive(s, FailOp(other, terminal, error, now, writes), txHash, opts)
    ensures var s' := FailStep(s, other, terminal, error, now, writes, opts).0;
            && InBudget(s', txHash, opts)
            && AttemptsOf(s'.memory.items, txHash)
               == AttemptsOf(s.memory.items, txHash) + if other == txHash then 1 else 0
  {
    hide Unique, Keys, Find, SetItem, Drop;
    var items := s.memory.items;
    var found := Find(items, other);
    if found.Some? {
      DropOne(items, other);
      DropKeys(items, other);
      SetItemUnique(items, Blamed(found.value, error));
      if other != txHash {
        FindDrop(items, other, txHash);
      }
      FlushBudget(s, Fail(s.memory, other, terminal, error, now, opts).0, writes, txHash, opts);
    }
  }

  lemma {:induction false} BudgetStep(s: State, op: Op, txHash: TxHash, opts: Options)
    requires InBudget(s, txHash, opts) && StaysLive(s, op, txHash, opts)
    ensures var s' := Apply(s, op, opts).0;
            && InBudget(s', txHash, opts)
            && AttemptsOf(s'.memory.items, txHash)
               == if op.CrashOp? then AttemptsOf(s.disk.live, txHash)
                  else AttemptsOf(s.memory.items, txHash) + if op.FailOp? && op.txHash == txHash then 1 else 0
  {
    hide Unique, Keys, Find, Drop, Survivors, AgedOut;
    match op
    case EnqueueOp(entry, now, pruneWrites, writes) => EnqueueBudget(s, entry, now, pruneWrites, writes, txHash, opts);
    case PruneOp(now, writes) =>
      NothingLeft(s.memory.items, now, opts);
      PruneBudget(s, now, writes, txHash, opts);
    case RemoveOp(other, writes) =>
      if other in Keys(s.memory.items) {
        DropOne(s.memory.items, other);
        DropKeys(s.memory.items, other);
        FindDrop(s.memory.items, other, txHash);
        FlushBudget(s, Remove(s.memory, other), writes, txHash, opts);
      }
    case FailOp(other, terminal, error, now, writes) =>
      FailBudget(s, other, terminal, error, now, writes, txHash, opts);
    case CrashOp =>
  }

  lemma NothingLeft(items: seq<Entry>, now: int, opts: Options)
    ensures AgedOut(items, now, opts) == [] ==> Survivors(items, now, opts) == items
  {
    if AgedOut(items, now, opts) == [] {
      NoneAged(items, now, opts);
    }
  }

  /** A crash between the two writes of a failure does forget it. */
  lemma {:induction false} TornWriteForgets(entry: Entry, error: string, now: int, opts: Options)
    requires entry.attempts + 1 < opts.maxAttempts
    ensures var s := State(Queue([entry], []), Disk([], [entry]));
            var ops := [FailOp(entry.paymentTxHash, false, error, now, 1), CrashOp];
            && FailuresOf(ops, entry.paymentTxHash) == 1 == Forgotten(s, ops, entry.paymentTxHash, opts)
            && RunFrom(s, ops[..1], opts).memory.items == [Blamed(entry, error)]
            && RunFrom(s, ops, opts).memory.items == [entry]
  {
    var s := State(Queue([entry], []), Disk([], [entry]));
    var fail := FailOp(entry.paymentTxHash, false, error, now, 1);
    var ops := [fail, CrashOp];
    assert ops[..1] == [fail] && [fail][..0] == [];
    assert FailuresOf([fail], entry.paymentTxHash) == 1;
    assert Forgotten(s, [fail], entry.paymentTxHash, opts) == 0;
    assert RunFrom(s, [fail], opts) == Apply(s, fail, opts).0;
    assert [entry][1..] == [];
  }

  // ---- what a failure does -----------------------------------------------------------------

  /** The entry as a failure leaves it: one attempt more, and the error, cut to five hundred. */
  ghost predicate IsCharged(e: Entry, before: Entry, error: string) {
    && e.attempts == before.attempts + 1
    && e.(attempts := 0, lastError := "") == before.(attempts := 0, lastError := "")
    && e.lastError <= error && (|error| <= 500 ==> e.lastError == error) && (|error| > 500 ==> |e.lastError| == 500)
  }

  /** A failure of a known entry dead-letters it exactly when it is terminal or spends the budget, under
      the reason that holds, and otherwise keeps it charged; a failure of an unknown one does nothing. */
  lemma {:induction false} FailsExactly(
    q: Queue, txHash: TxHash, terminal: bool, error: string, now: int, opts: Options)
    requires Unique(q.items)
    ensures var (q', outcome) := Fail(q, txHash, terminal, error, now, opts);
            var found := Find(q.items, txHash);
            && (outcome == Unknown <==> txHash !in Keys(q.items))
            && (outcome == Unknown ==> q' == q)
            && (found.Some? ==>
                  && (outcome == DeadLettered <==> terminal || found.value.attempts + 1 >= opts.maxAttempts)
                  && (outcome == DeadLettered ==>
                        && txHash !in Keys(q'.items) && |q'.dead| == |q.dead| + 1 && q.dead <= q'.dead
                        && var d := q'.dead[|q.dead|];
                           && IsCharged(d.entry, found.value, error) && d.deadLetteredAt == now
                           && d.reason == if terminal then TerminalFailure(d.entry.lastError)
                                          else GaveUp(d.entry.attempts, d.entry.lastError))
                  && (outcome == Retrying ==>
                        && q'.dead == q.dead && Find(q'.items, txHash).Some?
                        && IsCharged(Find(q'.items, txHash).value, found.value, error)))
            && (forall other :: other != txHash ==> Find(q'.items, other) == Find(q.items, other))
  {
    hide Unique, Keys, SetItem, Drop, Find;
    DropKeys(q.items, txHash);
    forall other | other != txHash
      ensures Find(Drop(q.items, txHash), other) == Find(q.items, other)
    {
      FindDrop(q.items, txHash, other);
    }
  }
}
