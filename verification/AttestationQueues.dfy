/** The queue class of packages/middleware/src/attestation-queue.ts with the two-file
    persistence of packages/middleware/src/attestation-queue-file.ts. */
module AttestationQueues {
  import opened Basics
  import opened ChainLedger
  import opened PendingQueue

  datatype QueueError = BoundsNotPositive | WriteThrew

  datatype Stats = Counters(pending: nat, oldestPendingAgeMs: int, deadLettered: nat)

  // ---- the two files -------------------------------------------------------------------------

  /** A file of rows, with a running total beside them; a row of another shape than expected is
      `None`. Missing, corrupt and unrecognized files all read as `Unreadable`. */
  datatype File<+T> = Unreadable | Readable(total: int, rows: seq<Option<T>>)

  function RowsOf<T>(file: File<T>): seq<Option<T>> {
    if file.Readable? then file.rows else []
  }

  /** The entries a live file yields: a later row replaces an earlier one with its key. */
  function LoadedItems(rows: seq<Option<Entry>>): seq<Entry> {
    if rows == [] then [] else
    var before := LoadedItems(rows[..|rows| - 1]);
    match rows[|rows| - 1]
    case Some(e) => SetItem(before, e)
    case None => before
  }

  /** The log a sidecar yields. */
  function LoadedLog(rows: seq<Option<DeadLetter>>): seq<DeadLetter> {
    if rows == [] then [] else
    var before := LoadedLog(rows[..|rows| - 1]);
    match rows[|rows| - 1]
    case Some(d) => before + [d]
    case None => before
  }

  function TotalOf(sidecar: File<DeadLetter>): (total: nat)
    ensures total >= |LoadedLog(RowsOf(sidecar))|
  {
    var stored, retained := if sidecar.Readable? then sidecar.total else 0, |LoadedLog(RowsOf(sidecar))|;
    if stored > retained then stored else retained
  }

  function AllRows<T>(values: seq<T>): seq<Option<T>> {
    seq(|values|, i requires 0 <= i < |values| => Some(values[i]))
  }

  ghost predicate EndsWith<T>(whole: seq<T>, part: seq<T>) {
    |part| <= |whole| && whole[|whole| - |part|..] == part
  }

  /** A history the sidecar may come from: as long as its total, ending in its log. */
  ghost predicate Tells(sidecar: File<DeadLetter>, history: seq<DeadLetter>) {
    |history| == TotalOf(sidecar) && EndsWith(history, LoadedLog(RowsOf(sidecar)))
  }

  /** Every sidecar, readable or not, comes from some history. */
  lemma {:induction false} SomeHistoryFits(sidecar: File<DeadLetter>, any: DeadLetter)
    ensures exists history :: Tells(sidecar, history)
  {
    var log := LoadedLog(RowsOf(sidecar));
    var history := seq(TotalOf(sidecar) - |log|, i => any) + log;
    assert history[|history| - |log|..] == log;
    assert Tells(sidecar, history);
  }

  /** The last readable row of its key. */
  ghost predicate IsLastRow(rows: seq<Option<Entry>>, i: nat, e: Entry) {
    && i < |rows| && rows[i] == Some(e)
    && forall j :: i < j < |rows| && rows[j].Some? ==> rows[j].value.paymentTxHash != e.paymentTxHash
  }

  /** What any live file yields: of the rows that can be read, the last of each key. */
  lemma {:induction false} ItemsLoadExactly(rows: seq<Option<Entry>>, e: Entry)
    ensures e in LoadedItems(rows) <==> exists i: nat :: IsLastRow(rows, i, e)
  {
    if rows == [] {
      NoRows(e);
    } else {
      hide LoadedItems, IsLastRow;
      var front, last := rows[..|rows| - 1], rows[|rows| - 1];
      ItemsLoadExactly(front, e);
      LoadsOneMore(front, last, e);
      RowsGrow(front, last, e);
      assert rows == front + [last];
    }
  }

  lemma NoRows(e: Entry)
    ensures e !in LoadedItems([]) && forall i: nat :: !IsLastRow([], i, e)
  {
  }

  lemma LoadsOneMore(front: seq<Option<Entry>>, last: Option<Entry>, e: Entry)
    ensures e in LoadedItems(front + [last]) <==>
              || last == Some(e)
              || ((last.Some? ==> last.value.paymentTxHash != e.paymentTxHash) && e in LoadedItems(front))
  {
    hide SetItem, Unique;
    assert (front + [last])[..|front|] == front;
    ItemsUnique(front);
    if last.Some? {
      SetItemHolds(LoadedItems(front), last.value);
    }
  }

  lemma RowsGrow(front: seq<Option<Entry>>, last: Option<Entry>, e: Entry)
    ensures (exists i: nat :: IsLastRow(front + [last], i, e)) <==>
              || last == Some(e)
              || ((last.Some? ==> last.value.paymentTxHash != e.paymentTxHash)
                  && exists i: nat :: IsLastRow(front, i, e))
  {
    var rows := front + [last];
    if i: nat :| IsLastRow(rows, i, e) {
      assert rows[|front|] == last && forall j :: 0 <= j < |front| ==> rows[j] == front[j];
      assert forall j :: 0 <= j < |front| ==> front[j] == rows[j];
      assert i < |front| ==> IsLastRow(front, i, e);
    }
    if last == Some(e) {
      assert IsLastRow(rows, |front|, e);
    } else if i: nat :| IsLastRow(front, i, e) {
      if last.Some? ==> last.value.paymentTxHash != e.paymentTxHash {
        assert IsLastRow(rows, i, e);
      }
    }
  }

  /** What any sidecar yields: its readable rows, in their order. */
  lemma {:induction false} LogLoadsExactly(rows: seq<Option<DeadLetter>>, d: DeadLetter)
    ensures LoadedLog(rows + [Some(d)]) == LoadedLog(rows) + [d] && LoadedLog(rows + [None]) == LoadedLog(rows)
    ensures LoadedLog([]) == []
  {
    assert (rows + [Some(d)])[..|rows|] == rows && (rows + [None])[..|rows|] == rows;
  }

  lemma {:induction false} ItemsUnique(rows: seq<Option<Entry>>)
    ensures Unique(LoadedItems(rows))
  {
    if rows != [] {
      var before := LoadedItems(rows[..|rows| - 1]);
      ItemsUnique(rows[..|rows| - 1]);
      match rows[|rows| - 1]
      case Some(e) => SetItemUnique(before, e);
      case None =>
    }
  }

  lemma LastIsApart(items: seq<Entry>)
    requires Unique(items) && items != []
    ensures var before, last := items[..|items| - 1], items[|items| - 1];
            && items == before + [last] && Unique(before)
            && forall i :: 0 <= i < |before| ==> before[i].paymentTxHash != last.paymentTxHash
  {
  }

  lemma FrontRows<T>(values: seq<T>)
    requires values != []
    ensures AllRows(values) != [] && AllRows(values)[|values| - 1] == Some(values[|values| - 1])
    ensures |AllRows(values)| == |values| && AllRows(values)[..|values| - 1] == AllRows(values[..|values| - 1])
  {
  }

  /** Reading back the rows of entries gives the entries. */
  lemma {:induction false} ItemsReadBack(items: seq<Entry>)
    requires Unique(items)
    ensures LoadedItems(AllRows(items)) == items
  {
    if items != [] {
      hide SetItem, Unique, AllRows;
      var before, last := items[..|items| - 1], items[|items| - 1];
      LastIsApart(items);
      ItemsReadBack(before);
      NewItemIsLast(before, last);
      FrontRows(items);
    }
  }

  lemma {:induction false} NewItemIsLast(items: seq<Entry>, entry: Entry)
    requires forall i :: 0 <= i < |items| ==> items[i].paymentTxHash != entry.paymentTxHash
    ensures SetItem(items, entry) == items + [entry]
  {
    if items != [] {
      NewItemIsLast(items[1..], entry);
      assert items + [entry] == [items[0]] + (items[1..] + [entry]);
    }
  }

  lemma {:induction false} LogReadsBack(log: seq<DeadLetter>)
    ensures LoadedLog(AllRows(log)) == log
  {
    if log != [] {
      LogReadsBack(log[..|log| - 1]);
      assert AllRows(log)[..|log| - 1] == AllRows(log[..|log| - 1]);
      assert log == log[..|log| - 1] + [log[|log| - 1]];
    }
  }

  lemma LastNIsCut<T>(s: seq<T>, n: nat)
    ensures LastN(s, n) == if |s| > n then s[|s| - n..] else s
  {
  }

  lemma DropApart(items: seq<Entry>, txHash: TxHash)
    requires Unique(items)
    ensures Unique(Drop(items, txHash))
  {
    if txHash in Keys(items) {
      DropOne(items, txHash);
    }
  }

  /** The end of a sequence, if it is as long as the cap allows, is its newest part. */
  lemma FullEndIsNewest<T>(whole: seq<T>, part: seq<T>, n: nat)
    requires EndsWith(whole, part)
    ensures |part| == n ==> part == LastN(whole, n)
  {
  }

  lemma EndsWithPush<T>(whole: seq<T>, part: seq<T>, x: T, n: nat)
    requires EndsWith(whole, part)
    ensures EndsWith(whole + [x], LastN(part + [x], n))
  {
    var all, kept := whole + [x], LastN(part + [x], n);
    assert all[|all| - |part| - 1..] == part + [x];
    assert all[|all| - |kept|..] == all[|all| - |part| - 1..][|part| + 1 - |kept|..];
  }

  method ReadItems(rows: seq<Option<Entry>>) returns (items: seq<Entry>)
    ensures items == LoadedItems(rows) && Unique(items)
  {
    items := [];
    for i := 0 to |rows|
      invariant items == LoadedItems(rows[..i])
    {
      assert rows[..i + 1][..i] == rows[..i];
      if rows[i].Some? {
        items := SetItem(items, rows[i].value);
      }
    }
    assert rows[..|rows|] == rows;
    ItemsUnique(rows);
  }

  method ReadLog(rows: seq<Option<DeadLetter>>) returns (log: seq<DeadLetter>)
    ensures log == LoadedLog(rows)
  {
    log := [];
    for i := 0 to |rows|
      invariant log == LoadedLog(rows[..i])
    {
      assert rows[..i + 1][..i] == rows[..i];
      if rows[i].Some? {
        log := log + [rows[i].value];
      }
    }
    assert rows[..|rows|] == rows;
  }

  /** A parameter `writes` counts how many of a flush's two file writes happen before one
      throws; two or more is a complete flush. `history` is every dead letter of the queue
      and `written` those of the last sidecar write. */
  class FileAttestationQueue {
    var items: seq<Entry>
    var deadLetterLog: seq<DeadLetter>
    var deadLetteredTotal: nat
    var sidecar: File<DeadLetter>
    var liveFile: File<Entry>
    const opts: Options
    ghost var history: seq<DeadLetter>
    ghost var written: seq<DeadLetter>

    /** The log is the end of the history, and the total its length. */
    ghost predicate Valid()
      reads this
    {
      && opts.Positive()
      && Unique(items)
      && EndsWith(history, deadLetterLog)
      && deadLetteredTotal == |history|
      && Tells(sidecar, written)
    }

    /** The log, and the one in the sidecar, hold as many letters as they may. A sidecar written
        under another cap need not. */
    ghost predicate LogsFull()
      reads this
    {
      && opts.maxDeadLetters >= 0
      && deadLetterLog == LastN(history, opts.maxDeadLetters)
      && LoadedLog(RowsOf(sidecar)) == LastN(written, opts.maxDeadLetters)
    }

    ghost function Contents(): State
      reads this
    {
      State(Queue(items, history), Disk(written, LoadedItems(RowsOf(liveFile))))
    }

    /** Opens the queue on any two files; `written` is the history the sidecar comes from. */
    constructor (opts: Options, sidecar: File<DeadLetter>, liveFile: File<Entry>, ghost written: seq<DeadLetter>)
      requires opts.Positive() && Tells(sidecar, written)
      ensures Valid() && this.opts == opts && this.sidecar == sidecar && this.liveFile == liveFile
      ensures Contents() == Reloaded(Disk(written, LoadedItems(RowsOf(liveFile))))
      ensures LogsFull() <==> LoadedLog(RowsOf(sidecar)) == LastN(written, opts.maxDeadLetters)
    {
      this.opts := opts;
      this.sidecar := sidecar;
      this.liveFile := liveFile;
      var loaded := ReadItems(RowsOf(liveFile));
      items := loaded;
      var log := ReadLog(RowsOf(sidecar));
      deadLetterLog := log;
      var stored := if sidecar.Readable? then sidecar.total else 0;
      deadLetteredTotal := if stored > |log| then stored else |log|;
      this.written := written;
      history := written;
    }

    static method Open(
      opts: Options, sidecar: File<DeadLetter>, liveFile: File<Entry>, ghost written: seq<DeadLetter>)
      returns (result: Result<FileAttestationQueue, QueueError>)
      requires Tells(sidecar, written)
      ensures result.Ok? <==> opts.Positive()
      ensures result.Ok? ==> fresh(result.value) && result.value.Valid()
                             && result.value.Contents() == Reloaded(Disk(written, LoadedItems(RowsOf(liveFile))))
    {
      if opts.maxAttempts < 1 || opts.maxAgeMs <= 0 || opts.maxDeadLetters < 1 {
        return Err(BoundsNotPositive);
      }
      var queue := new FileAttestationQueue(opts, sidecar, liveFile, written);
      result := Ok(queue);
    }

    /** The sidecar is written first. */
    method Persist(writes: nat) returns (ok: bool)
      requires Valid()
      modifies this`sidecar, this`liveFile, this`written
      ensures Valid() && (old(LogsFull()) ==> LogsFull())
      ensures Contents() == Flush(old(Contents()), writes)
      ensures ok <==> writes >= 2
    {
      LogReadsBack(deadLetterLog);
      ItemsReadBack(items);
      if writes >= 1 {
        sidecar := Readable(deadLetteredTotal, AllRows(deadLetterLog));
        written := history;
      }
      if writes >= 2 {
        liveFile := Readable(0, AllRows(items));
      }
      ok := writes >= 2;
    }

    /** An entry becomes a dead letter: the newest of a log that is cut to its cap. */
    method MoveToDeadLetters(entry: Entry, now: int, reason: Reason)
      requires Valid()
      modifies this`items, this`deadLetterLog, this`deadLetteredTotal, this`history
      ensures Valid() && (old(LogsFull()) ==> LogsFull())
      ensures Queue(items, history) == Bury(old(Queue(items, history)), entry, now, reason)
      ensures deadLetterLog == LastN(old(deadLetterLog) + [DeadLetter(entry, now, reason)], opts.maxDeadLetters)
      ensures |old(deadLetterLog)| + 1 >= opts.maxDeadLetters ==> deadLetterLog == LastN(history, opts.maxDeadLetters)
    {
      hide Unique, Keys, Drop, LastN, EndsWith, Tells, LoadedLog, LoadedItems;
      DropApart(items, entry.paymentTxHash);
      LastNIsCut(deadLetterLog + [DeadLetter(entry, now, reason)], opts.maxDeadLetters);
      LastNPush(history, DeadLetter(entry, now, reason), opts.maxDeadLetters);
      EndsWithPush(history, deadLetterLog, DeadLetter(entry, now, reason), opts.maxDeadLetters);
      items := Drop(items, entry.paymentTxHash);
      deadLetterLog := deadLetterLog + [DeadLetter(entry, now, reason)];
      if |deadLetterLog| > opts.maxDeadLetters {
        deadLetterLog := deadLetterLog[|deadLetterLog| - opts.maxDeadLetters..];
      }
      FullEndIsNewest(history + [DeadLetter(entry, now, reason)], deadLetterLog, opts.maxDeadLetters);
      deadLetteredTotal := deadLetteredTotal + 1;
      history := history + [DeadLetter(entry, now, reason)];
    }

    method MoveExpired(now: int) returns (count: nat)
      requires Valid()
      modifies this`items, this`deadLetterLog, this`deadLetteredTotal, this`history
      ensures Valid() && (old(LogsFull()) ==> LogsFull())
      ensures Queue(items, history) == Prune(old(Queue(items, history)), now, opts)
      ensures count == |history| - |old(history)|
    {
      hide Unique, LastN, EndsWith, Tells, LoadedLog, PrunedUpTo, Prune;
      var cutoff := now - opts.maxAgeMs;
      var snapshot := items;
      count := 0;
      var i := 0;
      PruneEnds(Queue(items, history), now, opts);
      while i < |snapshot|
        invariant 0 <= i <= |snapshot|
        invariant Valid() && (old(LogsFull()) ==> LogsFull())
        invariant Queue(items, history) == PrunedUpTo(old(history), snapshot, i, now, opts)
        invariant count == |history| - |old(history)|
      {
        var entry := snapshot[i];
        PruneTurn(old(history), snapshot, i, now, opts);
        if entry.enqueuedAt <= cutoff {
          MoveToDeadLetters(entry, now, PrunedByAge(now - entry.enqueuedAt));
          count := count + 1;
        }
        i := i + 1;
      }
    }

    method PruneExpired(now: int, writes: nat) returns (moved: Result<nat, QueueError>)
      requires Valid()
      modifies this
      ensures Valid() && (old(LogsFull()) ==> LogsFull())
      ensures Contents() == PruneStep(old(Contents()), now, writes, opts).0
      ensures moved.Ok? <==> PruneStep(old(Contents()), now, writes, opts).1
      ensures moved.Ok? ==> moved.value == |old(items)| - |items|
    {
      hide Unique, LastN, EndsWith, Tells, LoadedLog, LoadedItems, Survivors, AgedOut, DeadKeys, Keys;
      PruneParts(items, now, opts);
      if AgedOut(items, now, opts) == [] {
        NoneAged(items, now, opts);
      }
      var count := MoveExpired(now);
      var ok := true;
      if count > 0 {
        ok := Persist(writes);
      }
      moved := if ok then Ok(count) else Err(WriteThrew);
    }

    method Enqueue(entry: Entry, now: int, pruneWrites: nat, writes: nat) returns (outcome: Result<(), QueueError>)
      requires Valid()
      modifies this
      ensures Valid() && (old(LogsFull()) ==> LogsFull())
      ensures Contents() == EnqueueStep(old(Contents()), entry, now, pruneWrites, writes, opts).0
      ensures outcome.Ok? <==> EnqueueStep(old(Contents()), entry, now, pruneWrites, writes, opts).1
    {
      hide Unique, LastN, EndsWith, Tells, LoadedLog, LoadedItems, Keys, Find, SetItem, Survivors, AgedOut;
      var pruned := PruneExpired(now, pruneWrites);
      if pruned.Err? {
        return Err(WriteThrew);
      }
      var existing := Find(items, entry.paymentTxHash);
      var charged := if existing.Some? then entry.(attempts := existing.value.attempts) else entry;
      SetItemUnique(items, charged);
      items := SetItem(items, charged);
      var ok := Persist(writes);
      outcome := if ok then Ok(()) else Err(WriteThrew);
    }

    method Remove(txHash: TxHash, writes: nat) returns (outcome: Result<(), QueueError>)
      requires Valid()
      modifies this
      ensures Valid() && (old(LogsFull()) ==> LogsFull())
      ensures Contents() == RemoveStep(old(Contents()), txHash, writes).0
      ensures outcome.Ok? <==> RemoveStep(old(Contents()), txHash, writes).1
    {
      outcome := Ok(());
      if txHash in Keys(items) {
        DropOne(items, txHash);
        items := Drop(items, txHash);
        var ok := Persist(writes);
        outcome := if ok then Ok(()) else Err(WriteThrew);
      }
    }

    method List(now: int, writes: nat) returns (pending: Result<seq<Entry>, QueueError>)
      requires Valid()
      modifies this
      ensures Valid() && (old(LogsFull()) ==> LogsFull())
      ensures Contents() == PruneStep(old(Contents()), now, writes, opts).0
      ensures pending == if PruneStep(old(Contents()), now, writes, opts).1 then Ok(items) else Err(WriteThrew)
    {
      var pruned := PruneExpired(now, writes);
      pending := if pruned.Ok? then Ok(items) else Err(WriteThrew);
    }

    method RecordFailure(txHash: TxHash, terminal: bool, error: string, now: int, writes: nat)
      returns (outcome: Result<Outcome, QueueError>)
      requires Valid()
      modifies this
      ensures Valid() && (old(LogsFull()) ==> LogsFull())
      ensures Contents() == FailStep(old(Contents()), txHash, terminal, error, now, writes, opts).0
      ensures outcome == match FailStep(old(Contents()), txHash, terminal, error, now, writes, opts).1
                         case Ok(o) => Ok(o)
                         case Err(_) => Err(WriteThrew)
    {
      hide Unique, LastN, EndsWith, Tells, LoadedLog, LoadedItems, Keys, Find, SetItem, Drop;
      var found := Find(items, txHash);
      if found.None? {
        return Ok(Unknown);
      }
      var entry := found.value;
      entry := entry.(attempts := entry.attempts + 1);
      entry := entry.(lastError := if |error| > MAX_ERROR_LENGTH then error[..MAX_ERROR_LENGTH] else error);
      outcome := Ok(DeadLettered);
      if terminal {
        MoveToDeadLetters(entry, now, TerminalFailure(entry.lastError));
      } else if entry.attempts >= opts.maxAttempts {
        MoveToDeadLetters(entry, now, GaveUp(entry.attempts, entry.lastError));
      } else {
        SetItemUnique(items, entry);
        items := SetItem(items, entry);
        outcome := Ok(Retrying);
      }
      var ok := Persist(writes);
      if !ok {
        outcome := Err(WriteThrew);
      }
    }

    method DeadLetters() returns (log: seq<DeadLetter>)
      requires Valid()
      ensures EndsWith(history, log)
      ensures LogsFull() ==> log == LastN(history, opts.maxDeadLetters)
    {
      log := deadLetterLog;
    }

    /** The counters an operator watches: the total counts the letters the log has dropped too. */
    method Stats(now: int, writes: nat) returns (stats: Result<Stats, QueueError>)
      requires Valid()
      modifies this
      ensures Valid() && (old(LogsFull()) ==> LogsFull())
      ensures Contents() == PruneStep(old(Contents()), now, writes, opts).0
      ensures stats.Ok? <==> PruneStep(old(Contents()), now, writes, opts).1
      ensures stats.Ok? ==>
                && stats.value.pending == |items|
                && stats.value.deadLettered == |history|
                && 0 <= stats.value.oldestPendingAgeMs
                && (forall e :: e in items ==> now - e.enqueuedAt <= stats.value.oldestPendingAgeMs < opts.maxAgeMs)
                && (stats.value.oldestPendingAgeMs > 0 ==>
                    exists e :: e in items && now - e.enqueuedAt == stats.value.oldestPendingAgeMs)
    {
      hide Unique, LastN, EndsWith, Tells, LoadedLog, LoadedItems;
      PruneKeeps(Queue(items, history), now, opts);
      if AgedOut(items, now, opts) == [] {
        NoneAged(items, now, opts);
      }
      var pruned := PruneExpired(now, writes);
      if pruned.Err? {
        return Err(WriteThrew);
      }
      var oldest := 0;
      var i := 0;
      while i < |items|
        invariant 0 <= i <= |items| && 0 <= oldest
        invariant forall k :: 0 <= k < i ==> now - items[k].enqueuedAt <= oldest
        invariant oldest > 0 ==> exists e :: e in items && now - e.enqueuedAt == oldest
      {
        var age := now - items[i].enqueuedAt;
        if age > oldest {
          oldest := age;
          assert items[i] in items;
        }
        i := i + 1;
      }
      assert forall e :: e in items ==> now - e.enqueuedAt < opts.maxAgeMs;
      stats := Ok(Counters(|items|, oldest, deadLetteredTotal));
    }
  }
}
