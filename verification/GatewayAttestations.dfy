/** How a delivered call gets onto the chain: what is enqueued for it, what its attempts do, what a
    boot replays, and that all this together records it. */
module GatewayAttestations {
  import opened Basics
  import opened ChainLedger
  import opened Gateway
  import opened GatewaySafety
  import opened GatewayPayments
  import opened GatewayProgress
  import opened GatewaySteps
  import I = Invoices
  import Q = PendingQueue

  // ---- enqueuing --------------------------------------------------------------------------------

  /** The payer is none of the service's own accounts. */
  predicate IsStranger(payer: Account, service: Service) {
    payer !in {service.owner, service.paymentTarget, service.attestor}
  }

  predicate NoneExpired(items: seq<Q.Entry>, now: int, maxAgeMs: int) {
    forall e :: e in items ==> now - e.enqueuedAt < maxAgeMs
  }

  /** The entry for a call that was answered with this status. */
  ghost predicate IsEntryFor(e: Q.Entry, r: Request, payment: Transfer, status: nat, now: int) {
    && e.paymentTxHash == payment.txHash && e.serviceId == r.serviceId && e.nonce == payment.nonce
    && e.payer == payment.from && (e.success <==> 200 <= status < 300) && e.enqueuedAt == now
  }

  lemma StrangersAreOthers(payer: Account, service: Service)
    ensures IsStranger(payer, service) <==> !IsSelfPayment(payer, service)
  {
  }

  /** An enqueue with its writes in order leaves the entry in memory and in the live file. */
  lemma EnqueuedIsHeld(queue: Q.State, entry: Q.Entry, now: int, pruneWrites: nat, writes: nat, opts: Q.Options)
    ensures var (queue', ok) := Q.EnqueueStep(queue, entry, now, pruneWrites, writes, opts);
            && (ok <==> writes >= 2 && (pruneWrites >= 2 || NoneExpired(queue.memory.items, now, opts.maxAgeMs)))
            && (ok ==>
                  && queue'.disk == Q.Disk(queue'.memory.dead, queue'.memory.items)
                  && exists e :: e in queue'.memory.items && e.(attempts := 0) == entry.(attempts := 0))
  {
    hide Q.SetItem, Q.Find, Q.Keys, Q.AgedOut, Q.Survivors;
    AgedMeansExpired(queue.memory.items, now, opts);
    var pruned := Q.PruneStep(queue, now, pruneWrites, opts).0.memory;
    var charged := Q.Charged(pruned.items, entry);
    FoundIsIn(Q.SetItem(pruned.items, charged), charged);
  }

  /** Whatever the upstream answered, a call paid by a stranger is enqueued, with its own flag, in
      memory and in the live file, and its first attempt is made ready for the service's attestor.
      That fails exactly when a write throws, and then no attempt starts. */
  lemma {:induction false} ScheduleEnqueues(
    cfg: Config, s: State, id: nat, task: nat, pruneWrites: nat, queueWrites: nat)
    requires id in s.requests && s.requests[id].phase.Sent? && task !in s.tasks
    requires IsStranger(s.requests[id].phase.settled.from, s.requests[id].service)
    ensures var s' := Next(cfg, s, Schedule(id, task, pruneWrites, queueWrites));
            var r := s.requests[id];
            var payment, status := r.phase.settled, r.phase.status;
            var ok := queueWrites >= 2
                      && (pruneWrites >= 2 || NoneExpired(s.queue.memory.items, s.now, cfg.queue.maxAgeMs));
            && id in s'.requests && s'.requests[id].phase == Finished
            && (task in s'.tasks <==> ok)
            && (!ok ==> s'.tasks == s.tasks && s'.enqueued == s.enqueued)
            && (ok ==>
                  && s'.enqueued == s.enqueued + {(r.serviceId, payment.txHash)}
                  && s'.queue.disk.live == s'.queue.memory.items && s'.queue.disk.dead == s'.queue.memory.dead
                  && (exists e :: e in s'.queue.memory.items && IsEntryFor(e, r, payment, status, s.now))
                  && var t := s'.tasks[task];
                     && s'.tasks == s.tasks[task := t]
                     && IsEntryFor(t.entry, r, payment, status, s.now)
                     && t.signer == r.service.attestor && t.attempt == 1 && t.phase == Ready)
  {
    hide Q.EnqueueStep, NoneExpired, IsStranger;
    StrangersAreOthers(s.requests[id].phase.settled.from, s.requests[id].service);
    var r := s.requests[id];
    var entry := EntryOf(r, r.phase.settled, r.phase.status, s.now);
    EnqueuedIsHeld(s.queue, entry, s.now, pruneWrites, queueWrites, cfg.queue);
    var (queue', ok) := Q.EnqueueStep(s.queue, entry, s.now, pruneWrites, queueWrites, cfg.queue);
    if ok {
      var e :| e in queue'.memory.items && e.(attempts := 0) == entry.(attempts := 0);
      assert IsEntryFor(e, r, r.phase.settled, r.phase.status, s.now);
    }
  }

  lemma FoundIsIn(items: seq<Q.Entry>, entry: Q.Entry)
    ensures Q.Find(items, entry.paymentTxHash) == Some(entry) ==> entry in items
  {
  }

  lemma AgedMeansExpired(items: seq<Q.Entry>, now: int, opts: Q.Options)
    ensures Q.AgedOut(items, now, opts) == [] <==> NoneExpired(items, now, opts.maxAgeMs)
  {
    Q.PruneParts(items, now, opts);
    if Q.AgedOut(items, now, opts) == [] {
      Q.NoneAged(items, now, opts);
      assert forall e :: e in items ==> !Q.Expired(e, now, opts);
    } else {
      assert Q.AgedOut(items, now, opts)[0] in Q.AgedOut(items, now, opts);
    }
  }

  /** A service's own account earns it nothing: no entry, no attempt, no change to the queue. */
  lemma {:induction false} OwnPaymentIsSkipped(
    cfg: Config, s: State, id: nat, task: nat, pruneWrites: nat, queueWrites: nat)
    requires id in s.requests && s.requests[id].phase.Sent? && task !in s.tasks
    requires !IsStranger(s.requests[id].phase.settled.from, s.requests[id].service)
    ensures var s' := Next(cfg, s, Schedule(id, task, pruneWrites, queueWrites));
            && s'.(requests := s.requests) == s
            && id in s'.requests && s'.requests[id] == s.requests[id].(phase := Finished)
  {
  }

  // ---- attempts -----------------------------------------------------------------------------------

  /** An attempt whose answer is a refusal, or is not heard, leaves the queue alone. It is made again,
      as it was, until it has been made as often as configured. */
  lemma {:induction false} FailedAttemptIsRetried(cfg: Config, s: State, task: nat, heard: bool, queueWrites: nat)
    requires task in s.tasks && s.tasks[task].phase.Awaiting?
    ensures var s' := Next(cfg, s, Settle(task, heard, queueWrites));
            var t := s.tasks[task];
            if heard && t.phase.recorded then
              && task !in s'.tasks && t.entry.paymentTxHash !in Q.Keys(s'.queue.memory.items)
              && s'.queue.memory.dead == s.queue.memory.dead
              && (forall e :: e in s.queue.memory.items && e.paymentTxHash != t.entry.paymentTxHash ==>
                    e in s'.queue.memory.items)
            else
              && s'.queue == s.queue && s'.chain == s.chain
              && (task in s'.tasks <==> t.attempt < cfg.attestationMaxAttempts)
              && (task in s'.tasks ==>
                    var t' := s'.tasks[task];
                    t'.entry == t.entry && t'.signer == t.signer && t'.attempt == t.attempt + 1 && t'.phase == Ready)
  {
    Q.DropKeys(s.queue.memory.items, s.tasks[task].entry.paymentTxHash);
  }

  /** An attempt that does not reach the chain changes nothing there and awaits its failure. */
  lemma {:induction false} LostAttemptChangesNothing(cfg: Config, s: State, task: nat)
    requires task in s.tasks && s.tasks[task].phase.Ready?
    ensures var s' := Next(cfg, s, Submit(task, false));
            s'.chain == s.chain && s'.queue == s.queue && task in s'.tasks
            && s'.tasks[task] == s.tasks[task].(phase := Awaiting(false))
  {
  }

  /** The chain after one more record of this entry's service, payment and flag. */
  ghost predicate OneMore(before: seq<Attestation>, after: seq<Attestation>, e: Q.Entry) {
    && |after| == |before| + 1 && after[..|before|] == before
    && var a := after[|before|];
       a.serviceId == e.serviceId && a.paymentTxHash == e.paymentTxHash && a.success == e.success
  }

  /** What an attempt at a welcoming chain records: its own entry, once. */
  lemma {:induction false} AttemptRecords(cfg: Config, s: State, task: nat)
    requires task in s.tasks && s.tasks[task].phase.Ready?
    requires Welcomes(s.chain, s.tasks[task].entry.serviceId, s.tasks[task].signer)
    ensures var s' := Attempted(cfg, s, task);
            var e := s.tasks[task].entry;
            if Attested(s.chain.attested, e.serviceId, e.paymentTxHash) then s'.chain == s.chain
            else OneMore(s.chain.attested, s'.chain.attested, e)
  {
    hide Attested, Q.RemoveStep, Attempted;
    AttemptedIs(cfg, s, task);
  }

  /** And what it leaves in the queue: everything but its entry. */
  lemma {:induction false} AttemptDequeues(cfg: Config, s: State, task: nat)
    requires task in s.tasks && s.tasks[task].phase.Ready?
    requires Welcomes(s.chain, s.tasks[task].entry.serviceId, s.tasks[task].signer)
    ensures var s' := Attempted(cfg, s, task);
            var key := s.tasks[task].entry.paymentTxHash;
            && key !in Q.Keys(s'.queue.memory.items) && s'.queue.memory.dead == s.queue.memory.dead
            && (forall e :: e in s.queue.memory.items && e.paymentTxHash != key ==> e in s'.queue.memory.items)
            && (key in Q.Keys(s.queue.memory.items) ==> s'.queue.disk.live == s'.queue.memory.items)
  {
    hide Attempted, Welcomes, Q.Drop, Q.Keys;
    AttemptIsExact(cfg, s, task);
    Q.DropKeys(s.queue.memory.items, s.tasks[task].entry.paymentTxHash);
  }

  // ---- boots ----------------------------------------------------------------------------------------

  /** A boot starts exactly one attempt for each pending entry, successes and failures alike, whose
      service is known and whose look-up answers: for that very entry, signed by the service's
      attestor. Pending are the entries young enough. If the pruning's flush throws, none starts. */
  lemma {:induction false} BootReplays(cfg: Config, s: State, queueWrites: nat, unanswered: set<nat>)
    requires !s.up
    ensures var s' := Next(cfg, s, Boot(queueWrites, unanswered));
            var pending := s'.queue.memory.items;
            && s'.up && s'.chain == s.chain && s'.store == s.store
            && (forall e :: e in pending <==> e in s.queue.memory.items && s.now - e.enqueuedAt < cfg.queue.maxAgeMs)
            && (queueWrites < 2 && !NoneExpired(s.queue.memory.items, s.now, cfg.queue.maxAgeMs) ==> s'.tasks == map[])
            && (queueWrites >= 2 || NoneExpired(s.queue.memory.items, s.now, cfg.queue.maxAgeMs) ==>
                  && (forall i: nat :: i in s'.tasks <==>
                        i < |pending| && pending[i].serviceId in s.chain.services && i !in unanswered)
                  && (forall i: nat :: i in s'.tasks ==>
                        s'.tasks[i] == Task(pending[i], s.chain.services[pending[i].serviceId].attestor, 1, Ready)))
  {
    hide Q.Survivors, Q.AgedOut, Q.Keys, Q.DeadKeys, NoneExpired;
    Q.PruneParts(s.queue.memory.items, s.now, cfg.queue);
    Q.NothingLeft(s.queue.memory.items, s.now, cfg.queue);
    AgedMeansExpired(s.queue.memory.items, s.now, cfg.queue);
  }

  lemma {:induction false} SecondBootDoesNothing(cfg: Config, s: State, queueWrites: nat, unanswered: set<nat>)
    requires s.up
    ensures Next(cfg, s, Boot(queueWrites, unanswered)) == s
  {
  }

  /** The payment of the entry is on record, with the entry's own flag if it was not there before. */
  ghost predicate RecordedAs(before: seq<Attestation>, after: seq<Attestation>, e: Q.Entry) {
    && Attested(after, e.serviceId, e.paymentTxHash)
    && (!Attested(before, e.serviceId, e.paymentTxHash) ==>
          exists a :: a in after && a.serviceId == e.serviceId && a.paymentTxHash == e.paymentTxHash
                      && a.success == e.success)
  }

  lemma AttemptLeavesRecord(cfg: Config, s: State, task: nat)
    requires task in s.tasks && s.tasks[task].phase.Ready?
    requires Welcomes(s.chain, s.tasks[task].entry.serviceId, s.tasks[task].signer)
    ensures RecordedAs(s.chain.attested, Attempted(cfg, s, task).chain.attested, s.tasks[task].entry)
  {
    hide Attempted, Welcomes;
    AttemptRecords(cfg, s, task);
    AttemptIsExact(cfg, s, task);
    var s' := Attempted(cfg, s, task);
    if |s'.chain.attested| > |s.chain.attested| {
      assert s'.chain.attested[|s.chain.attested|] in s'.chain.attested;
    }
  }

  /** A pending entry that survived a crash, of a service known and active at boot whose look-up
      answers, is on record after one attempt, and no longer queued. */
  lemma {:induction false} ReplayedIsRecorded(cfg: Config, s: State, unanswered: set<nat>, i: nat)
    requires !s.up
    requires var pending := Next(cfg, s, Boot(2, unanswered)).queue.memory.items;
             && i < |pending| && i !in unanswered && pending[i].serviceId in s.chain.services
             && s.chain.services[pending[i].serviceId].active
    ensures var booted := Next(cfg, s, Boot(2, unanswered));
            var e := booted.queue.memory.items[i];
            && i in booted.tasks
            && var s' := Attempted(cfg, booted, i);
               && RecordedAs(s.chain.attested, s'.chain.attested, e)
               && e.paymentTxHash !in Q.Keys(s'.queue.memory.items)
               && e.paymentTxHash !in Q.Keys(s'.queue.disk.live)
  {
    hide Next, Attempted, RecordedAs;
    BootReplays(cfg, s, 2, unanswered);
    var booted := Next(cfg, s, Boot(2, unanswered));
    var e := booted.queue.memory.items[i];
    assert booted.tasks[i].entry == e;
    assert e.paymentTxHash in Q.Keys(booted.queue.memory.items);
    AttemptDequeues(cfg, booted, i);
    AttemptLeavesRecord(cfg, booted, i);
  }

  // ---- from the answer to the record ------------------------------------------------------------------

  /** In every run, an answered call of a stranger that is scheduled with all writes in order is on
      record after one attempt, with success exactly for a 2xx answer unless the payment was recorded
      before, and no longer queued; provided its service is still active. */
  lemma {:induction false} AnsweredCallIsRecorded(cfg: Config, events: seq<Event>, id: nat, task: nat)
    requires var s := RunOf(cfg, events);
             && id in s.requests && s.requests[id].phase.Sent? && task !in s.tasks
             && IsStranger(s.requests[id].phase.settled.from, s.requests[id].service)
             && s.requests[id].serviceId in s.chain.services && s.chain.services[s.requests[id].serviceId].active
    ensures var s := RunOf(cfg, events);
            var r := s.requests[id];
            var scheduled := Next(cfg, s, Schedule(id, task, 2, 2));
            && task in scheduled.tasks
            && var s', e := Attempted(cfg, scheduled, task), scheduled.tasks[task].entry;
               && IsEntryFor(e, r, r.phase.settled, r.phase.status, s.now)
               && RecordedAs(s.chain.attested, s'.chain.attested, e)
               && e.paymentTxHash !in Q.Keys(s'.queue.memory.items)
               && e.paymentTxHash !in Q.Keys(s'.queue.disk.live)
  {
    hide RunOf, Next, Attempted, RecordedAs, WellFormed, DeliveriesPaid, Pays;
    var s := RunOf(cfg, events);
    RunIsPaidUp(cfg, events);
    assert RequestOk(cfg, s.requests[id], s.chain, s.issued);
    ScheduleEnqueues(cfg, s, id, task, 2, 2);
    var scheduled := Next(cfg, s, Schedule(id, task, 2, 2));
    var r := s.requests[id];
    var e :| e in scheduled.queue.memory.items && IsEntryFor(e, r, r.phase.settled, r.phase.status, s.now);
    assert e.paymentTxHash in Q.Keys(scheduled.queue.memory.items);
    SchedulingLeavesChain(cfg, s, id, task);
    AttemptDequeues(cfg, scheduled, task);
    AttemptLeavesRecord(cfg, scheduled, task);
  }

  lemma SchedulingLeavesChain(cfg: Config, s: State, id: nat, task: nat)
    ensures Next(cfg, s, Schedule(id, task, 2, 2)).chain == s.chain
  {
    hide Q.EnqueueStep;
  }
}
