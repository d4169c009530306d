/** What the attestation queue of the running gateway is about: on the mock chain a hash stands for
    one payment, so no queued payment is ever replaced by another. */
module GatewayQueue {
  import opened Basics
  import opened ChainLedger
  import opened Gateway
  import opened GatewaySafety
  import opened GatewayPayments
  import opened GatewayScores
  import I = Invoices
  import Q = PendingQueue

  ghost predicate Named(s: State) {
    HashesName(s.chain) && Q.OfPayments(s.queue, PaymentNamed)
  }

  lemma RecordKeepsTransfers(l: Ledger, serviceId: nat, txHash: TxHash, success: bool, signer: Account, now: int)
    ensures Record(l, serviceId, txHash, success, signer, now).0.transfers == l.transfers
  {
  }

  lemma SameNames(s: State, s': State)
    requires Named(s) && s'.queue == s.queue && s'.chain.transfers == s.chain.transfers
    ensures Named(s')
  {
    hide Q.OfPayments;
  }

  lemma ScheduleIsNamed(cfg: Config, s: State, id: nat, task: nat, pruneWrites: nat, queueWrites: nat)
    requires Named(s) && PaidUp(cfg, s)
    ensures Named(DoSchedule(cfg, s, id, task, pruneWrites, queueWrites))
  {
    hide Q.OfPayments, Q.Apply, Q.EnqueueStep, WellFormed, DeliveriesPaid;
    if id in s.requests && s.requests[id].phase.Sent? {
      var r := s.requests[id];
      assert RequestOk(cfg, r, s.chain, s.issued);
      var entry := EntryOf(r, r.phase.settled, r.phase.status, s.now);
      EnqueueIsNamed(s.queue, entry, s.now, pruneWrites, queueWrites, cfg.queue);
    }
  }

  lemma EnqueueIsNamed(queue: Q.State, entry: Q.Entry, now: int, pruneWrites: nat, writes: nat, opts: Q.Options)
    requires Q.OfPayments(queue, PaymentNamed) && Q.PaymentOf(entry) == PaymentNamed(entry.paymentTxHash)
    ensures Q.OfPayments(Q.EnqueueStep(queue, entry, now, pruneWrites, writes, opts).0, PaymentNamed)
  {
    hide Q.OfPayments, Q.EnqueueStep;
    Q.StepOfPayments(queue, Q.EnqueueOp(entry, now, pruneWrites, writes), opts, PaymentNamed);
  }

  lemma SettleIsNamed(cfg: Config, s: State, task: nat, heard: bool, queueWrites: nat)
    requires Named(s)
    ensures Named(DoSettle(cfg, s, task, heard, queueWrites))
  {
    hide Q.OfPayments, Q.RemoveStep;
    if task in s.tasks {
      Q.StepOfPayments(s.queue, Q.RemoveOp(s.tasks[task].entry.paymentTxHash, queueWrites), cfg.queue, PaymentNamed);
    }
  }

  lemma ReloadIsNamed(queue: Q.State)
    requires Q.OfPayments(queue, PaymentNamed)
    ensures Q.OfPayments(Q.Reloaded(queue.disk), PaymentNamed)
  {
  }

  lemma PruningIsNamed(cfg: Config, s: State, e: Event)
    requires Named(s) && (e.PruneQueue? || e.Boot? || e.Crash?)
    ensures Named(Next(cfg, s, e))
  {
    hide Q.OfPayments, Q.PruneStep, HasDelivery;
    match e
    case PruneQueue(queueWrites) => Q.PruneOfPayments(s.queue, s.now, queueWrites, cfg.queue, PaymentNamed);
    case Boot(queueWrites, _) => Q.PruneOfPayments(s.queue, s.now, queueWrites, cfg.queue, PaymentNamed);
    case Crash => ReloadIsNamed(s.queue);
  }

  lemma NextIsNamed(cfg: Config, s: State, e: Event)
    requires Named(s) && PaidUp(cfg, s)
    ensures Named(Next(cfg, s, e))
  {
    if e.Schedule? {
      hide Named, PaidUp, DoSchedule;
      ScheduleIsNamed(cfg, s, e.id, e.task, e.pruneWrites, e.queueWrites);
    } else if e.Settle? {
      hide Named, PaidUp, DoSettle;
      SettleIsNamed(cfg, s, e.task, e.heard, e.queueWrites);
    } else if e.PruneQueue? || e.Boot? || e.Crash? {
      hide Next;
      PruningIsNamed(cfg, s, e);
    } else if e.ChainStep? {
      hide Q.OfPayments, PaidUp, Apply, PassesGateway;
      ApplyKeepsNames(s.chain, e.op, s.now);
    } else if e.Submit? {
      hide Named, PaidUp, Record;
      if e.task in s.tasks {
        var t := s.tasks[e.task];
        RecordKeepsTransfers(s.chain, t.entry.serviceId, t.entry.paymentTxHash, t.entry.success, t.signer, s.now);
      }
      SameNames(s, Next(cfg, s, e));
    } else {
      hide Named, PaidUp, Next;
      TouchesNone(cfg, s, e);
      SameNames(s, Next(cfg, s, e));
    }
  }

  lemma {:induction false} RunIsNamed(cfg: Config, events: seq<Event>)
    ensures Named(RunOf(cfg, events))
  {
    if events != [] {
      hide Named, PaidUp, Next;
      RunIsNamed(cfg, events[..|events| - 1]);
      RunIsPaidUp(cfg, events[..|events| - 1]);
      NextIsNamed(cfg, RunOf(cfg, events[..|events| - 1]), events[|events| - 1]);
    }
  }

  /** Every payment whose enqueue returned is, at every later moment and after any crash, on chain
      for its service, or has an entry or a letter of its very own service and nonce: none was
      replaced by another payment. */
  lemma {:induction false} NothingIsReplaced(cfg: Config, events: seq<Event>, serviceId: nat, txHash: TxHash)
    requires (serviceId, txHash) in RunOf(cfg, events).enqueued
    ensures var s, payment := RunOf(cfg, events), PaymentNamed(txHash);
            && payment.0 == serviceId
            && (|| Q.Holds(s.queue.memory.items, payment, txHash) || Q.Buried(s.queue.memory.dead, payment, txHash)
                || Attested(s.chain.attested, serviceId, txHash))
            && (|| Q.Holds(s.queue.disk.live, payment, txHash) || Q.Buried(s.queue.disk.dead, payment, txHash)
                || Attested(s.chain.attested, serviceId, txHash))
  {
    hide RunOf, Attested, WellFormed, RequestsOk, Accounted;
    var s := RunOf(cfg, events);
    NothingEnqueuedIsLost(cfg, events, serviceId, txHash);
    RunIsNamed(cfg, events);
    RunLosesNone(cfg, events);
    RunIsPaidUp(cfg, events);
    var p := (serviceId, txHash);
    assert p in s.enqueued;
    var i :| 0 <= i < |s.deliveries| && s.deliveries[i].serviceId == p.0 && s.deliveries[i].txHash == p.1;
    assert DeliveryPaid(cfg, s.deliveries[i], s.chain, s.issued);
  }
}
