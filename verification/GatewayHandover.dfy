/** Every delivered call is handed on to the attestation queue, in every run: nothing but a crash or
    a throwing write between answer and enqueue keeps a stranger's call from being accounted for. */
module GatewayHandover {
  import opened Basics
  import opened ChainLedger
  import opened Gateway
  import opened GatewaySafety
  import opened GatewayPayments
  import opened GatewayRejections
  import opened GatewayScores
  import opened GatewayQueue
  import opened GatewaySteps
  import opened GatewayAttestations
  import I = Invoices
  import Q = PendingQueue

  /** The request is this delivery's call, answered and not yet handed on. */
  predicate Awaits(r: Request, d: Delivery) {
    && r.phase.Sent? && r.serviceId == d.serviceId && r.phase.settled.txHash == d.txHash
    && r.phase.settled.from == d.payer && r.phase.status == d.status
  }

  ghost predicate IsAwaited(requests: map<nat, Request>, d: Delivery) {
    exists id: nat :: id in requests && Awaits(requests[id], d)
  }

  /** The event loses the call: the process dies before it is enqueued, or a write of that throws. */
  ghost predicate Forgets(cfg: Config, s: State, e: Event, d: Delivery) {
    if e.Crash? then IsAwaited(s.requests, d) else
    && e.Schedule? && e.id in s.requests && Awaits(s.requests[e.id], d)
    && (e.queueWrites < 2 || (e.pruneWrites < 2 && !NoneExpired(s.queue.memory.items, s.now, cfg.queue.maxAgeMs)))
  }

  ghost predicate WasForgotten(cfg: Config, events: seq<Event>, d: Delivery) {
    exists k: nat :: k < |events| && Forgets(cfg, RunOf(cfg, events[..k]), events[k], d)
  }

  /** A delivery to the service's own accounts, or one that awaits its enqueuing, was enqueued, or
      was forgotten. */
  ghost predicate HandedOn(cfg: Config, events: seq<Event>, s: State, d: Delivery) {
    && d.serviceId in s.chain.services
    && (|| !IsStranger(d.payer, s.chain.services[d.serviceId])
        || IsAwaited(s.requests, d)
        || (d.serviceId, d.txHash) in s.enqueued
        || WasForgotten(cfg, events, d))
  }

  lemma StaysForgotten(cfg: Config, events: seq<Event>, e: Event, d: Delivery)
    requires WasForgotten(cfg, events, d) || Forgets(cfg, RunOf(cfg, events), e, d)
    ensures WasForgotten(cfg, events + [e], d)
  {
    hide RunOf, Forgets;
    var longer := events + [e];
    if WasForgotten(cfg, events, d) {
      var k: nat :| k < |events| && Forgets(cfg, RunOf(cfg, events[..k]), events[k], d);
      assert longer[..k] == events[..k] && longer[k] == events[k];
    } else {
      assert longer[..|events|] == events && longer[|events|] == e;
    }
  }

  /** One event keeps services with their accounts, and everything ever enqueued. */
  lemma NextGrows(cfg: Config, s: State, e: Event)
    requires WellFormed(s.chain)
    ensures Grows(s.chain, Next(cfg, s, e).chain) && s.enqueued <= Next(cfg, s, e).enqueued
  {
    hide WellFormed, LookedUp, Judged, PayerChecked, FindTransfer, Store, HasDelivery, Record, Apply, PassesGateway,
         I.Burnable, Q.PruneStep, Q.RemoveStep, Q.EnqueueStep, Grows;
    GrowsSelf(s.chain);
    if e.ChainStep? {
      ApplyGrows(s.chain, e.op, s.now);
    } else if e.Submit? && e.task in s.tasks {
      var t := s.tasks[e.task];
      RecordGrows(s.chain, t.entry.serviceId, t.entry.paymentTxHash, t.entry.success, t.signer, s.now);
    }
  }

  lemma SameAccounts(l: Ledger, l': Ledger, serviceId: nat, payer: Account)
    requires Grows(l, l') && serviceId in l.services
    ensures serviceId in l'.services
    ensures IsStranger(payer, l'.services[serviceId]) == IsStranger(payer, l.services[serviceId])
  {
  }

  lemma SchedulingMayRefuse(cfg: Config, s: State, e: Event)
    requires e.Schedule? && e.task in s.tasks
    ensures Next(cfg, s, e) == s
  {
  }

  lemma OnlySchedulingEnds(cfg: Config, s: State, e: Event, id: nat)
    requires id in s.requests && s.requests[id].phase.Sent? && !e.Crash?
    ensures var s' := Next(cfg, s, e);
            id in s'.requests && (s'.requests[id] == s.requests[id] || (e.Schedule? && e.id == id))
  {
    hide Moves, LookedUp, Judged, PayerChecked, FindTransfer, Store, Q.PruneStep, Q.EnqueueStep, Q.RemoveStep, Apply,
         Record;
    NextMoves(cfg, s, e, id);
  }

  lemma AwaitedGoesOn(cfg: Config, s: State, e: Event, id: nat, d: Delivery)
    requires PaidUp(cfg, s) && id in s.requests && Awaits(s.requests[id], d)
    ensures var s' := Next(cfg, s, e);
            && d.serviceId in s.chain.services
            && (|| !IsStranger(d.payer, s.chain.services[d.serviceId])
                || IsAwaited(s'.requests, d)
                || (d.serviceId, d.txHash) in s'.enqueued
                || Forgets(cfg, s, e, d))
  {
    hide Next, WellFormed, DeliveriesPaid, Pays;
    assert RequestOk(cfg, s.requests[id], s.chain, s.issued);
    if !e.Crash? {
      OnlySchedulingEnds(cfg, s, e, id);
      if e.Schedule? && e.id == id {
        if e.task in s.tasks {
          SchedulingMayRefuse(cfg, s, e);
        } else if IsStranger(d.payer, s.chain.services[d.serviceId]) {
          ScheduleEnqueues(cfg, s, id, e.task, e.pruneWrites, e.queueWrites);
        }
      }
    }
  }

  lemma AnswerIsAwaited(cfg: Config, s: State, e: Event)
    requires PaidUp(cfg, s) && e.Answer? && |Next(cfg, s, e).deliveries| > |s.deliveries|
    ensures var s' := Next(cfg, s, e);
            var d := s'.deliveries[|s.deliveries|];
            IsAwaited(s'.requests, d) && d.serviceId in s'.chain.services
  {
    hide WellFormed, DeliveriesPaid, RequestOk;
    assert RequestOk(cfg, s.requests[e.id], s.chain, s.issued);
    BurningPays(cfg, s.requests[e.id], s.chain, s.issued);
    var s' := Next(cfg, s, e);
    assert Awaits(s'.requests[e.id], s'.deliveries[|s.deliveries|]);
  }

  lemma BurningPays(cfg: Config, r: Request, l: Ledger, issued: map<nat, I.Invoice>)
    requires RequestOk(cfg, r, l, issued) && r.phase.Burnt?
    ensures r.proof.Some? && r.phase.burning.txHash == r.proof.value.txHash && r.serviceId in l.services
  {
  }

  /** In every run, every delivered call of a stranger to its service still awaits its enqueuing, was
      enqueued, or was forgotten by a crash or a throwing write in between; nothing else loses one. */
  lemma {:induction false} EveryDeliveryIsHandedOn(cfg: Config, events: seq<Event>, i: nat)
    requires i < |RunOf(cfg, events).deliveries|
    ensures var s := RunOf(cfg, events);
            HandedOn(cfg, events, s, s.deliveries[i])
  {
    if events != [] {
      hide Next, PaidUp, WasForgotten, Awaits, Grows, IsStranger;
      var before, last := events[..|events| - 1], events[|events| - 1];
      assert events == before + [last];
      var s, s' := RunOf(cfg, before), RunOf(cfg, events);
      RunIsPaidUp(cfg, before);
      IsWellFormed(cfg, s);
      NextGrows(cfg, s, last);
      DeliveryComes(cfg, s, last);
      if i < |s.deliveries| {
        var d := s.deliveries[i];
        assert s'.deliveries[i] == d;
        EveryDeliveryIsHandedOn(cfg, before, i);
        SameAccounts(s.chain, s'.chain, d.serviceId, d.payer);
        if IsAwaited(s.requests, d) {
          var id: nat :| id in s.requests && Awaits(s.requests[id], d);
          AwaitedGoesOn(cfg, s, last, id, d);
        }
        if WasForgotten(cfg, before, d) || Forgets(cfg, s, last, d) {
          StaysForgotten(cfg, before, last, d);
        }
      } else {
        AnswerIsAwaited(cfg, s, last);
      }
    }
  }

  lemma IsWellFormed(cfg: Config, s: State)
    requires PaidUp(cfg, s)
    ensures WellFormed(s.chain)
  {
  }

  /** So in every run each delivered call of a stranger is, at every later moment, on chain for its
      service, or held by queue or log under its own service and nonce; unless its enqueuing is still
      to come, or was lost to a crash or a throwing write. */
  lemma {:induction false} EveryCallIsAccountedFor(cfg: Config, events: seq<Event>, i: nat)
    requires i < |RunOf(cfg, events).deliveries|
    ensures var s := RunOf(cfg, events);
            var d := s.deliveries[i];
            var payment := (d.serviceId, d.nonce);
            && d.serviceId in s.chain.services
            && (|| !IsStranger(d.payer, s.chain.services[d.serviceId])
                || IsAwaited(s.requests, d)
                || WasForgotten(cfg, events, d)
                || Attested(s.chain.attested, d.serviceId, d.txHash)
                || Q.Holds(s.queue.memory.items, payment, d.txHash)
                || Q.Buried(s.queue.memory.dead, payment, d.txHash))
  {
    hide RunOf, WasForgotten, IsAwaited, IsStranger, Attested, Q.Holds, Q.Buried, PaidUp, Named;
    var s := RunOf(cfg, events);
    var d := s.deliveries[i];
    EveryDeliveryIsHandedOn(cfg, events, i);
    if (d.serviceId, d.txHash) in s.enqueued {
      NothingIsReplaced(cfg, events, d.serviceId, d.txHash);
      RunIsPaidUp(cfg, events);
      RunIsNamed(cfg, events);
      DeliveryIsNamed(cfg, s, i);
    }
  }

  lemma DeliveryIsNamed(cfg: Config, s: State, i: nat)
    requires PaidUp(cfg, s) && Named(s) && i < |s.deliveries|
    ensures PaymentNamed(s.deliveries[i].txHash) == (s.deliveries[i].serviceId, s.deliveries[i].nonce)
  {
    hide RequestsOk;
    var d := s.deliveries[i];
    assert DeliveryPaid(cfg, d, s.chain, s.issued);
    var t :| t in s.chain.transfers && Settles(cfg, t, d, s.chain.services[d.serviceId].paymentTarget, s.issued);
  }
}
