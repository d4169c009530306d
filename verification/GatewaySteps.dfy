/** What single steps do to the gateway, beside the theorems on whole runs: who is let in, what a
    challenge issues, what a burn spends, and what a sweep, a pruning and a crash leave. */
module GatewaySteps {
  import opened Basics
  import opened ChainLedger
  import opened Verification
  import opened Gateway
  import opened GatewaySafety
  import opened GatewayRetention
  import opened GatewayRejections
  import I = Invoices
  import Q = PendingQueue

  // ---- arrivals -----------------------------------------------------------------------------

  /** A call to a service seen inactive, or unknown, leaves no trace, whatever proof it presents;
      nor does one at a stopped gateway. */
  lemma {:induction false} ArrivalIsTurnedAway(
    cfg: Config, s: State, id: nat, serviceId: nat, seenActive: bool, proof: Option<Proof>)
    requires !seenActive || serviceId !in s.chain.services || !s.up || id in s.requests
    ensures Next(cfg, s, Arrive(id, serviceId, seenActive, proof)) == s
  {
  }

  /** A call to a service seen active is let in with that service's record, and either goes on with
      its proof or is asked to pay; nothing else changes. */
  lemma {:induction false} ArrivalIsAdmitted(cfg: Config, s: State, id: nat, serviceId: nat, proof: Option<Proof>)
    requires s.up && serviceId in s.chain.services && id !in s.requests
    ensures var s' := Next(cfg, s, Arrive(id, serviceId, true, proof));
            && s'.(requests := s.requests) == s && s'.requests.Keys == s.requests.Keys + {id}
            && (forall other :: other in s.requests ==> s'.requests[other] == s.requests[other])
            && var r := s'.requests[id];
               && r.serviceId == serviceId && r.proof == proof && r.service.active
               && r.service == s.chain.services[serviceId].(active := true)
               && (proof.Some? ==> r.phase == Resolved) && (proof.None? ==> r.phase == Rejected(PaymentRequired))
  {
  }

  /** The request came by an arrival of this run that saw its service active. */
  ghost predicate Admitted(events: seq<Event>, id: nat, r: Request) {
    r.service.active && WasAdmitted(events, id, r.serviceId, r.proof)
  }

  ghost predicate WasAdmitted(events: seq<Event>, id: nat, serviceId: nat, proof: Option<Proof>) {
    exists k: nat :: k < |events| && events[k] == Arrive(id, serviceId, true, proof)
  }

  lemma StillAdmitted(events: seq<Event>, e: Event, id: nat, serviceId: nat, proof: Option<Proof>)
    requires WasAdmitted(events, id, serviceId, proof) || e == Arrive(id, serviceId, true, proof)
    ensures WasAdmitted(events + [e], id, serviceId, proof)
  {
    var longer := events + [e];
    if WasAdmitted(events, id, serviceId, proof) {
      var k: nat :| k < |events| && events[k] == Arrive(id, serviceId, true, proof);
      assert longer[k] == events[k];
    } else {
      assert longer[|events|] == e;
    }
  }

  lemma ArrivedAs(cfg: Config, s: State, e: Event, id: nat)
    requires e.Arrive? && id !in s.requests && id in Next(cfg, s, e).requests
    ensures var r := Next(cfg, s, e).requests[id];
            r.service.active && e == Arrive(id, r.serviceId, true, r.proof)
  {
  }

  /** In every run, whoever is being handled arrived when the service was seen active, and is
      handled under an active record. */
  lemma {:induction false} RequestsWereAdmitted(cfg: Config, events: seq<Event>, id: nat)
    requires id in RunOf(cfg, events).requests
    ensures Admitted(events, id, RunOf(cfg, events).requests[id])
  {
    if events != [] {
      hide Next, Moves, WasAdmitted;
      var before, last := events[..|events| - 1], events[|events| - 1];
      assert events == before + [last];
      var s := RunOf(cfg, before);
      var r' := RunOf(cfg, events).requests[id];
      NextMoves(cfg, s, last, id);
      if id in s.requests {
        RequestsWereAdmitted(cfg, before, id);
      } else {
        ArrivedAs(cfg, s, last, id);
      }
      StillAdmitted(before, last, id, r'.serviceId, r'.proof);
    }
  }

  /** A delivery answers a call that arrived with the very proof it was paid by. */
  ghost predicate DeliveryAdmitted(events: seq<Event>, d: Delivery) {
    exists id: nat :: WasAdmitted(events, id, d.serviceId, Some(Proof(d.txHash, d.nonce, d.presenter)))
  }

  /** Deliveries come by answers alone, invoices by challenges alone, and only a crash may forget. */
  ghost predicate AddsNone(s: State, e: Event, s': State) {
    && (!e.Answer? ==> s'.deliveries == s.deliveries)
    && (!e.Challenge? ==> s'.issued == s.issued && (!e.Crash? ==> s'.acked == s.acked))
  }

  lemma CheckingAddsNone(cfg: Config, s: State, e: Event)
    requires e.Arrive? || e.Lookup? || e.ReadChain? || e.Judge? || e.CheckPayer?
    ensures AddsNone(s, e, Next(cfg, s, e))
  {
    hide LookedUp, Judged, PayerChecked, FindTransfer;
  }

  lemma ServingAddsNone(cfg: Config, s: State, e: Event)
    requires e.Burn? || e.Answer? || e.FailUpstream? || e.Challenge? || e.Schedule?
    ensures AddsNone(s, e, Next(cfg, s, e))
  {
    hide Store, DeliveryOf, I.Burnable, Q.EnqueueStep;
  }

  lemma NextAddsNone(cfg: Config, s: State, e: Event)
    ensures AddsNone(s, e, Next(cfg, s, e))
  {
    if e.Arrive? || e.Lookup? || e.ReadChain? || e.Judge? || e.CheckPayer? {
      hide Next;
      CheckingAddsNone(cfg, s, e);
    } else if e.Burn? || e.Answer? || e.FailUpstream? || e.Challenge? || e.Schedule? {
      hide Next;
      ServingAddsNone(cfg, s, e);
    } else {
      hide Store, HasDelivery, Record, Apply, PassesGateway, Q.PruneStep, Q.RemoveStep;
    }
  }

  lemma DeliveryComes(cfg: Config, s: State, e: Event)
    ensures var s' := Next(cfg, s, e);
            || s'.deliveries == s.deliveries
            || (&& e.Answer? && e.id in s.requests && |s'.deliveries| == |s.deliveries| + 1
                && s'.deliveries[..|s.deliveries|] == s.deliveries
                && var d, r := s'.deliveries[|s.deliveries|], s.requests[e.id];
                   d.serviceId == r.serviceId && r.proof == Some(Proof(d.txHash, d.nonce, d.presenter)))
  {
    NextAddsNone(cfg, s, e);
    if !e.Answer? {
      hide Next;
    }
  }

  /** In every run only calls that arrived at a service seen active are ever served. */
  lemma {:induction false} DeliveriesWereAdmitted(cfg: Config, events: seq<Event>, i: nat)
    requires i < |RunOf(cfg, events).deliveries|
    ensures DeliveryAdmitted(events, RunOf(cfg, events).deliveries[i])
  {
    if events != [] {
      hide Next, WasAdmitted;
      var before, last := events[..|events| - 1], events[|events| - 1];
      assert events == before + [last];
      var s := RunOf(cfg, before);
      var d := RunOf(cfg, events).deliveries[i];
      var proof := Some(Proof(d.txHash, d.nonce, d.presenter));
      DeliveryComes(cfg, s, last);
      var id: nat;
      if i < |s.deliveries| {
        DeliveriesWereAdmitted(cfg, before, i);
        assert s.deliveries[i] == d;
        id :| WasAdmitted(before, id, d.serviceId, proof);
      } else {
        id := last.id;
        RequestsWereAdmitted(cfg, before, id);
      }
      StillAdmitted(before, last, id, d.serviceId, proof);
    }
  }

  // ---- challenges ---------------------------------------------------------------------------

  predicate IsInvoiceFor(invoice: I.Invoice, r: Request, nonce: nat, expiresAt: int) {
    && invoice.nonce == nonce && invoice.serviceId == r.serviceId && invoice.priceWei == r.service.priceWei
    && invoice.expiresAt == expiresAt && !invoice.used
  }

  /** Every rejected request is answered with an invoice of its own: for its service, at the recorded
      price, unused, and good for the quoted time from now on; stored before it is sent. A challenge
      whose write throws is never sent. */
  lemma {:induction false} ChallengeIssues(cfg: Config, s: State, id: nat, nonce: nat, writes: bool)
    requires id in s.requests && s.requests[id].phase.Rejected? && nonce !in s.issued
    ensures var s' := Next(cfg, s, Challenge(id, nonce, writes));
            && nonce in s'.issued && s'.issued == s.issued[nonce := s'.issued[nonce]]
            && IsInvoiceFor(s'.issued[nonce], s.requests[id], nonce, s.now + cfg.invoiceTtlMs)
            && s'.store.memory == s.store.memory[nonce := s'.issued[nonce]]
            && s'.store.disk == (if cfg.invoicesOnDisk && writes then s'.store.memory else s.store.disk)
            && s'.acked == (if cfg.invoicesOnDisk && !writes then s.acked else s.acked + {nonce})
            && id in s'.requests && s'.requests[id].phase == Finished
            && s'.deliveries == s.deliveries && s'.holders == s.holders && s'.queue == s.queue
  {
  }

  ghost predicate Outlives(cfg: Config, e: Event) {
    cfg.invoicesOnDisk || !e.Crash?
  }

  lemma NextRemembers(cfg: Config, s: State, e: Event, nonce: nat)
    requires nonce in s.issued
    ensures var s' := Next(cfg, s, e);
            && nonce in s'.issued && s'.issued[nonce] == s.issued[nonce]
            && (nonce in s.acked && Outlives(cfg, e) ==> nonce in s'.acked)
  {
    NextAddsNone(cfg, s, e);
    if e.Challenge? || e.Crash? {
      hide Store, HasDelivery;
    } else {
      hide Next;
    }
  }

  lemma {:induction false} RunRemembers(cfg: Config, before: seq<Event>, more: seq<Event>, nonce: nat)
    requires nonce in RunOf(cfg, before).issued && nonce in RunOf(cfg, before).acked
    requires forall e :: e in more ==> Outlives(cfg, e)
    ensures var s, s' := RunOf(cfg, before), RunOf(cfg, before + more);
            nonce in s'.issued && s'.issued[nonce] == s.issued[nonce] && nonce in s'.acked
  {
    if more == [] {
      assert before + more == before;
    } else {
      hide RunOf, Next, Outlives;
      var first, last := more[..|more| - 1], more[|more| - 1];
      RunRemembers(cfg, before, first, nonce);
      assert before + more == before + first + [last];
      RunPush(cfg, before + first, last);
      assert last in more;
      NextRemembers(cfg, RunOf(cfg, before + first), last, nonce);
    }
  }

  /** Once a challenge was sent, its invoice is known, as it was quoted, at every later point of the
      run inside its window; with the file store also across crashes. */
  lemma {:induction false} ChallengeIsHonoured(cfg: Config, before: seq<Event>, id: nat, nonce: nat, more: seq<Event>)
    requires var s := RunOf(cfg, before);
             id in s.requests && s.requests[id].phase.Rejected? && nonce !in s.issued
    requires forall e :: e in more ==> Outlives(cfg, e)
    ensures var s := RunOf(cfg, before);
            var s' := RunOf(cfg, before + [Challenge(id, nonce, true)] + more);
            var quoted := I.Invoice(nonce, s.requests[id].serviceId, s.requests[id].service.priceWei,
                                    s.now + cfg.invoiceTtlMs, false);
            s'.now <= quoted.expiresAt + cfg.redemptionWindowMs ==>
              nonce in s'.store.memory && s'.store.memory[nonce].(used := false) == quoted
  {
    hide RunOf, Next, HoldersOk, DeliveredOk, Outlives;
    var s := RunOf(cfg, before);
    var asked := before + [Challenge(id, nonce, true)];
    RunPush(cfg, before, Challenge(id, nonce, true));
    ChallengeIssues(cfg, s, id, nonce, true);
    RunRemembers(cfg, asked, more, nonce);
    RunRetains(cfg, asked + more);
    RunIsSingleUse(cfg, asked + more);
  }

  // ---- burning --------------------------------------------------------------------------------

  /** A burn that finds its invoice unused marks it, in memory and before proxying on disk; if that
      write throws the request ends, with the mark in memory alone and nobody served. */
  lemma {:induction false} BurnSpends(cfg: Config, s: State, id: nat, writes: bool)
    requires id in s.requests && s.requests[id].phase.Cleared? && s.requests[id].proof.Some?
    requires I.Burnable(s.store.memory, s.requests[id].proof.value.nonce)
    ensures var s' := Next(cfg, s, Burn(id, writes));
            var nonce := s.requests[id].proof.value.nonce;
            && s'.store.memory == s.store.memory[nonce := s.store.memory[nonce].(used := true)]
            && s'.store.disk == (if cfg.invoicesOnDisk && writes then s'.store.memory else s.store.disk)
            && id in s'.requests && s'.deliveries == s.deliveries
            && if cfg.invoicesOnDisk && !writes
               then s'.requests[id].phase == Finished && s'.holders == s.holders[nonce := Lost]
               else && s'.requests[id].phase == Burnt(s.requests[id].phase.payment)
                    && s'.holders == s.holders[nonce := InFlight(id)]
  {
  }

  // ---- timers and crashes -----------------------------------------------------------------------

  /** A sweep of the running gateway leaves exactly the invoices whose window is open. */
  lemma {:induction false} SweepLeavesOpen(cfg: Config, s: State, writes: bool)
    requires s.up
    ensures var s' := Next(cfg, s, SweepInvoices(writes));
            && s'.(store := s.store) == s
            && (forall nonce :: nonce in s'.store.memory <==>
                  nonce in s.store.memory && s.now <= s.store.memory[nonce].expiresAt + cfg.redemptionWindowMs)
            && (forall nonce :: nonce in s'.store.memory ==> s'.store.memory[nonce] == s.store.memory[nonce])
            && (s'.store.disk == s.store.disk || (cfg.invoicesOnDisk && writes && s'.store.disk == s'.store.memory))
  {
    hide I.Flushes;
  }

  /** A pruning of the running gateway's queue leaves exactly the entries younger than the limit. */
  lemma {:induction false} PruningLeavesYoung(cfg: Config, s: State, queueWrites: nat)
    requires s.up
    ensures var s' := Next(cfg, s, PruneQueue(queueWrites));
            && s'.(queue := s.queue) == s
            && (forall e :: e in s'.queue.memory.items <==>
                  e in s.queue.memory.items && s.now - e.enqueuedAt < cfg.queue.maxAgeMs)
            && (queueWrites >= 2 && s'.queue != s.queue ==>
                  s'.queue.disk == Q.Disk(s'.queue.memory.dead, s'.queue.memory.items))
  {
    Q.PruneParts(s.queue.memory.items, s.now, cfg.queue);
    Q.NothingLeft(s.queue.memory.items, s.now, cfg.queue);
  }

  /** A crash leaves what the files hold and the chain has, and nothing under way. */
  lemma {:induction false} CrashLeavesFiles(cfg: Config, s: State)
    ensures var s' := Next(cfg, s, Crash);
            && !s'.up && s'.requests == map[] && s'.tasks == map[]
            && s'.store.memory == s'.store.disk == s.store.disk
            && s'.queue.memory == Q.Queue(s.queue.disk.live, s.queue.disk.dead) && s'.queue.disk == s.queue.disk
            && s'.chain == s.chain && s'.now == s.now && s'.deliveries == s.deliveries
            && s'.enqueued == s.enqueued && s'.issued == s.issued
            && s'.acked == (if cfg.invoicesOnDisk then s.acked else {})
  {
  }
}
