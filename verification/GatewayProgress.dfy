/** What the gateway does when nothing interferes: exactly which presented proofs are served,
    what a failure gives back, and how an attestation leaves the queue. */
module GatewayProgress {
  import opened Basics
  import opened ChainLedger
  import opened Verification
  import opened Gateway
  import I = Invoices
  import Q = PendingQueue

  /** The handler from the lookup to the answer, with the payment's invoice burnt on the way. */
  function Served(cfg: Config, s: State, id: nat, status: nat): State {
    Next(cfg, Next(cfg, Checked(cfg, s, id), Burn(id, true)), Answer(id, status))
  }

  function Checked(cfg: Config, s: State, id: nat): State {
    Next(cfg, Next(cfg, Next(cfg, Next(cfg, s, Lookup(id)), ReadChain(id)), Judge(id)), CheckPayer(id))
  }

  /** The transfer pays the service's target at least its price under the presented nonce, young
      enough and by the deadline; and where the gateway demands it, the payer signed the proof. */
  predicate Redeems(
    cfg: Config, proof: Proof, serviceId: nat, service: Service, found: Option<Transfer>, invoice: I.Invoice, now: int)
  {
    && found.Some?
    && PaysFor(found.value, serviceId, proof.nonce, service.paymentTarget, service.priceWei)
    && now - found.value.timestamp <= cfg.redemptionWindowMs
    && found.value.timestamp <= invoice.expiresAt
    && SignedByPayer(cfg, proof.signer, found.value)
  }

  /** The invoice is known, of this service and unused, and the named transfer, still on the
      chain, redeems it. */
  predicate Redeemable(cfg: Config, s: State, r: Request)
    requires r.proof.Some?
  {
    var proof := r.proof.value;
    && proof.nonce in s.store.memory
    && s.store.memory[proof.nonce].serviceId == r.serviceId && !s.store.memory[proof.nonce].used
    && Redeems(cfg, proof, r.serviceId, r.service, FindTransfer(s.chain.transfers, proof.txHash),
               s.store.memory[proof.nonce], s.now)
  }

  lemma JudgesExactly(cfg: Config, s: State, id: nat)
    requires id in s.requests && s.requests[id].phase.Read? && s.requests[id].proof.Some?
    requires var r := s.requests[id];
             r.phase.answer.Some? ==> r.phase.answer.value.txHash == r.proof.value.txHash
    ensures var r := s.requests[id];
            var s' := DoCheckPayer(cfg, DoJudge(cfg, s, id), id);
            && id in s'.requests && s' == SetPhase(s, id, s'.requests[id].phase)
            && if Redeems(cfg, r.proof.value, r.serviceId, r.service, r.phase.answer, r.phase.lookedUp, s.now)
               then s'.requests[id].phase == Cleared(r.phase.answer.value)
               else s'.requests[id].phase.Rejected?
  {
    var r := s.requests[id];
    assert DoJudge(cfg, s, id).requests[id] == r.(phase := Judged(cfg, r, s.now));
  }

  lemma CheckedIs(cfg: Config, s: State, id: nat)
    ensures Checked(cfg, s, id) == DoCheckPayer(cfg, DoJudge(cfg, DoReadChain(DoLookup(s, id), id), id), id)
  {
    hide DoLookup, DoReadChain, DoJudge, DoCheckPayer;
  }

  lemma AttemptedIs(cfg: Config, s: State, task: nat)
    ensures Attempted(cfg, s, task) == DoSettle(cfg, DoSubmit(s, task, true), task, true, 2)
  {
    hide DoSubmit, DoSettle;
  }

  /** The checks pass exactly the redeemable proofs, and reject all others. */
  lemma {:induction false} ChecksAreExact(cfg: Config, s: State, id: nat)
    requires id in s.requests && s.requests[id].phase.Resolved? && s.requests[id].proof.Some?
    ensures var r := s.requests[id];
            var s' := Checked(cfg, s, id);
            && id in s'.requests && s' == SetPhase(s, id, s'.requests[id].phase)
            && if Redeemable(cfg, s, r)
               then s'.requests[id].phase == Cleared(FindTransfer(s.chain.transfers, r.proof.value.txHash).value)
               else s'.requests[id].phase.Rejected?
  {
    hide FindTransfer, DoLookup, DoReadChain, DoJudge, DoCheckPayer, Redeems, Checked;
    CheckedIs(cfg, s, id);
    ReadsIs(s, id);
    var r := s.requests[id];
    var s2 := DoReadChain(DoLookup(s, id), id);
    FindsByHash(s.chain.transfers, r.proof.value.txHash);
    if LookedUp(r, s.store.memory).Found? {
      JudgesExactly(cfg, s2, id);
    } else {
      RejectedStays(cfg, s2, id);
    }
  }

  lemma ReadsIs(s: State, id: nat)
    requires id in s.requests && s.requests[id].phase.Resolved? && s.requests[id].proof.Some?
    ensures var r := s.requests[id];
            var phase := LookedUp(r, s.store.memory);
            DoReadChain(DoLookup(s, id), id) ==
            SetPhase(s, id, if phase.Rejected? then phase
                            else Read(phase.invoice, FindTransfer(s.chain.transfers, r.proof.value.txHash)))
  {
    hide FindTransfer, LookedUp, SetPhase, DoReadChain;
    ReadsFrom(s, id, LookedUp(s.requests[id], s.store.memory));
  }

  lemma ReadsFrom(s: State, id: nat, phase: Phase)
    requires id in s.requests && s.requests[id].proof.Some? && (phase.Found? || phase.Rejected?)
    ensures DoReadChain(SetPhase(s, id, phase), id) ==
            var found := FindTransfer(s.chain.transfers, s.requests[id].proof.value.txHash);
            SetPhase(s, id, if phase.Rejected? then phase else Read(phase.invoice, found))
  {
    hide FindTransfer;
  }

  lemma FindsByHash(transfers: seq<Transfer>, txHash: TxHash)
    ensures FindTransfer(transfers, txHash).Some? ==> FindTransfer(transfers, txHash).value.txHash == txHash
  {
  }

  lemma RejectedStays(cfg: Config, s: State, id: nat)
    requires id in s.requests && s.requests[id].phase.Rejected?
    ensures DoCheckPayer(cfg, DoJudge(cfg, s, id), id) == s
  {
  }

  /** One delivery is added, its invoice is used, in memory and on disk, and nothing else is. */
  ghost predicate ServedOnce(cfg: Config, s: State, s': State, id: nat, r: Request, status: nat)
    requires r.proof.Some?
  {
    var found := FindTransfer(s.chain.transfers, r.proof.value.txHash);
    && found.Some? && id in s'.requests && s'.requests[id].phase == Sent(found.value, status)
    && s'.deliveries == s.deliveries + [DeliveryOf(r.(phase := Burnt(found.value)), status)]
    && s'.store.memory == I.MarkUsed(s.store.memory, r.proof.value.nonce)
    && (cfg.invoicesOnDisk ==> s'.store.disk == s'.store.memory)
  }

  ghost predicate TurnedAway(s: State, s': State, id: nat) {
    s'.deliveries == s.deliveries && s'.store == s.store && id in s'.requests && s'.requests[id].phase.Rejected?
  }

  /** A proof is served, once, exactly when it is redeemable. */
  lemma {:induction false} RedeemableIsServed(cfg: Config, s: State, id: nat, status: nat)
    requires id in s.requests && s.requests[id].phase.Resolved? && s.requests[id].proof.Some?
    ensures if Redeemable(cfg, s, s.requests[id])
            then ServedOnce(cfg, s, Served(cfg, s, id, status), id, s.requests[id], status)
            else TurnedAway(s, Served(cfg, s, id, status), id)
  {
    hide FindTransfer, Checked, DeliveryOf, Next, Redeemable, Served;
    ServedIs(cfg, s, id, status);
    ChecksAreExact(cfg, s, id);
    OnlyUnused(cfg, s, s.requests[id]);
  }

  lemma ServedIs(cfg: Config, s: State, id: nat, status: nat)
    ensures Served(cfg, s, id, status) == DoAnswer(DoBurn(cfg, Checked(cfg, s, id), id, true), id, status)
  {
    hide DoAnswer, DoBurn, Checked;
  }

  lemma OnlyUnused(cfg: Config, s: State, r: Request)
    requires r.proof.Some?
    ensures Redeemable(cfg, s, r) ==>
              && I.Burnable(s.store.memory, r.proof.value.nonce)
              && FindTransfer(s.chain.transfers, r.proof.value.txHash).Some?
  {
    hide FindTransfer;
  }

  /** A failure on the gateway's side undoes the burn: the image is what it was before, and the
      same proofs can be redeemed. When the second write throws the file keeps the mark. */
  lemma {:induction false} FailureGivesBack(cfg: Config, s: State, id: nat, writes: bool, other: Request)
    requires id in s.requests && s.requests[id].phase.Cleared? && s.requests[id].proof.Some?
    requires I.Burnable(s.store.memory, s.requests[id].proof.value.nonce)
    ensures var s' := Next(cfg, Next(cfg, s, Burn(id, true)), FailUpstream(id, writes));
            && s'.store.memory == s.store.memory
            && s'.holders == s.holders - {s.requests[id].proof.value.nonce}
            && s'.deliveries == s.deliveries && s'.requests[id].phase.Finished?
            && (cfg.invoicesOnDisk && writes ==> s'.store.disk == s'.store.memory)
            && (cfg.invoicesOnDisk && !writes ==>
                  s'.store.disk == I.MarkUsed(s.store.memory, s.requests[id].proof.value.nonce))
            && (other.proof.Some? ==> (Redeemable(cfg, s', other) <==> Redeemable(cfg, s, other)))
  {
    hide FindTransfer, Redeems, Next;
    var nonce := s.requests[id].proof.value.nonce;
    FailedIs(cfg, s, id, writes);
    ReleaseUndoesMark(s.store.memory, nonce);
    var burnt := DoBurn(cfg, s, id, true);
    assert burnt.store.memory == I.MarkUsed(s.store.memory, nonce);
    assert burnt.requests[id].phase.Burnt?;
  }

  lemma FailedIs(cfg: Config, s: State, id: nat, writes: bool)
    ensures Next(cfg, Next(cfg, s, Burn(id, true)), FailUpstream(id, writes)) ==
            DoFailUpstream(cfg, DoBurn(cfg, s, id, true), id, writes)
  {
    hide DoFailUpstream, DoBurn;
  }

  lemma ReleaseUndoesMark(image: I.Image, nonce: nat)
    requires I.Burnable(image, nonce)
    ensures I.Release(I.MarkUsed(image, nonce), nonce) == image
    ensures I.Flushes(I.MarkUsed(image, nonce), I.ReleaseOp(nonce), 0)
  {
    assert image[nonce].(used := true).(used := false) == image[nonce];
  }

  /** One attempt that arrives and is answered, with the queue's writes in order. */
  function Attempted(cfg: Config, s: State, task: nat): State {
    Next(cfg, Next(cfg, s, Submit(task, true)), Settle(task, true, 2))
  }

  /** An attempt the chain does not refuse clears its entry from the queue, and the payment is
      then on record, be it by this attempt or by an earlier one whose answer was lost. The chain
      refuses only an unknown or inactive service or a stranger, and then the entry stays. */
  lemma {:induction false} AttemptIsExact(cfg: Config, s: State, task: nat)
    requires task in s.tasks && s.tasks[task].phase.Ready?
    ensures var t := s.tasks[task];
            var s' := Attempted(cfg, s, task);
            var e := t.entry;
            if Welcomes(s.chain, e.serviceId, t.signer) then
              && Attested(s'.chain.attested, e.serviceId, e.paymentTxHash)
              && s'.queue == Q.RemoveStep(s.queue, e.paymentTxHash, 2).0 && task !in s'.tasks
            else s'.chain == s.chain && s'.queue == s.queue
  {
    hide Q.RemoveStep, Attempted;
    AttemptedIs(cfg, s, task);
    var t := s.tasks[task];
    var e := t.entry;
    if Welcomes(s.chain, e.serviceId, t.signer) {
      AttestedPush(s.chain.attested, NewAttestation(s.chain, e.serviceId, e.paymentTxHash, e.success, s.now));
    }
  }

  predicate Welcomes(l: Ledger, serviceId: nat, signer: Account) {
    serviceId in l.services && l.services[serviceId].active
    && (signer == l.services[serviceId].attestor || signer == l.services[serviceId].owner)
  }
}
