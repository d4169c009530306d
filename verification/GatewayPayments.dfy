/** Every delivery was paid for, and a payer in time is never turned away. */
module GatewayPayments {
  import opened Basics
  import opened ChainLedger
  import opened Verification
  import opened Gateway
  import opened GatewaySafety
  import I = Invoices
  import Q = PendingQueue

  // ---- the chain only grows ------------------------------------------------------------------

  predicate SameService(a: Service, b: Service) {
    a.(active := true) == b.(active := true)
  }

  ghost predicate Grows(l: Ledger, l': Ledger) {
    && l.transfers <= l'.transfers
    && l.attested <= l'.attested
    && (forall id :: id in l.services ==> id in l'.services && SameService(l.services[id], l'.services[id]))
  }

  lemma ApplyGrows(l: Ledger, op: Op, now: int)
    requires WellFormed(l)
    ensures Grows(l, Apply(l, op, now))
  {
  }

  lemma RecordGrows(l: Ledger, serviceId: nat, txHash: TxHash, success: bool, signer: Account, now: int)
    ensures var l' := Record(l, serviceId, txHash, success, signer, now).0;
            Grows(l, l') && l'.transfers == l.transfers && l'.services == l.services
  {
  }

  // ---- what a request has established ----------------------------------------------------------

  ghost predicate InvoiceFor(r: Request, invoice: I.Invoice, issued: map<nat, I.Invoice>) {
    && r.proof.Some? && invoice.nonce == r.proof.value.nonce && invoice.serviceId == r.serviceId
    && invoice.nonce in issued && invoice.(used := false) == issued[invoice.nonce]
  }

  /** The transfer pays this service's target at least the record's price for the presented
      nonce, under the presented hash, no later than the invoice's deadline. */
  ghost predicate Pays(r: Request, t: Transfer, transfers: seq<Transfer>, issued: map<nat, I.Invoice>) {
    && r.proof.Some? && t in transfers && t.txHash == r.proof.value.txHash
    && PaysFor(t, r.serviceId, r.proof.value.nonce, r.service.paymentTarget, r.service.priceWei)
    && t.nonce in issued && issued[t.nonce].serviceId == r.serviceId && t.timestamp <= issued[t.nonce].expiresAt
  }

  ghost predicate RequestOk(cfg: Config, r: Request, l: Ledger, issued: map<nat, I.Invoice>) {
    && r.serviceId in l.services && SameService(r.service, l.services[r.serviceId])
    && match r.phase
       case Found(invoice) => InvoiceFor(r, invoice, issued)
       case Read(invoice, answer) =>
         && InvoiceFor(r, invoice, issued)
         && (answer.Some? ==> answer.value in l.transfers && answer.value.txHash == r.proof.value.txHash)
       case Verified(t) => Pays(r, t, l.transfers, issued)
       case Cleared(t) => Pays(r, t, l.transfers, issued) && SignedByPayer(cfg, r.proof.value.signer, t)
       case Burnt(t) => Pays(r, t, l.transfers, issued) && SignedByPayer(cfg, r.proof.value.signer, t)
       case Sent(t, _) => Pays(r, t, l.transfers, issued) && SignedByPayer(cfg, r.proof.value.signer, t)
       case _ => true
  }

  ghost predicate RequestsOk(cfg: Config, requests: map<nat, Request>, l: Ledger, issued: map<nat, I.Invoice>) {
    forall id :: id in requests ==> RequestOk(cfg, requests[id], l, issued)
  }

  /** The transfer settles the delivery. */
  ghost predicate Settles(cfg: Config, t: Transfer, d: Delivery, target: Account, issued: map<nat, I.Invoice>) {
    && t.txHash == d.txHash && t.from == d.payer && PaysFor(t, d.serviceId, d.nonce, target, d.priceWei)
    && d.nonce in issued && issued[d.nonce].serviceId == d.serviceId && t.timestamp <= issued[d.nonce].expiresAt
    && SignedByPayer(cfg, d.presenter, t)
  }

  ghost predicate DeliveryPaid(cfg: Config, d: Delivery, l: Ledger, issued: map<nat, I.Invoice>) {
    && d.serviceId in l.services && d.priceWei == l.services[d.serviceId].priceWei
    && exists i :: 0 <= i < |l.transfers|
        && Settles(cfg, l.transfers[i], d, l.services[d.serviceId].paymentTarget, issued)
  }

  ghost predicate DeliveriesPaid(cfg: Config, deliveries: seq<Delivery>, l: Ledger, issued: map<nat, I.Invoice>) {
    forall i :: 0 <= i < |deliveries| ==> DeliveryPaid(cfg, deliveries[i], l, issued)
  }

  ghost predicate PaidUp(cfg: Config, s: State) {
    && WellFormed(s.chain)
    && RequestsOk(cfg, s.requests, s.chain, s.issued)
    && DeliveriesPaid(cfg, s.deliveries, s.chain, s.issued)
  }

  ghost predicate IssuedGrows(issued: map<nat, I.Invoice>, issued': map<nat, I.Invoice>) {
    forall nonce :: nonce in issued ==> nonce in issued' && issued'[nonce] == issued[nonce]
  }

  /** What was established stays so while the chain and the issued invoices grow. */
  lemma StaysOk(
    cfg: Config, r: Request, l: Ledger, issued: map<nat, I.Invoice>, l': Ledger, issued': map<nat, I.Invoice>)
    requires RequestOk(cfg, r, l, issued) && Grows(l, l') && IssuedGrows(issued, issued')
    ensures RequestOk(cfg, r, l', issued')
  {
    assert forall t :: t in l.transfers ==> t in l'.transfers;
  }

  lemma StaysPaid(
    cfg: Config, d: Delivery, l: Ledger, issued: map<nat, I.Invoice>, l': Ledger, issued': map<nat, I.Invoice>)
    requires DeliveryPaid(cfg, d, l, issued) && Grows(l, l') && IssuedGrows(issued, issued')
    ensures DeliveryPaid(cfg, d, l', issued')
  {
    var i :| 0 <= i < |l.transfers| && Settles(cfg, l.transfers[i], d, l.services[d.serviceId].paymentTarget, issued);
    assert l'.transfers[i] == l.transfers[i];
    assert Settles(cfg, l'.transfers[i], d, l'.services[d.serviceId].paymentTarget, issued');
  }

  /** A step that leaves requests and deliveries alone. */
  lemma GrowthKeeps(cfg: Config, s: State, s': State)
    requires PaidUp(cfg, s)
    requires s'.deliveries == s.deliveries
        && (forall id :: id in s'.requests ==> id in s.requests && s'.requests[id] == s.requests[id])
    requires Grows(s.chain, s'.chain) && WellFormed(s'.chain) && IssuedGrows(s.issued, s'.issued)
    ensures PaidUp(cfg, s')
  {
    hide RequestOk, DeliveryPaid, Grows, IssuedGrows, WellFormed;
    forall id | id in s'.requests
      ensures RequestOk(cfg, s'.requests[id], s'.chain, s'.issued)
    {
      StaysOk(cfg, s.requests[id], s.chain, s.issued, s'.chain, s'.issued);
    }
    forall i | 0 <= i < |s.deliveries|
      ensures DeliveryPaid(cfg, s.deliveries[i], s'.chain, s'.issued)
    {
      StaysPaid(cfg, s.deliveries[i], s.chain, s.issued, s'.chain, s'.issued);
    }
  }

  /** A step that changes one request and nothing else that matters here. */
  lemma OneRequest(cfg: Config, s: State, s': State, id: nat)
    requires PaidUp(cfg, s)
    requires s'.deliveries == s.deliveries && s'.chain == s.chain && s'.issued == s.issued
    requires id in s'.requests && s'.requests == s.requests[id := s'.requests[id]]
    requires RequestOk(cfg, s'.requests[id], s.chain, s.issued)
    ensures PaidUp(cfg, s')
  {
    hide RequestOk, DeliveryPaid, WellFormed;
  }

  lemma KnownAsIssued(cfg: Config, s: State, nonce: nat)
    requires StoreOk(cfg, s.store, s.issued, s.acked) && nonce in s.store.memory
    ensures nonce in s.issued && s.store.memory[nonce].(used := false) == s.issued[nonce]
    ensures s.store.memory[nonce].nonce == nonce
  {
  }

  lemma LookedUpOk(cfg: Config, r: Request, image: I.Image, l: Ledger, issued: map<nat, I.Invoice>)
    requires RequestOk(cfg, r, l, issued) && r.proof.Some?
    requires forall nonce :: nonce in image ==>
               nonce in issued && image[nonce].(used := false) == issued[nonce] && image[nonce].nonce == nonce
    ensures RequestOk(cfg, r.(phase := LookedUp(r, image)), l, issued)
  {
  }

  lemma LookupKeeps(cfg: Config, s: State, id: nat)
    requires PaidUp(cfg, s) && StoreOk(cfg, s.store, s.issued, s.acked)
    ensures PaidUp(cfg, DoLookup(s, id))
  {
    hide WellFormed, DeliveriesPaid, StoreOk, RequestOk, LookedUp;
    if id in s.requests && s.requests[id].phase.Resolved? && s.requests[id].proof.Some? {
      forall nonce | nonce in s.store.memory
        ensures nonce in s.issued && s.store.memory[nonce].(used := false) == s.issued[nonce]
                && s.store.memory[nonce].nonce == nonce
      {
        KnownAsIssued(cfg, s, nonce);
      }
      LookedUpOk(cfg, s.requests[id], s.store.memory, s.chain, s.issued);
      OneRequest(cfg, s, DoLookup(s, id), id);
    }
  }

  lemma ReadChainKeeps(cfg: Config, s: State, id: nat)
    requires PaidUp(cfg, s)
    ensures PaidUp(cfg, DoReadChain(s, id))
  {
    hide WellFormed, DeliveriesPaid, FindIn;
    if id in s.requests && s.requests[id].phase.Found? && s.requests[id].proof.Some? {
      KeptIsPast(s.chain.transfers, TRANSFER_LOG_CAP);
      OneRequest(cfg, s, DoReadChain(s, id), id);
    }
  }

  lemma KeptIsPast<T>(history: seq<T>, n: nat)
    ensures forall x :: x in LastN(history, n) ==> x in history
  {
  }

  lemma JudgedOk(cfg: Config, r: Request, now: int, l: Ledger, issued: map<nat, I.Invoice>)
    requires RequestOk(cfg, r, l, issued) && r.phase.Read? && r.proof.Some?
    ensures RequestOk(cfg, r.(phase := Judged(cfg, r, now)), l, issued)
  {
  }

  lemma JudgeKeeps(cfg: Config, s: State, id: nat)
    requires PaidUp(cfg, s)
    ensures PaidUp(cfg, DoJudge(cfg, s, id))
  {
    hide WellFormed, DeliveriesPaid, RequestOk, Judged;
    if id in s.requests && s.requests[id].phase.Read? && s.requests[id].proof.Some? {
      JudgedOk(cfg, s.requests[id], s.now, s.chain, s.issued);
      OneRequest(cfg, s, DoJudge(cfg, s, id), id);
    }
  }

  lemma PayerCheckedOk(cfg: Config, r: Request, l: Ledger, issued: map<nat, I.Invoice>)
    requires RequestOk(cfg, r, l, issued) && r.phase.Verified? && r.proof.Some?
    ensures RequestOk(cfg, r.(phase := PayerChecked(cfg, r)), l, issued)
  {
  }

  lemma CheckPayerKeeps(cfg: Config, s: State, id: nat)
    requires PaidUp(cfg, s)
    ensures PaidUp(cfg, DoCheckPayer(cfg, s, id))
  {
    hide WellFormed, DeliveriesPaid, RequestOk, PayerChecked;
    if id in s.requests && s.requests[id].phase.Verified? && s.requests[id].proof.Some? {
      PayerCheckedOk(cfg, s.requests[id], s.chain, s.issued);
      OneRequest(cfg, s, DoCheckPayer(cfg, s, id), id);
    }
  }

  lemma BurningOk(cfg: Config, r: Request, l: Ledger, issued: map<nat, I.Invoice>)
    requires RequestOk(cfg, r, l, issued) && r.phase.Cleared?
    ensures RequestOk(cfg, r.(phase := Burnt(r.phase.payment)), l, issued)
    ensures forall why :: RequestOk(cfg, r.(phase := Rejected(why)), l, issued)
    ensures RequestOk(cfg, r.(phase := Finished), l, issued)
  {
  }

  lemma BurnKeepsPaid(cfg: Config, s: State, id: nat, writes: bool)
    requires PaidUp(cfg, s)
    ensures PaidUp(cfg, DoBurn(cfg, s, id, writes))
  {
    hide WellFormed, DeliveriesPaid, Store, RequestOk, I.Burnable;
    if id in s.requests && s.requests[id].phase.Cleared? && s.requests[id].proof.Some? {
      BurningOk(cfg, s.requests[id], s.chain, s.issued);
      OneRequest(cfg, s, DoBurn(cfg, s, id, writes), id);
    }
  }

  lemma AnsweredOk(cfg: Config, r: Request, status: nat, l: Ledger, issued: map<nat, I.Invoice>)
    requires RequestOk(cfg, r, l, issued) && r.phase.Burnt? && r.proof.Some?
    ensures RequestOk(cfg, r.(phase := Sent(r.phase.burning, status)), l, issued)
    ensures DeliveryPaid(cfg, DeliveryOf(r, status), l, issued)
  {
    var t := r.phase.burning;
    var i :| 0 <= i < |l.transfers| && l.transfers[i] == t;
    assert Settles(cfg, l.transfers[i], DeliveryOf(r, status), l.services[r.serviceId].paymentTarget, issued);
  }

  lemma AnswerIsPaid(cfg: Config, s: State, id: nat, status: nat)
    requires PaidUp(cfg, s)
    ensures PaidUp(cfg, DoAnswer(s, id, status))
  {
    hide WellFormed, RequestOk, DeliveryPaid, DeliveryOf;
    if id in s.requests && s.requests[id].phase.Burnt? && s.requests[id].proof.Some? {
      AnsweredOk(cfg, s.requests[id], status, s.chain, s.issued);
    }
  }

  lemma FailUpstreamKeepsPaid(cfg: Config, s: State, id: nat, writes: bool)
    requires PaidUp(cfg, s)
    ensures PaidUp(cfg, DoFailUpstream(cfg, s, id, writes))
  {
    hide WellFormed, DeliveriesPaid, Store;
    if id in s.requests && s.requests[id].phase.Burnt? && s.requests[id].proof.Some? {
      OneRequest(cfg, s, DoFailUpstream(cfg, s, id, writes), id);
    }
  }

  lemma ChallengeKeepsPaid(cfg: Config, s: State, id: nat, nonce: nat, writes: bool)
    requires PaidUp(cfg, s)
    ensures PaidUp(cfg, DoChallenge(cfg, s, id, nonce, writes))
  {
    hide WellFormed, DeliveriesPaid, RequestsOk, Store;
    if id in s.requests && s.requests[id].phase.Rejected? && nonce !in s.issued {
      var s' := DoChallenge(cfg, s, id, nonce, writes);
      var grown := s.(issued := s'.issued);
      GrowthKeeps(cfg, s, grown);
      FinishedIsOk(cfg, grown, id);
      OneRequest(cfg, grown, s', id);
    }
  }

  lemma FinishedIsOk(cfg: Config, s: State, id: nat)
    requires PaidUp(cfg, s) && id in s.requests
    ensures RequestOk(cfg, s.requests[id].(phase := Finished), s.chain, s.issued)
  {
    assert RequestOk(cfg, s.requests[id], s.chain, s.issued);
  }

  lemma ScheduleKeepsPaid(cfg: Config, s: State, id: nat, task: nat, pruneWrites: nat, queueWrites: nat)
    requires PaidUp(cfg, s)
    ensures PaidUp(cfg, DoSchedule(cfg, s, id, task, pruneWrites, queueWrites))
  {
    hide WellFormed, DeliveriesPaid, RequestsOk, Q.EnqueueStep;
    if id in s.requests && s.requests[id].phase.Sent? && task !in s.tasks {
      FinishedIsOk(cfg, s, id);
      OneRequest(cfg, s, DoSchedule(cfg, s, id, task, pruneWrites, queueWrites), id);
    }
  }

  lemma ArriveKeepsPaid(cfg: Config, s: State, id: nat, serviceId: nat, seenActive: bool, proof: Option<Proof>)
    requires PaidUp(cfg, s)
    ensures PaidUp(cfg, DoArrive(s, id, serviceId, seenActive, proof))
  {
    hide WellFormed, DeliveriesPaid;
    if s.up && id !in s.requests && serviceId in s.chain.services && seenActive {
      OneRequest(cfg, s, DoArrive(s, id, serviceId, seenActive, proof), id);
    }
  }

  lemma ChainKeepsPaid(cfg: Config, s: State, op: Op)
    requires PaidUp(cfg, s)
    ensures PaidUp(cfg, s.(chain := Apply(s.chain, op, s.now)))
  {
    hide WellFormed, DeliveriesPaid, RequestsOk, Apply, Grows;
    ApplyGrows(s.chain, op, s.now);
    ApplyKeepsWellFormed(s.chain, op, s.now);
    GrowthKeeps(cfg, s, s.(chain := Apply(s.chain, op, s.now)));
  }

  lemma SubmitKeepsPaid(cfg: Config, s: State, task: nat, arrives: bool)
    requires PaidUp(cfg, s)
    ensures PaidUp(cfg, DoSubmit(s, task, arrives))
  {
    hide WellFormed, DeliveriesPaid, RequestsOk, Record, Grows;
    GrowsSelf(s.chain);
    if task in s.tasks {
      var t := s.tasks[task];
      RecordGrows(s.chain, t.entry.serviceId, t.entry.paymentTxHash, t.entry.success, t.signer, s.now);
      RecordKeepsWellFormed(s.chain, t.entry.serviceId, t.entry.paymentTxHash, t.entry.success, t.signer, s.now);
    }
    GrowthKeeps(cfg, s, DoSubmit(s, task, arrives));
  }

  lemma RecordKeepsWellFormed(l: Ledger, serviceId: nat, txHash: TxHash, success: bool, signer: Account, now: int)
    requires WellFormed(l)
    ensures WellFormed(Record(l, serviceId, txHash, success, signer, now).0)
  {
    ApplyKeepsWellFormed(l, RecordOp(serviceId, txHash, success, signer), now);
  }

  lemma GrowsSelf(l: Ledger)
    ensures Grows(l, l)
  {
  }

  lemma PaidUpStep(cfg: Config, s: State, e: Event)
    requires PaidUp(cfg, s) && StoreOk(cfg, s.store, s.issued, s.acked)
    ensures PaidUp(cfg, Next(cfg, s, e))
  {
    hide PaidUp, StoreOk, DoArrive, DoLookup, DoReadChain, DoJudge, DoCheckPayer, DoBurn, DoAnswer, DoFailUpstream,
         DoChallenge, DoSchedule, DoSubmit, Store, Q.PruneStep, Q.RemoveStep, Apply, Record;
    match e
    case Arrive(id, serviceId, seenActive, proof) => ArriveKeepsPaid(cfg, s, id, serviceId, seenActive, proof);
    case Lookup(id) => LookupKeeps(cfg, s, id);
    case ReadChain(id) => ReadChainKeeps(cfg, s, id);
    case Judge(id) => JudgeKeeps(cfg, s, id);
    case CheckPayer(id) => CheckPayerKeeps(cfg, s, id);
    case Burn(id, writes) => BurnKeepsPaid(cfg, s, id, writes);
    case Answer(id, status) => AnswerIsPaid(cfg, s, id, status);
    case FailUpstream(id, writes) => FailUpstreamKeepsPaid(cfg, s, id, writes);
    case Challenge(id, nonce, writes) => ChallengeKeepsPaid(cfg, s, id, nonce, writes);
    case Schedule(id, task, pruneWrites, queueWrites) => ScheduleKeepsPaid(cfg, s, id, task, pruneWrites, queueWrites);
    case ChainStep(op) => ChainKeepsPaid(cfg, s, op);
    case Submit(task, arrives) => SubmitKeepsPaid(cfg, s, task, arrives);
    case _ =>
      SameIsPaid(cfg, s, Next(cfg, s, e));
  }

  lemma SameIsPaid(cfg: Config, s: State, s': State)
    requires PaidUp(cfg, s)
    requires s'.deliveries == s.deliveries && s'.chain == s.chain && s'.issued == s.issued
    requires s'.requests == s.requests || s'.requests == map[]
    ensures PaidUp(cfg, s')
  {
  }

  lemma {:induction false} RunIsPaidUp(cfg: Config, events: seq<Event>)
    ensures PaidUp(cfg, RunOf(cfg, events))
  {
    if events != [] {
      hide PaidUp, Next, HoldersOk, DeliveredOk, StoreOk;
      RunIsPaidUp(cfg, events[..|events| - 1]);
      RunIsSingleUse(cfg, events[..|events| - 1]);
      PaidUpStep(cfg, RunOf(cfg, events[..|events| - 1]), events[|events| - 1]);
    }
  }

  // ---- money ----------------------------------------------------------------------------------

  /** What was delivered for a service, at the recorded prices. */
  function Revenue(deliveries: seq<Delivery>, serviceId: nat): nat {
    if deliveries == [] then 0
    else
      var last := deliveries[|deliveries| - 1];
      Revenue(deliveries[..|deliveries| - 1], serviceId) + if last.serviceId == serviceId then last.priceWei else 0
  }

  predicate SettlesFor(t: Transfer, serviceId: nat, target: Account) {
    t.serviceId == serviceId && t.to == target
  }

  /** What was settled to a service's target in its name. */
  function SettledTo(transfers: seq<Transfer>, serviceId: nat, target: Account): nat {
    if transfers == [] then 0
    else (if SettlesFor(transfers[0], serviceId, target) then transfers[0].amountWei else 0)
         + SettledTo(transfers[1..], serviceId, target)
  }

  function Without<T>(s: seq<T>, i: nat): seq<T>
    requires i < |s|
  {
    s[..i] + s[i + 1..]
  }

  lemma {:induction false} TakeOne(transfers: seq<Transfer>, i: nat, serviceId: nat, target: Account)
    requires i < |transfers|
    ensures SettledTo(transfers, serviceId, target)
            == SettledTo(Without(transfers, i), serviceId, target)
               + if SettlesFor(transfers[i], serviceId, target) then transfers[i].amountWei else 0
  {
    if i > 0 {
      TakeOne(transfers[1..], i - 1, serviceId, target);
      assert Without(transfers, i)[1..] == Without(transfers[1..], i - 1);
    } else {
      assert Without(transfers, 0) == transfers[1..];
    }
  }

  /** Each delivery for the service has its own transfer, found by its nonce. */
  ghost predicate Matched(deliveries: seq<Delivery>, transfers: seq<Transfer>, serviceId: nat, target: Account) {
    && (forall i, j :: 0 <= i < j < |deliveries| ==> deliveries[i].nonce != deliveries[j].nonce)
    && (forall i :: 0 <= i < |deliveries| && deliveries[i].serviceId == serviceId ==>
          exists t :: t in transfers && SettlesFor(t, serviceId, target)
                      && t.nonce == deliveries[i].nonce && t.amountWei >= deliveries[i].priceWei)
  }

  lemma {:induction false} RevenueIsCovered(
    deliveries: seq<Delivery>, transfers: seq<Transfer>, serviceId: nat, target: Account)
    requires Matched(deliveries, transfers, serviceId, target)
    ensures Revenue(deliveries, serviceId) <= SettledTo(transfers, serviceId, target)
  {
    if deliveries != [] {
      var before, last := deliveries[..|deliveries| - 1], deliveries[|deliveries| - 1];
      if last.serviceId == serviceId {
        var t :| t in transfers && SettlesFor(t, serviceId, target) && t.nonce == last.nonce
            && t.amountWei >= last.priceWei;
        var i :| 0 <= i < |transfers| && transfers[i] == t;
        TakeOne(transfers, i, serviceId, target);
        forall k | 0 <= k < |before| && before[k].serviceId == serviceId
          ensures exists u :: u in Without(transfers, i) && SettlesFor(u, serviceId, target)
                              && u.nonce == before[k].nonce && u.amountWei >= before[k].priceWei
        {
          assert before[k] == deliveries[k];
          var u :| u in transfers && SettlesFor(u, serviceId, target)
                   && u.nonce == before[k].nonce && u.amountWei >= before[k].priceWei;
          var j :| 0 <= j < |transfers| && transfers[j] == u;
          assert j != i;
          assert u in Without(transfers, i) by {
            assert Without(transfers, i)[if j < i then j else j - 1] == u;
          }
        }
        RevenueIsCovered(before, Without(transfers, i), serviceId, target);
      } else {
        RevenueIsCovered(before, transfers, serviceId, target);
      }
    }
  }

  // ---- the theorems ------------------------------------------------------------------------------

  /** Every delivery was settled by a transfer of its own: for this service and nonce, to the
      service's target, of at least the recorded price, under the presented hash, no later than
      the invoice's deadline, and, where signatures are demanded, by the address that signed
      the proof. No transfer settles two deliveries. */
  lemma {:induction false} EveryDeliveryIsPaid(cfg: Config, events: seq<Event>)
    ensures var s := RunOf(cfg, events);
            && (forall i :: 0 <= i < |s.deliveries| ==> DeliveryPaid(cfg, s.deliveries[i], s.chain, s.issued))
            && (forall i, j, t, a, b :: 0 <= i < j < |s.deliveries| && Settles(cfg, t, s.deliveries[i], a, s.issued) ==>
                  !Settles(cfg, t, s.deliveries[j], b, s.issued))
  {
    hide RunOf, DeliveryPaid;
    RunIsPaidUp(cfg, events);
    RunIsSingleUse(cfg, events);
  }

  /** Per service, the delivered prices never add up to more than was settled to its target. */
  lemma {:induction false} RevenueNeverExceedsSettlement(cfg: Config, events: seq<Event>, serviceId: nat)
    ensures var s := RunOf(cfg, events);
            serviceId in s.chain.services ==>
              Revenue(s.deliveries, serviceId)
              <= SettledTo(s.chain.transfers, serviceId, s.chain.services[serviceId].paymentTarget)
  {
    hide RunOf, Revenue, SettledTo, WellFormed, RequestsOk, StoreOk, HoldersOk;
    RunIsPaidUp(cfg, events);
    RunIsSingleUse(cfg, events);
    var s := RunOf(cfg, events);
    if serviceId in s.chain.services {
      var target := s.chain.services[serviceId].paymentTarget;
      forall i | 0 <= i < |s.deliveries| && s.deliveries[i].serviceId == serviceId
        ensures exists t :: t in s.chain.transfers && SettlesFor(t, serviceId, target)
                            && t.nonce == s.deliveries[i].nonce && t.amountWei >= s.deliveries[i].priceWei
      {
        assert DeliveryPaid(cfg, s.deliveries[i], s.chain, s.issued);
        var k :| 0 <= k < |s.chain.transfers| && Settles(cfg, s.chain.transfers[k], s.deliveries[i], target, s.issued);
        assert s.chain.transfers[k] in s.chain.transfers;
      }
      RevenueIsCovered(s.deliveries, s.chain.transfers, serviceId, target);
    }
  }
}
