/** The paid-call protocol of packages/middleware/src/app.ts as a state machine.

    One event is one stretch of code between two awaits (or between two statements the
    process can die between), a step of the chain, a timer, a crash or a boot. An event that
    is not enabled leaves the state alone, so every sequence of events is a run. What the
    environment decides is carried by the event: the nonce drawn, the upstream's answer,
    whether a write throws, whether a message to the chain arrives.

    Any event may come between any two others. That allows more runs than the code does, which
    has no pause between some of these steps; `GatewayBurns` deals with the one place where it
    matters. */
module Gateway {
  import opened Basics
  import opened ChainLedger
  import opened Verification
  import I = Invoices
  import Q = PendingQueue

  datatype Config = Config(
    invoiceTtlMs: nat,
    redemptionWindowMs: nat,
    demandsSignature: bool,
    attestationMaxAttempts: nat,
    invoicesOnDisk: bool,
    queue: Q.Options)

  /** A presented payment proof. `signer` is the address its signature recovers to. */
  datatype Proof = Proof(txHash: TxHash, nonce: nat, signer: Option<Account>)

  datatype Rejection =
    | PaymentRequired
    | UnknownNonce
    | InvoiceUsed
    | NotSettled(reason: Refusal)
    | InvoiceExpired
    | ProofUnsigned
    | ProofInvalid

  /** Where a request stands; each phase holds what the handler's locals hold. */
  datatype Phase =
    | Resolved
    | Found(invoice: I.Invoice)
    | Read(lookedUp: I.Invoice, answer: Option<Transfer>)
    | Verified(paid: Transfer)
    | Cleared(payment: Transfer)
    | Burnt(burning: Transfer)
    | Sent(settled: Transfer, status: nat)
    | Rejected(why: Rejection)
    | Finished

  datatype Request = Request(serviceId: nat, service: Service, proof: Option<Proof>, phase: Phase)

  /** One attestation attempt loop. */
  datatype Task = Task(entry: Q.Entry, signer: Account, attempt: nat, phase: TaskPhase)

  datatype TaskPhase = Ready | Awaiting(recorded: bool)

  /** Who holds a burnt invoice. */
  datatype Holder = InFlight(request: nat) | Delivered | Lost

  /** An upstream response that was sent to a buyer. */
  datatype Delivery = Delivery(
    serviceId: nat, nonce: nat, txHash: TxHash, payer: Account, presenter: Option<Account>,
    priceWei: nat, status: nat)

  /** The running system, the chain, and the history the theorems speak about: every invoice
      ever stored, those whose challenge was sent and can still be known, the holders of burnt
      invoices, the deliveries, and the payments whose enqueue returned. */
  datatype State = State(
    now: int,
    chain: Ledger,
    up: bool,
    store: I.FileState,
    queue: Q.State,
    requests: map<nat, Request>,
    tasks: map<nat, Task>,
    issued: map<nat, I.Invoice>,
    acked: set<nat>,
    holders: map<nat, Holder>,
    deliveries: seq<Delivery>,
    enqueued: set<(nat, TxHash)>)

  datatype Event =
    | Tick(ms: nat)
    | ChainStep(op: Op)
    | Arrive(id: nat, serviceId: nat, seenActive: bool, proof: Option<Proof>)
    | Lookup(id: nat)
    | ReadChain(id: nat)
    | Judge(id: nat)
    | CheckPayer(id: nat)
    | Burn(id: nat, writes: bool)
    | Answer(id: nat, status: nat)
    | FailUpstream(id: nat, writes: bool)
    | Challenge(id: nat, nonce: nat, writes: bool)
    | Schedule(id: nat, task: nat, pruneWrites: nat, queueWrites: nat)
    | Submit(task: nat, arrives: bool)
    | Settle(task: nat, heard: bool, queueWrites: nat)
    | SweepInvoices(writes: bool)
    | PruneQueue(queueWrites: nat)
    | Crash
    | Boot(queueWrites: nat, unanswered: set<nat>)

  const START := State(
    0, GENESIS, false, I.FileState(map[], map[]), Q.Reloaded(Q.Disk([], [])),
    map[], map[], map[], {}, map[], [], {})

  // ---- the stores, with or without a file ------------------------------------------

  function Store(cfg: Config, store: I.FileState, op: I.Op, writes: bool): (I.FileState, bool) {
    if cfg.invoicesOnDisk then
      (I.ApplyFile(store, op, writes, cfg.redemptionWindowMs),
       writes || !I.Flushes(store.memory, op, cfg.redemptionWindowMs))
    else
      (store.(memory := I.Apply(store.memory, op, cfg.redemptionWindowMs)), true)
  }

  function SetPhase(s: State, id: nat, phase: Phase): State
    requires id in s.requests
  {
    s.(requests := s.requests[id := s.requests[id].(phase := phase)])
  }

  /** What a transfer must be to pay for a call. */
  predicate PaysFor(t: Transfer, serviceId: nat, nonce: nat, target: Account, priceWei: nat) {
    t.serviceId == serviceId && t.nonce == nonce && t.to == target && t.amountWei >= priceWei
  }

  /** Where the gateway demands a signature, the payer's. */
  predicate SignedByPayer(cfg: Config, signer: Option<Account>, t: Transfer) {
    cfg.demandsSignature ==> signer == Some(t.from)
  }

  predicate IsSelfPayment(payer: Account, service: Service) {
    payer == service.owner || payer == service.paymentTarget || payer == service.attestor
  }

  predicate IsSuccess(status: nat) {
    200 <= status < 300
  }

  // ---- the handler, step by step -----------------------------------------------------

  /** The service record may come from the gateway's cache, so its active flag may be stale. */
  function DoArrive(s: State, id: nat, serviceId: nat, seenActive: bool, proof: Option<Proof>): State {
    if !s.up || id in s.requests || serviceId !in s.chain.services || !seenActive then s else
    var service := s.chain.services[serviceId].(active := seenActive);
    var phase := if proof.None? then Rejected(PaymentRequired) else Resolved;
    s.(requests := s.requests[id := Request(serviceId, service, proof, phase)])
  }

  function LookedUp(r: Request, image: I.Image): (phase: Phase)
    requires r.proof.Some?
    ensures phase.Rejected? || phase.Found?
  {
    match I.Get(image, r.proof.value.nonce)
    case None => Rejected(UnknownNonce)
    case Some(invoice) =>
      if invoice.serviceId != r.serviceId then Rejected(UnknownNonce)
      else if invoice.used then Rejected(InvoiceUsed)
      else Found(invoice)
  }

  function DoLookup(s: State, id: nat): State {
    if id !in s.requests || !s.requests[id].phase.Resolved? || s.requests[id].proof.None? then s
    else SetPhase(s, id, LookedUp(s.requests[id], s.store.memory))
  }

  function DoReadChain(s: State, id: nat): State {
    if id !in s.requests || !s.requests[id].phase.Found? || s.requests[id].proof.None? then s else
    var r := s.requests[id];
    SetPhase(s, id, Read(r.phase.invoice, FindTransfer(s.chain.transfers, r.proof.value.txHash)))
  }

  function QueryOf(cfg: Config, r: Request): Query
    requires r.proof.Some?
  {
    Query(r.proof.value.txHash, r.serviceId, r.service.paymentTarget, r.service.priceWei,
          r.proof.value.nonce, cfg.redemptionWindowMs)
  }

  /** The verdict, and then the one expiry question: was it paid before the invoice lapsed? */
  function Judged(cfg: Config, r: Request, now: int): (phase: Phase)
    requires r.phase.Read? && r.proof.Some?
    ensures phase.Rejected? || phase.Verified?
  {
    match MockVerdict(r.phase.answer, QueryOf(cfg, r), now)
    case Refused(reason) => Rejected(NotSettled(reason))
    case Settled(_, _, timestamp) =>
      if timestamp > r.phase.lookedUp.expiresAt then Rejected(InvoiceExpired)
      else Verified(r.phase.answer.value)
  }

  function DoJudge(cfg: Config, s: State, id: nat): State {
    if id !in s.requests || !s.requests[id].phase.Read? || s.requests[id].proof.None? then s
    else SetPhase(s, id, Judged(cfg, s.requests[id], s.now))
  }

  function PayerChecked(cfg: Config, r: Request): (phase: Phase)
    requires r.phase.Verified? && r.proof.Some?
    ensures phase.Rejected? || phase.Cleared?
  {
    var paid := r.phase.paid;
    if cfg.demandsSignature && r.proof.value.signer.None? then Rejected(ProofUnsigned)
    else if cfg.demandsSignature && r.proof.value.signer.value != paid.from then Rejected(ProofInvalid)
    else Cleared(paid)
  }

  function DoCheckPayer(cfg: Config, s: State, id: nat): State {
    if id !in s.requests || !s.requests[id].phase.Verified? || s.requests[id].proof.None? then s
    else SetPhase(s, id, PayerChecked(cfg, s.requests[id]))
  }

  /** Burns the nonce before proxying. When the flush throws the request dies with the flag
      set in memory and not on disk. */
  function DoBurn(cfg: Config, s: State, id: nat, writes: bool): State {
    if id !in s.requests || !s.requests[id].phase.Cleared? || s.requests[id].proof.None? then s else
    var r := s.requests[id];
    var nonce := r.proof.value.nonce;
    if !I.Burnable(s.store.memory, nonce) then SetPhase(s, id, Rejected(InvoiceUsed)) else
    var (store, ok) := Store(cfg, s.store, I.MarkUsedOp(nonce), writes);
    var s' := s.(store := store, holders := s.holders[nonce := if ok then InFlight(id) else Lost]);
    SetPhase(s', id, if ok then Burnt(r.phase.payment) else Finished)
  }

  function DeliveryOf(r: Request, status: nat): Delivery
    requires r.phase.Burnt? && r.proof.Some?
  {
    var proof := r.proof.value;
    Delivery(r.serviceId, proof.nonce, proof.txHash, r.phase.burning.from, proof.signer, r.service.priceWei, status)
  }

  function DoAnswer(s: State, id: nat, status: nat): State {
    if id !in s.requests || !s.requests[id].phase.Burnt? || s.requests[id].proof.None? then s else
    var r := s.requests[id];
    SetPhase(s.(deliveries := s.deliveries + [DeliveryOf(r, status)],
                holders := s.holders[r.proof.value.nonce := Delivered]),
             id, Sent(r.phase.burning, status))
  }

  /** A failure on the gateway's side gives the invoice back, and nothing is attested. */
  function DoFailUpstream(cfg: Config, s: State, id: nat, writes: bool): State {
    if id !in s.requests || !s.requests[id].phase.Burnt? || s.requests[id].proof.None? then s else
    var nonce := s.requests[id].proof.value.nonce;
    var store := Store(cfg, s.store, I.ReleaseOp(nonce), writes).0;
    SetPhase(s.(store := store, holders := s.holders - {nonce}), id, Finished)
  }

  /** Answers a rejected request with a fresh invoice. A drawn nonce is assumed never to have
      been issued before. */
  function DoChallenge(cfg: Config, s: State, id: nat, nonce: nat, writes: bool): State {
    if id !in s.requests || !s.requests[id].phase.Rejected? || nonce in s.issued then s else
    var r := s.requests[id];
    var invoice := I.Invoice(nonce, r.serviceId, r.service.priceWei, s.now + cfg.invoiceTtlMs, false);
    var (store, ok) := Store(cfg, s.store, I.PutOp(invoice), writes);
    SetPhase(s.(store := store, issued := s.issued[nonce := invoice],
                acked := if ok then s.acked + {nonce} else s.acked),
             id, Finished)
  }

  function EntryOf(r: Request, payment: Transfer, status: nat, now: int): Q.Entry {
    Q.Entry(payment.txHash, r.serviceId, payment.nonce, payment.from, IsSuccess(status), now, 0, "")
  }

  /** After the response: enqueue the attestation, then start its attempt loop. */
  function DoSchedule(cfg: Config, s: State, id: nat, task: nat, pruneWrites: nat, queueWrites: nat): State {
    if id !in s.requests || !s.requests[id].phase.Sent? || task in s.tasks then s else
    var r := s.requests[id];
    var payment := r.phase.settled;
    if IsSelfPayment(payment.from, r.service) then SetPhase(s, id, Finished) else
    var entry := EntryOf(r, payment, r.phase.status, s.now);
    var (queue, ok) := Q.EnqueueStep(s.queue, entry, s.now, pruneWrites, queueWrites, cfg.queue);
    var s' := SetPhase(s.(queue := queue), id, Finished);
    if !ok then s'
    else s'.(enqueued := s.enqueued + {(r.serviceId, payment.txHash)},
             tasks := s.tasks[task := Task(entry, r.service.attestor, 1, Ready)])
  }

  // ---- attestation attempts ------------------------------------------------------------

  /** Sends one attempt. A duplicate counts as recorded. */
  function DoSubmit(s: State, task: nat, arrives: bool): State {
    if task !in s.tasks || !s.tasks[task].phase.Ready? then s else
    var t := s.tasks[task];
    if !arrives then s.(tasks := s.tasks[task := t.(phase := Awaiting(false))]) else
    var (chain, outcome) := Record(s.chain, t.entry.serviceId, t.entry.paymentTxHash, t.entry.success, t.signer, s.now);
    var recorded := outcome.Ok? || outcome.error == DuplicateAttestation;
    s.(chain := chain, tasks := s.tasks[task := t.(phase := Awaiting(recorded))])
  }

  /** The attempt resolves or rejects; `heard` is whether the chain's answer came back. */
  function DoSettle(cfg: Config, s: State, task: nat, heard: bool, queueWrites: nat): State {
    if task !in s.tasks || !s.tasks[task].phase.Awaiting? then s else
    var t := s.tasks[task];
    if heard && t.phase.recorded then
      s.(queue := Q.RemoveStep(s.queue, t.entry.paymentTxHash, queueWrites).0, tasks := s.tasks - {task})
    else if t.attempt >= cfg.attestationMaxAttempts then s.(tasks := s.tasks - {task})
    else s.(tasks := s.tasks[task := t.(attempt := t.attempt + 1, phase := Ready)])
  }

  // ---- timers, crashes and boots --------------------------------------------------------

  function DoSweep(cfg: Config, s: State, writes: bool): State {
    if !s.up then s else s.(store := Store(cfg, s.store, I.SweepOp(s.now), writes).0)
  }

  function DoPruneQueue(cfg: Config, s: State, queueWrites: nat): State {
    if !s.up then s else s.(queue := Q.PruneStep(s.queue, s.now, queueWrites, cfg.queue).0)
  }

  predicate HasDelivery(deliveries: seq<Delivery>, nonce: nat) {
    exists i :: 0 <= i < |deliveries| && deliveries[i].nonce == nonce
  }

  /** The process dies: requests and attempt loops are gone, and the images are what the
      files hold. A burnt invoice that was not delivered has lost its holder. */
  function DoCrash(cfg: Config, s: State): State {
    var disk := s.store.disk;
    s.(up := false,
       store := I.FileState(disk, disk),
       queue := Q.Reloaded(s.queue.disk),
       requests := map[],
       tasks := map[],
       acked := if cfg.invoicesOnDisk then s.acked else {},
       holders := map nonce | nonce in disk && disk[nonce].used ::
                    if HasDelivery(s.deliveries, nonce) then Delivered else Lost)
  }

  /** Boot replays every pending attestation whose service is known, and whose look-up answers. */
  function DoBoot(cfg: Config, s: State, queueWrites: nat, unanswered: set<nat>): State {
    if s.up then s else
    var (queue, ok) := Q.PruneStep(s.queue, s.now, queueWrites, cfg.queue);
    var pending := queue.memory.items;
    s.(up := true, queue := queue,
       tasks := if !ok then map[] else
                map i: nat | i < |pending| && pending[i].serviceId in s.chain.services && i !in unanswered ::
                  Task(pending[i], s.chain.services[pending[i].serviceId].attestor, 1, Ready))
  }

  /** A service's own attestor or owner recording past the gateway, which is assumed not to
      happen; anyone else may try. */
  predicate PassesGateway(l: Ledger, op: Op) {
    op.RecordOp? && op.serviceId in l.services
        && op.recorder in {l.services[op.serviceId].attestor, l.services[op.serviceId].owner}
  }

  function Next(cfg: Config, s: State, e: Event): State {
    match e
    case Tick(ms) => s.(now := s.now + ms)
    case ChainStep(op) => if PassesGateway(s.chain, op) then s else s.(chain := Apply(s.chain, op, s.now))
    case Arrive(id, serviceId, seenActive, proof) => DoArrive(s, id, serviceId, seenActive, proof)
    case Lookup(id) => DoLookup(s, id)
    case ReadChain(id) => DoReadChain(s, id)
    case Judge(id) => DoJudge(cfg, s, id)
    case CheckPayer(id) => DoCheckPayer(cfg, s, id)
    case Burn(id, writes) => DoBurn(cfg, s, id, writes)
    case Answer(id, status) => DoAnswer(s, id, status)
    case FailUpstream(id, writes) => DoFailUpstream(cfg, s, id, writes)
    case Challenge(id, nonce, writes) => DoChallenge(cfg, s, id, nonce, writes)
    case Schedule(id, task, pruneWrites, queueWrites) => DoSchedule(cfg, s, id, task, pruneWrites, queueWrites)
    case Submit(task, arrives) => DoSubmit(s, task, arrives)
    case Settle(task, heard, queueWrites) => DoSettle(cfg, s, task, heard, queueWrites)
    case SweepInvoices(writes) => DoSweep(cfg, s, writes)
    case PruneQueue(queueWrites) => DoPruneQueue(cfg, s, queueWrites)
    case Crash => DoCrash(cfg, s)
    case Boot(queueWrites, unanswered) => DoBoot(cfg, s, queueWrites, unanswered)
  }

  function RunOf(cfg: Config, events: seq<Event>): State {
    if events == [] then START else Next(cfg, RunOf(cfg, events[..|events| - 1]), events[|events| - 1])
  }

  lemma RunPush(cfg: Config, events: seq<Event>, e: Event)
    ensures RunOf(cfg, events + [e]) == Next(cfg, RunOf(cfg, events), e)
  {
    hide Next;
    assert (events + [e])[..|events|] == events;
  }
}
