/** The attestation pipeline: what the chain scores was earned, and what was enqueued is not
    lost, across retries, duplicate submissions, lost answers, crashes and boot replay. */
module GatewayScores {
  import opened Basics
  import opened ChainLedger
  import opened Verification
  import opened Gateway
  import opened GatewaySafety
  import opened GatewayPayments
  import I = Invoices
  import Q = PendingQueue

  /** A delivered call that may be scored with this flag: its own outcome, and not self-paid. */
  predicate Scores(d: Delivery, services: map<nat, Service>, serviceId: nat, txHash: TxHash, success: bool) {
    && d.serviceId == serviceId && d.txHash == txHash && IsSuccess(d.status) == success
    && serviceId in services && !IsSelfPayment(d.payer, services[serviceId])
  }

  ghost predicate Earned(
    deliveries: seq<Delivery>, services: map<nat, Service>, serviceId: nat, txHash: TxHash, success: bool)
  {
    exists i :: 0 <= i < |deliveries| && Scores(deliveries[i], services, serviceId, txHash, success)
  }

  ghost predicate EntryEarned(deliveries: seq<Delivery>, services: map<nat, Service>, e: Q.Entry) {
    Earned(deliveries, services, e.serviceId, e.paymentTxHash, e.success)
  }

  ghost predicate QueueEarned(queue: Q.State, deliveries: seq<Delivery>, services: map<nat, Service>) {
    && (forall e :: e in queue.memory.items ==> EntryEarned(deliveries, services, e))
    && (forall e :: e in queue.disk.live ==> EntryEarned(deliveries, services, e))
  }

  ghost predicate TasksEarned(tasks: map<nat, Task>, deliveries: seq<Delivery>, l: Ledger) {
    forall id :: id in tasks ==>
      && EntryEarned(deliveries, l.services, tasks[id].entry)
      && (tasks[id].phase == Awaiting(true) ==>
            Attested(l.attested, tasks[id].entry.serviceId, tasks[id].entry.paymentTxHash))
  }

  ghost predicate ChainEarned(l: Ledger, deliveries: seq<Delivery>) {
    forall i :: 0 <= i < |l.attested| ==>
      Earned(deliveries, l.services, l.attested[i].serviceId, l.attested[i].paymentTxHash, l.attested[i].success)
  }

  /** A request whose response was sent has its delivery on record. */
  ghost predicate OnRecord(deliveries: seq<Delivery>, r: Request) {
    r.phase.Sent? ==>
      exists i :: 0 <= i < |deliveries| && deliveries[i].serviceId == r.serviceId
                  && deliveries[i].txHash == r.phase.settled.txHash && deliveries[i].payer == r.phase.settled.from
                  && deliveries[i].status == r.phase.status
  }

  ghost predicate AllOnRecord(requests: map<nat, Request>, deliveries: seq<Delivery>) {
    forall id :: id in requests ==> OnRecord(deliveries, requests[id])
  }

  ghost predicate AllEarned(s: State) {
    && QueueEarned(s.queue, s.deliveries, s.chain.services)
    && TasksEarned(s.tasks, s.deliveries, s.chain)
    && ChainEarned(s.chain, s.deliveries)
    && AllOnRecord(s.requests, s.deliveries)
  }

  // ---- preservation ------------------------------------------------------------------------------

  ghost predicate Extends(deliveries: seq<Delivery>, l: Ledger, deliveries': seq<Delivery>, l': Ledger) {
    deliveries <= deliveries' && Grows(l, l')
  }

  lemma ExtendsBy(deliveries: seq<Delivery>, l: Ledger, l': Ledger)
    requires Grows(l, l')
    ensures Extends(deliveries, l, deliveries, l')
  {
  }

  lemma StaysEarned(
    deliveries: seq<Delivery>, l: Ledger, deliveries': seq<Delivery>, l': Ledger,
    serviceId: nat, txHash: TxHash, success: bool)
    requires Extends(deliveries, l, deliveries', l')
    requires Earned(deliveries, l.services, serviceId, txHash, success)
    ensures Earned(deliveries', l'.services, serviceId, txHash, success)
  {
    var i :| 0 <= i < |deliveries| && Scores(deliveries[i], l.services, serviceId, txHash, success);
    assert Scores(deliveries'[i], l'.services, serviceId, txHash, success);
  }

  lemma StaysAttested(l: Ledger, l': Ledger, serviceId: nat, txHash: TxHash)
    requires Grows(l, l') && Attested(l.attested, serviceId, txHash)
    ensures Attested(l'.attested, serviceId, txHash)
  {
    var i :| 0 <= i < |l.attested| && l.attested[i].serviceId == serviceId && l.attested[i].paymentTxHash == txHash;
    assert l'.attested[i] == l.attested[i];
  }

  lemma QueueStays(queue: Q.State, deliveries: seq<Delivery>, l: Ledger, deliveries': seq<Delivery>, l': Ledger)
    requires Extends(deliveries, l, deliveries', l') && QueueEarned(queue, deliveries, l.services)
    ensures QueueEarned(queue, deliveries', l'.services)
  {
    hide Extends, Earned;
    forall e | e in queue.memory.items || e in queue.disk.live
      ensures EntryEarned(deliveries', l'.services, e)
    {
      StaysEarned(deliveries, l, deliveries', l', e.serviceId, e.paymentTxHash, e.success);
    }
  }

  lemma TasksStay(tasks: map<nat, Task>, deliveries: seq<Delivery>, l: Ledger, deliveries': seq<Delivery>, l': Ledger)
    requires Extends(deliveries, l, deliveries', l') && TasksEarned(tasks, deliveries, l)
    ensures TasksEarned(tasks, deliveries', l')
  {
    hide Earned, Attested, Grows;
    forall id | id in tasks
      ensures EntryEarned(deliveries', l'.services, tasks[id].entry)
      ensures tasks[id].phase == Awaiting(true) ==>
                Attested(l'.attested, tasks[id].entry.serviceId, tasks[id].entry.paymentTxHash)
    {
      var e := tasks[id].entry;
      StaysEarned(deliveries, l, deliveries', l', e.serviceId, e.paymentTxHash, e.success);
      if tasks[id].phase == Awaiting(true) {
        StaysAttested(l, l', e.serviceId, e.paymentTxHash);
      }
    }
  }

  /** Nothing but the chain and the deliveries grew, and the chain scored nothing new. */
  lemma GrowthStaysEarned(s: State, s': State)
    requires AllEarned(s)
    requires Extends(s.deliveries, s.chain, s'.deliveries, s'.chain) && s'.chain.attested == s.chain.attested
    requires s'.queue == s.queue && s'.tasks == s.tasks
    requires AllOnRecord(s'.requests, s'.deliveries)
    ensures AllEarned(s')
  {
    hide Earned, Extends, QueueEarned, TasksEarned, AllOnRecord;
    QueueStays(s.queue, s.deliveries, s.chain, s'.deliveries, s'.chain);
    TasksStay(s.tasks, s.deliveries, s.chain, s'.deliveries, s'.chain);
    forall i | 0 <= i < |s'.chain.attested|
      ensures Earned(s'.deliveries, s'.chain.services, s'.chain.attested[i].serviceId,
                     s'.chain.attested[i].paymentTxHash, s'.chain.attested[i].success)
    {
      var a := s.chain.attested[i];
      StaysEarned(s.deliveries, s.chain, s'.deliveries, s'.chain, a.serviceId, a.paymentTxHash, a.success);
    }
  }

  lemma RecordsStay(requests: map<nat, Request>, requests': map<nat, Request>, deliveries: seq<Delivery>, id: nat)
    requires AllOnRecord(requests, deliveries)
    requires forall other :: other in requests' && other != id ==>
        other in requests && requests'[other] == requests[other]
    requires id in requests' ==> OnRecord(deliveries, requests'[id])
    ensures AllOnRecord(requests', deliveries)
  {
    hide OnRecord;
  }

  /** A handler step that changes one request, to a phase other than `Sent`. */
  lemma HandlerEarned(s: State, s': State, id: nat)
    requires AllEarned(s)
    requires s'.queue == s.queue && s'.tasks == s.tasks && s'.chain == s.chain && s'.deliveries == s.deliveries
    requires s'.requests == s.requests
        || (id in s'.requests && s'.requests == s.requests[id := s'.requests[id]] && !s'.requests[id].phase.Sent?)
    ensures AllEarned(s')
  {
    hide QueueEarned, TasksEarned, ChainEarned;
    RecordsStay(s.requests, s'.requests, s.deliveries, id);
  }

  lemma AnswerEarned(cfg: Config, s: State, id: nat, status: nat)
    requires AllEarned(s) && PaidUp(cfg, s)
    ensures AllEarned(DoAnswer(s, id, status))
  {
    hide QueueEarned, TasksEarned, ChainEarned, WellFormed, DeliveriesPaid, AllOnRecord;
    if id in s.requests && s.requests[id].phase.Burnt? && s.requests[id].proof.Some? {
      var s' := DoAnswer(s, id, status);
      GrowsSelf(s.chain);
      assert RequestOk(cfg, s.requests[id], s.chain, s.issued);
      MoreRecords(s.requests, s.deliveries, s'.deliveries);
      assert s'.deliveries[|s.deliveries|].status == status;
      RecordsStay(s.requests, s'.requests, s'.deliveries, id);
      GrowthStaysEarned(s, s');
    }
  }

  lemma MoreRecords(requests: map<nat, Request>, deliveries: seq<Delivery>, deliveries': seq<Delivery>)
    requires AllOnRecord(requests, deliveries) && deliveries <= deliveries'
    ensures AllOnRecord(requests, deliveries')
  {
    forall id | id in requests
      ensures OnRecord(deliveries', requests[id])
    {
      assert OnRecord(deliveries, requests[id]);
      if requests[id].phase.Sent? {
        var r := requests[id];
        var i :| 0 <= i < |deliveries| && deliveries[i].serviceId == r.serviceId
                 && deliveries[i].txHash == r.phase.settled.txHash && deliveries[i].payer == r.phase.settled.from
                 && deliveries[i].status == r.phase.status;
        assert deliveries'[i] == deliveries[i];
      }
    }
  }

  // ---- the queue's part ------------------------------------------------------------------------

  lemma FlushEarned(
    queue: Q.State, memory: Q.Queue, writes: nat, deliveries: seq<Delivery>, services: map<nat, Service>)
    requires QueueEarned(queue, deliveries, services)
    requires forall e :: e in memory.items ==> EntryEarned(deliveries, services, e)
    ensures QueueEarned(Q.Flush(queue.(memory := memory), writes), deliveries, services)
  {
    hide EntryEarned;
  }

  lemma PruneEarned(
    queue: Q.State, now: int, writes: nat, opts: Q.Options, deliveries: seq<Delivery>, services: map<nat, Service>)
    requires QueueEarned(queue, deliveries, services)
    ensures QueueEarned(Q.PruneStep(queue, now, writes, opts).0, deliveries, services)
  {
    hide EntryEarned, Q.Flush;
    Q.PruneParts(queue.memory.items, now, opts);
    FlushEarned(queue, Q.Prune(queue.memory, now, opts), writes, deliveries, services);
  }

  lemma EnqueueEarned(
    queue: Q.State, entry: Q.Entry, now: int, pruneWrites: nat, writes: nat, opts: Q.Options,
    deliveries: seq<Delivery>, services: map<nat, Service>)
    requires QueueEarned(queue, deliveries, services) && EntryEarned(deliveries, services, entry)
    ensures QueueEarned(Q.EnqueueStep(queue, entry, now, pruneWrites, writes, opts).0, deliveries, services)
  {
    hide Earned, Q.Flush, Q.PruneStep;
    PruneEarned(queue, now, pruneWrites, opts, deliveries, services);
    var pruned := Q.PruneStep(queue, now, pruneWrites, opts).0;
    var charged := Q.Charged(pruned.memory.items, entry);
    Q.SetItemMembers(pruned.memory.items, charged);
    assert EntryEarned(deliveries, services, charged);
    FlushEarned(pruned, Q.Insert(pruned.memory, entry), writes, deliveries, services);
  }

  lemma RemoveEarned(
    queue: Q.State, txHash: TxHash, writes: nat, deliveries: seq<Delivery>, services: map<nat, Service>)
    requires QueueEarned(queue, deliveries, services)
    ensures QueueEarned(Q.RemoveStep(queue, txHash, writes).0, deliveries, services)
  {
    hide EntryEarned, Q.Flush;
    FlushEarned(queue, Q.Remove(queue.memory, txHash), writes, deliveries, services);
  }

  lemma TaskAdded(tasks: map<nat, Task>, deliveries: seq<Delivery>, l: Ledger, id: nat, task: Task)
    requires TasksEarned(tasks, deliveries, l)
    requires EntryEarned(deliveries, l.services, task.entry) && task.phase == Ready
    ensures TasksEarned(tasks[id := task], deliveries, l)
  {
    hide EntryEarned, Attested;
  }

  lemma ScheduleEarned(cfg: Config, s: State, id: nat, task: nat, pruneWrites: nat, queueWrites: nat)
    requires AllEarned(s) && PaidUp(cfg, s)
    ensures AllEarned(DoSchedule(cfg, s, id, task, pruneWrites, queueWrites))
  {
    hide QueueEarned, ChainEarned, PaidUp, Q.EnqueueStep, AllOnRecord, TasksEarned, IsSelfPayment, EntryEarned, EntryOf;
    if id in s.requests && s.requests[id].phase.Sent? && task !in s.tasks {
      var r := s.requests[id];
      var s' := DoSchedule(cfg, s, id, task, pruneWrites, queueWrites);
      RecordsStay(s.requests, s'.requests, s.deliveries, id);
      if !IsSelfPayment(r.phase.settled.from, r.service) {
        var entry := EntryOf(r, r.phase.settled, r.phase.status, s.now);
        SentIsEarned(cfg, s, id);
        EnqueueEarned(s.queue, entry, s.now, pruneWrites, queueWrites, cfg.queue, s.deliveries, s.chain.services);
        TaskAdded(s.tasks, s.deliveries, s.chain, task, Task(entry, r.service.attestor, 1, Ready));
      }
    }
  }

  lemma SentIsEarned(cfg: Config, s: State, id: nat)
    requires AllEarned(s) && PaidUp(cfg, s)
    requires id in s.requests && s.requests[id].phase.Sent?
    requires !IsSelfPayment(s.requests[id].phase.settled.from, s.requests[id].service)
    ensures EntryEarned(s.deliveries, s.chain.services,
                        EntryOf(s.requests[id], s.requests[id].phase.settled, s.requests[id].phase.status, s.now))
  {
    hide QueueEarned, TasksEarned, ChainEarned, WellFormed, DeliveriesPaid;
    var r := s.requests[id];
    assert RequestOk(cfg, r, s.chain, s.issued);
    assert OnRecord(s.deliveries, r);
    var i :| 0 <= i < |s.deliveries| && s.deliveries[i].serviceId == r.serviceId
             && s.deliveries[i].txHash == r.phase.settled.txHash && s.deliveries[i].payer == r.phase.settled.from
             && s.deliveries[i].status == r.phase.status;
    assert Scores(s.deliveries[i], s.chain.services, r.serviceId, r.phase.settled.txHash, IsSuccess(r.phase.status));
  }

  lemma RecordEarned(l: Ledger, deliveries: seq<Delivery>, e: Q.Entry, signer: Account, now: int)
    requires ChainEarned(l, deliveries) && EntryEarned(deliveries, l.services, e)
    ensures ChainEarned(Record(l, e.serviceId, e.paymentTxHash, e.success, signer, now).0, deliveries)
  {
    hide Earned, Attested;
  }

  /** An attempt the chain takes, or has taken before, leaves the payment attested. */
  lemma RecordedIsAttested(l: Ledger, e: Q.Entry, signer: Account, now: int)
    ensures var (l', outcome) := Record(l, e.serviceId, e.paymentTxHash, e.success, signer, now);
            outcome.Ok? || outcome.error == DuplicateAttestation ==> Attested(l'.attested, e.serviceId, e.paymentTxHash)
  {
    hide Attested;
    AttestedPush(l.attested, NewAttestation(l, e.serviceId, e.paymentTxHash, e.success, now));
  }

  lemma SubmitEarned(s: State, task: nat, arrives: bool)
    requires AllEarned(s)
    ensures AllEarned(DoSubmit(s, task, arrives))
  {
    hide EntryEarned, QueueEarned, ChainEarned, AllOnRecord, Attested, Record;
    if task in s.tasks && s.tasks[task].phase.Ready? && arrives {
      var t := s.tasks[task];
      var e := t.entry;
      var s' := DoSubmit(s, task, arrives);
      assert EntryEarned(s.deliveries, s.chain.services, e);
      RecordGrows(s.chain, e.serviceId, e.paymentTxHash, e.success, t.signer, s.now);
      RecordEarned(s.chain, s.deliveries, e, t.signer, s.now);
      RecordedIsAttested(s.chain, e, t.signer, s.now);
      ExtendsBy(s.deliveries, s.chain, s'.chain);
      TasksStay(s.tasks, s.deliveries, s.chain, s.deliveries, s'.chain);
    }
  }

  lemma SettleEarned(cfg: Config, s: State, task: nat, heard: bool, queueWrites: nat)
    requires AllEarned(s)
    ensures AllEarned(DoSettle(cfg, s, task, heard, queueWrites))
  {
    hide Earned, QueueEarned, AllOnRecord, ChainEarned, Q.RemoveStep;
    if task in s.tasks {
      RemoveEarned(s.queue, s.tasks[task].entry.paymentTxHash, queueWrites, s.deliveries, s.chain.services);
    }
  }

  lemma BootEarned(cfg: Config, s: State, queueWrites: nat, unanswered: set<nat>)
    requires AllEarned(s)
    ensures AllEarned(DoBoot(cfg, s, queueWrites, unanswered))
  {
    hide Earned, AllOnRecord, ChainEarned, Q.PruneStep;
    PruneEarned(s.queue, s.now, queueWrites, cfg.queue, s.deliveries, s.chain.services);
  }

  lemma RestEarned(cfg: Config, s: State, e: Event)
    requires AllEarned(s) && WellFormed(s.chain)
    requires e.Tick? || e.ChainStep? || e.SweepInvoices? || e.PruneQueue? || e.Crash?
    ensures AllEarned(Next(cfg, s, e))
  {
    hide Earned, Extends, WellFormed, Q.PruneStep, Store, Apply, ChainEarned, TasksEarned;
    match e
    case ChainStep(op) =>
      if !PassesGateway(s.chain, op) {
        ApplyGrows(s.chain, op, s.now);
        NothingScored(s.chain, op, s.now);
        ExtendsBy(s.deliveries, s.chain, Apply(s.chain, op, s.now));
        GrowthStaysEarned(s, Next(cfg, s, e));
      }
    case PruneQueue(queueWrites) =>
      PruneEarned(s.queue, s.now, queueWrites, cfg.queue, s.deliveries, s.chain.services);
    case Crash => NoTasks(s.deliveries, s.chain);
    case _ =>
  }

  lemma NoTasks(deliveries: seq<Delivery>, l: Ledger)
    ensures TasksEarned(map[], deliveries, l)
  {
  }

  lemma NothingScored(l: Ledger, op: Op, now: int)
    requires !PassesGateway(l, op)
    ensures Apply(l, op, now).attested == l.attested
  {
  }

  lemma LookupsEarned(s: State, id: nat)
    requires AllEarned(s)
    ensures AllEarned(DoLookup(s, id)) && AllEarned(DoReadChain(s, id))
  {
    hide AllEarned, FindTransfer, LookedUp;
    HandlerEarned(s, DoLookup(s, id), id);
    HandlerEarned(s, DoReadChain(s, id), id);
  }

  lemma ChecksEarned(cfg: Config, s: State, id: nat)
    requires AllEarned(s)
    ensures AllEarned(DoJudge(cfg, s, id)) && AllEarned(DoCheckPayer(cfg, s, id))
  {
    hide AllEarned, Judged, PayerChecked;
    HandlerEarned(s, DoJudge(cfg, s, id), id);
    HandlerEarned(s, DoCheckPayer(cfg, s, id), id);
  }

  lemma ArriveEarned(s: State, id: nat, serviceId: nat, seenActive: bool, proof: Option<Proof>)
    requires AllEarned(s)
    ensures AllEarned(DoArrive(s, id, serviceId, seenActive, proof))
  {
    hide AllEarned;
    HandlerEarned(s, DoArrive(s, id, serviceId, seenActive, proof), id);
  }

  lemma BurnEarned(cfg: Config, s: State, id: nat, writes: bool)
    requires AllEarned(s)
    ensures AllEarned(DoBurn(cfg, s, id, writes))
  {
    hide AllEarned, Store;
    HandlerEarned(s, DoBurn(cfg, s, id, writes), id);
  }

  lemma FailUpstreamEarned(cfg: Config, s: State, id: nat, writes: bool)
    requires AllEarned(s)
    ensures AllEarned(DoFailUpstream(cfg, s, id, writes))
  {
    hide AllEarned, Store;
    HandlerEarned(s, DoFailUpstream(cfg, s, id, writes), id);
  }

  lemma ChallengeEarned(cfg: Config, s: State, id: nat, nonce: nat, writes: bool)
    requires AllEarned(s)
    ensures AllEarned(DoChallenge(cfg, s, id, nonce, writes))
  {
    hide AllEarned, Store;
    HandlerEarned(s, DoChallenge(cfg, s, id, nonce, writes), id);
  }

  lemma AllEarnedStep(cfg: Config, s: State, e: Event)
    requires AllEarned(s) && PaidUp(cfg, s)
    ensures AllEarned(Next(cfg, s, e))
  {
    hide AllEarned, DoArrive, DoLookup, DoReadChain, DoJudge, DoCheckPayer, DoBurn, DoAnswer, DoFailUpstream,
         DoChallenge, DoSchedule, DoSubmit, DoSettle, DoBoot, WellFormed, RequestsOk, DeliveriesPaid;
    match e
    case Arrive(id, serviceId, seenActive, proof) => ArriveEarned(s, id, serviceId, seenActive, proof);
    case Lookup(id) => LookupsEarned(s, id);
    case ReadChain(id) => LookupsEarned(s, id);
    case Judge(id) => ChecksEarned(cfg, s, id);
    case CheckPayer(id) => ChecksEarned(cfg, s, id);
    case Burn(id, writes) => BurnEarned(cfg, s, id, writes);
    case FailUpstream(id, writes) => FailUpstreamEarned(cfg, s, id, writes);
    case Challenge(id, nonce, writes) => ChallengeEarned(cfg, s, id, nonce, writes);
    case Answer(id, status) => AnswerEarned(cfg, s, id, status);
    case Schedule(id, task, pruneWrites, queueWrites) => ScheduleEarned(cfg, s, id, task, pruneWrites, queueWrites);
    case Submit(task, arrives) => SubmitEarned(s, task, arrives);
    case Settle(task, heard, queueWrites) => SettleEarned(cfg, s, task, heard, queueWrites);
    case Boot(queueWrites, unanswered) => BootEarned(cfg, s, queueWrites, unanswered);
    case _ => RestEarned(cfg, s, e);
  }

  lemma {:induction false} RunIsEarned(cfg: Config, events: seq<Event>)
    ensures AllEarned(RunOf(cfg, events))
  {
    if events != [] {
      hide AllEarned, PaidUp, Next;
      RunIsEarned(cfg, events[..|events| - 1]);
      RunIsPaidUp(cfg, events[..|events| - 1]);
      AllEarnedStep(cfg, RunOf(cfg, events[..|events| - 1]), events[|events| - 1]);
    }
  }

  // ---- nothing enqueued is lost -------------------------------------------------------------------

  function KeysOf(enqueued: set<(nat, TxHash)>): set<TxHash> {
    set p | p in enqueued :: p.1
  }

  /** The enqueued payments the chain has on record. */
  function Recorded(enqueued: set<(nat, TxHash)>, attested: seq<Attestation>): set<TxHash> {
    set p | p in enqueued && Attested(attested, p.0, p.1) :: p.1
  }

  /** Every enqueued payment is live, dead-lettered or on chain, in memory and on disk. */
  ghost predicate Accounted(queue: Q.State, enqueued: set<(nat, TxHash)>, attested: seq<Attestation>) {
    && KeysOf(enqueued) <= Q.Keys(queue.memory.items) + Q.DeadKeys(queue.memory.dead) + Recorded(enqueued, attested)
    && KeysOf(enqueued) <= Q.Keys(queue.disk.live) + Q.DeadKeys(queue.disk.dead) + Recorded(enqueued, attested)
    && queue.disk.dead <= queue.memory.dead
  }

  /** An enqueued payment was delivered, so its hash belongs to one service only. */
  ghost predicate EnqueuedDelivered(enqueued: set<(nat, TxHash)>, deliveries: seq<Delivery>) {
    forall p :: p in enqueued ==>
        exists i :: 0 <= i < |deliveries| && deliveries[i].serviceId == p.0 && deliveries[i].txHash == p.1
  }

  ghost predicate NoneLost(s: State) {
    Accounted(s.queue, s.enqueued, s.chain.attested) && EnqueuedDelivered(s.enqueued, s.deliveries)
  }

  lemma OneServicePerHash(cfg: Config, s: State, i: nat, j: nat)
    requires PaidUp(cfg, s) && i < |s.deliveries| && j < |s.deliveries|
    requires s.deliveries[i].txHash == s.deliveries[j].txHash
    ensures s.deliveries[i].serviceId == s.deliveries[j].serviceId && s.deliveries[i].nonce == s.deliveries[j].nonce
  {
    hide RequestsOk;
    var a, b := s.deliveries[i], s.deliveries[j];
    assert DeliveryPaid(cfg, a, s.chain, s.issued) && DeliveryPaid(cfg, b, s.chain, s.issued);
    var k :| 0 <= k < |s.chain.transfers|
             && Settles(cfg, s.chain.transfers[k], a, s.chain.services[a.serviceId].paymentTarget, s.issued);
    var m :| 0 <= m < |s.chain.transfers|
             && Settles(cfg, s.chain.transfers[m], b, s.chain.services[b.serviceId].paymentTarget, s.issued);
    assert k == m;
  }

  lemma RecordedGrows(enqueued: set<(nat, TxHash)>, attested: seq<Attestation>, attested': seq<Attestation>)
    requires attested <= attested'
    ensures Recorded(enqueued, attested) <= Recorded(enqueued, attested')
  {
    forall p | p in enqueued && Attested(attested, p.0, p.1)
      ensures Attested(attested', p.0, p.1)
    {
      var i :| 0 <= i < |attested| && attested[i].serviceId == p.0 && attested[i].paymentTxHash == p.1;
      assert attested'[i] == attested[i];
    }
  }

  lemma AccountedGrows(
    queue: Q.State, enqueued: set<(nat, TxHash)>, attested: seq<Attestation>, attested': seq<Attestation>)
    requires Accounted(queue, enqueued, attested) && attested <= attested'
    ensures Accounted(queue, enqueued, attested')
  {
    hide Recorded, KeysOf, Q.Keys, Q.DeadKeys;
    RecordedGrows(enqueued, attested, attested');
  }

  lemma ScheduleLosesNone(cfg: Config, s: State, id: nat, task: nat, pruneWrites: nat, queueWrites: nat)
    requires NoneLost(s) && AllEarned(s)
    ensures NoneLost(DoSchedule(cfg, s, id, task, pruneWrites, queueWrites))
  {
    hide AllEarned, Q.EnqueueStep, Accounted, EntryOf, IsSelfPayment;
    if id in s.requests && s.requests[id].phase.Sent? && task !in s.tasks {
      var r := s.requests[id];
      if !IsSelfPayment(r.phase.settled.from, r.service) {
        var entry := EntryOf(r, r.phase.settled, r.phase.status, s.now);
        EntryKey(r, r.phase.settled, r.phase.status, s.now);
        EnqueueLosesNone(s.queue, s.enqueued, s.chain.attested, r.serviceId, entry, s.now, pruneWrites, queueWrites,
            cfg.queue);
        RequestOnRecord(s, id);
      }
    }
  }

  lemma EntryKey(r: Request, payment: Transfer, status: nat, now: int)
    ensures EntryOf(r, payment, status, now).paymentTxHash == payment.txHash
  {
  }

  lemma RequestOnRecord(s: State, id: nat)
    requires AllEarned(s) && id in s.requests && s.requests[id].phase.Sent?
    ensures exists i :: 0 <= i < |s.deliveries| && s.deliveries[i].serviceId == s.requests[id].serviceId
                        && s.deliveries[i].txHash == s.requests[id].phase.settled.txHash
  {
    hide QueueEarned, TasksEarned, ChainEarned;
    assert OnRecord(s.deliveries, s.requests[id]);
  }

  lemma EnqueueLosesNone(
    queue: Q.State, enqueued: set<(nat, TxHash)>, attested: seq<Attestation>,
    serviceId: nat, entry: Q.Entry, now: int, pruneWrites: nat, writes: nat, opts: Q.Options)
    requires Accounted(queue, enqueued, attested)
    ensures var (queue', ok) := Q.EnqueueStep(queue, entry, now, pruneWrites, writes, opts);
            Accounted(queue', if ok then enqueued + {(serviceId, entry.paymentTxHash)} else enqueued, attested)
  {
    hide Q.PruneStep, Q.Keys, Q.DeadKeys, KeysOf, Recorded;
    var keys, recorded := KeysOf(enqueued), Recorded(enqueued, attested);
    Q.PruneStepKeeps(queue, now, pruneWrites, opts, keys, recorded);
    var (pruned, ok) := Q.PruneStep(queue, now, pruneWrites, opts);
    if ok {
      Q.SetItemKeys(pruned.memory.items, Q.Charged(pruned.memory.items, entry));
      Q.FlushKeeps(pruned, Q.Insert(pruned.memory, entry), writes, keys, recorded);
      if writes >= 2 {
        OneMore(enqueued, attested, serviceId, entry.paymentTxHash);
      }
    }
  }

  lemma OneMore(enqueued: set<(nat, TxHash)>, attested: seq<Attestation>, serviceId: nat, txHash: TxHash)
    ensures KeysOf(enqueued + {(serviceId, txHash)}) == KeysOf(enqueued) + {txHash}
    ensures Recorded(enqueued, attested) <= Recorded(enqueued + {(serviceId, txHash)}, attested)
  {
    var grown := enqueued + {(serviceId, txHash)};
    assert (serviceId, txHash) in grown;
    forall p | p in enqueued
      ensures p in grown
    {
    }
  }

  lemma SettleLosesNone(cfg: Config, s: State, task: nat, heard: bool, queueWrites: nat)
    requires NoneLost(s) && AllEarned(s) && PaidUp(cfg, s)
    ensures NoneLost(DoSettle(cfg, s, task, heard, queueWrites))
  {
    hide AllEarned, PaidUp, Q.Flush, Q.Keys, Q.DeadKeys, KeysOf, Recorded;
    if task in s.tasks && s.tasks[task].phase == Awaiting(true) && heard {
      var txHash := s.tasks[task].entry.paymentTxHash;
      var keys, recorded := KeysOf(s.enqueued), Recorded(s.enqueued, s.chain.attested);
      ConfirmedIsRecorded(cfg, s, task);
      Q.DropKeys(s.queue.memory.items, txHash);
      Q.FlushKeeps(s.queue, Q.Remove(s.queue.memory, txHash), queueWrites, keys, recorded);
    }
  }

  /** A payment the chain confirmed is on chain under the service it was enqueued for. */
  lemma ConfirmedIsRecorded(cfg: Config, s: State, task: nat)
    requires NoneLost(s) && AllEarned(s) && PaidUp(cfg, s)
    ensures task in s.tasks && s.tasks[task].phase == Awaiting(true) ==>
              var txHash := s.tasks[task].entry.paymentTxHash;
              txHash in KeysOf(s.enqueued) ==> txHash in Recorded(s.enqueued, s.chain.attested)
  {
    hide Accounted, QueueEarned, ChainEarned, AllOnRecord, PaidUp, Attested;
    if task in s.tasks && s.tasks[task].phase == Awaiting(true)
       && s.tasks[task].entry.paymentTxHash in KeysOf(s.enqueued) {
      var e := s.tasks[task].entry;
      var i :| 0 <= i < |s.deliveries|
        && Scores(s.deliveries[i], s.chain.services, e.serviceId, e.paymentTxHash, e.success);
      var p :| p in s.enqueued && p.1 == e.paymentTxHash;
      var j :| 0 <= j < |s.deliveries| && s.deliveries[j].serviceId == p.0 && s.deliveries[j].txHash == p.1;
      OneServicePerHash(cfg, s, i, j);
      assert Attested(s.chain.attested, p.0, p.1);
    }
  }

  lemma ChainLosesNone(cfg: Config, s: State, e: Event)
    requires NoneLost(s) && WellFormed(s.chain)
    requires e.ChainStep? || e.Submit?
    ensures NoneLost(Next(cfg, s, e))
  {
    hide Accounted, Apply, Record, WellFormed;
    match e
    case ChainStep(op) =>
      ApplyGrows(s.chain, op, s.now);
      AccountedGrows(s.queue, s.enqueued, s.chain.attested, Apply(s.chain, op, s.now).attested);
    case Submit(task, arrives) =>
      if task in s.tasks {
        var t := s.tasks[task];
        RecordGrows(s.chain, t.entry.serviceId, t.entry.paymentTxHash, t.entry.success, t.signer, s.now);
        AccountedGrows(s.queue, s.enqueued, s.chain.attested,
          Record(s.chain, t.entry.serviceId, t.entry.paymentTxHash, t.entry.success, t.signer, s.now).0.attested);
      }
  }

  lemma QueueLosesNone(cfg: Config, s: State, e: Event)
    requires NoneLost(s)
    requires e.PruneQueue? || e.Boot? || e.Crash?
    ensures NoneLost(Next(cfg, s, e))
  {
    hide Accounted, EnqueuedDelivered, Q.PruneStep, HasDelivery;
    match e
    case PruneQueue(queueWrites) => PruneLosesNone(cfg, s, queueWrites);
    case Boot(queueWrites, unanswered) => PruneLosesNone(cfg, s, queueWrites);
    case Crash => ReloadLosesNone(s.queue, s.enqueued, s.chain.attested);
  }

  lemma HandlerLosesNone(cfg: Config, s: State, s': State)
    requires NoneLost(s)
    requires Untouched(s, s')
    ensures NoneLost(s')
  {
    hide Accounted, EnqueuedDelivered;
    MoreDelivered(s.enqueued, s.deliveries, s'.deliveries);
  }

  ghost predicate Untouched(s: State, s': State) {
    && s'.queue == s.queue && s'.enqueued == s.enqueued && s'.chain == s.chain
    && s.deliveries <= s'.deliveries
  }

  lemma LookupsTouchNone(s: State, id: nat)
    ensures Untouched(s, DoLookup(s, id)) && Untouched(s, DoReadChain(s, id))
  {
    hide FindTransfer, LookedUp;
  }

  lemma ChecksTouchNone(cfg: Config, s: State, id: nat)
    ensures Untouched(s, DoJudge(cfg, s, id)) && Untouched(s, DoCheckPayer(cfg, s, id))
  {
    hide Judged, PayerChecked;
  }

  lemma HandlingTouchesNone(cfg: Config, s: State, id: nat, status: nat, nonce: nat, writes: bool)
    ensures Untouched(s, DoBurn(cfg, s, id, writes)) && Untouched(s, DoAnswer(s, id, status))
    ensures Untouched(s, DoFailUpstream(cfg, s, id, writes)) && Untouched(s, DoChallenge(cfg, s, id, nonce, writes))
  {
    hide Store, DeliveryOf, I.Burnable;
  }

  lemma TouchesNone(cfg: Config, s: State, e: Event)
    requires !e.Schedule? && !e.Settle? && !e.ChainStep? && !e.Submit? && !e.PruneQueue? && !e.Boot? && !e.Crash?
    ensures Untouched(s, Next(cfg, s, e))
  {
    hide DoLookup, DoReadChain, DoJudge, DoCheckPayer, DoBurn, DoAnswer, DoFailUpstream, DoChallenge, DoSchedule,
         DoSubmit, DoSettle, DoBoot, DoCrash, DoPruneQueue, Store, Apply, PassesGateway;
    match e
    case Lookup(id) => LookupsTouchNone(s, id);
    case ReadChain(id) => LookupsTouchNone(s, id);
    case Judge(id) => ChecksTouchNone(cfg, s, id);
    case CheckPayer(id) => ChecksTouchNone(cfg, s, id);
    case Burn(id, writes) => HandlingTouchesNone(cfg, s, id, 0, 0, writes);
    case Answer(id, status) => HandlingTouchesNone(cfg, s, id, status, 0, true);
    case FailUpstream(id, writes) => HandlingTouchesNone(cfg, s, id, 0, 0, writes);
    case Challenge(id, nonce, writes) => HandlingTouchesNone(cfg, s, id, 0, nonce, writes);
    case _ =>
  }

  lemma MoreDelivered(enqueued: set<(nat, TxHash)>, deliveries: seq<Delivery>, deliveries': seq<Delivery>)
    requires EnqueuedDelivered(enqueued, deliveries) && deliveries <= deliveries'
    ensures EnqueuedDelivered(enqueued, deliveries')
  {
    forall p | p in enqueued
      ensures exists i :: 0 <= i < |deliveries'| && deliveries'[i].serviceId == p.0 && deliveries'[i].txHash == p.1
    {
      var i :| 0 <= i < |deliveries| && deliveries[i].serviceId == p.0 && deliveries[i].txHash == p.1;
      assert deliveries'[i] == deliveries[i];
    }
  }

  lemma PruneLosesNone(cfg: Config, s: State, queueWrites: nat)
    requires NoneLost(s)
    ensures Accounted(Q.PruneStep(s.queue, s.now, queueWrites, cfg.queue).0, s.enqueued, s.chain.attested)
  {
    hide Q.PruneStep, KeysOf, Recorded, Q.Keys, Q.DeadKeys;
    Q.PruneStepKeeps(s.queue, s.now, queueWrites, cfg.queue, KeysOf(s.enqueued),
        Recorded(s.enqueued, s.chain.attested));
  }

  lemma ReloadLosesNone(queue: Q.State, enqueued: set<(nat, TxHash)>, attested: seq<Attestation>)
    requires Accounted(queue, enqueued, attested)
    ensures Accounted(Q.Reloaded(queue.disk), enqueued, attested)
  {
    hide KeysOf, Recorded, Q.Keys, Q.DeadKeys;
  }

  lemma {:induction false} RunLosesNone(cfg: Config, events: seq<Event>)
    ensures NoneLost(RunOf(cfg, events))
  {
    if events != [] {
      hide AllEarned, NoneLost, RequestsOk, DeliveriesPaid, WellFormed, Next;
      var before, e := RunOf(cfg, events[..|events| - 1]), events[|events| - 1];
      RunLosesNone(cfg, events[..|events| - 1]);
      RunIsPaidUp(cfg, events[..|events| - 1]);
      RunIsEarned(cfg, events[..|events| - 1]);
      NoneLostStep(cfg, before, e);
    }
  }

  lemma NoneLostStep(cfg: Config, s: State, e: Event)
    requires NoneLost(s) && AllEarned(s) && PaidUp(cfg, s)
    ensures NoneLost(Next(cfg, s, e))
  {
    if e.Schedule? {
      hide NoneLost, AllEarned, DoSchedule;
      ScheduleLosesNone(cfg, s, e.id, e.task, e.pruneWrites, e.queueWrites);
    } else if e.Settle? {
      hide NoneLost, AllEarned, DoSettle, PaidUp;
      SettleLosesNone(cfg, s, e.task, e.heard, e.queueWrites);
    } else {
      hide NoneLost, AllEarned, RequestsOk, DeliveriesPaid, WellFormed, Next;
      if e.ChainStep? || e.Submit? {
        ChainLosesNone(cfg, s, e);
      } else if e.PruneQueue? || e.Boot? || e.Crash? {
        QueueLosesNone(cfg, s, e);
      } else {
        TouchesNone(cfg, s, e);
        HandlerLosesNone(cfg, s, Next(cfg, s, e));
      }
    }
  }

  // ---- the theorems ----------------------------------------------------------------------------------

  /** The chain only ever scores delivered, non-self-paid calls, each once, with its own flag. */
  lemma {:induction false} ScoresAreEarned(cfg: Config, events: seq<Event>)
    ensures var s := RunOf(cfg, events);
            && (forall i :: 0 <= i < |s.chain.attested| ==>
                  Earned(s.deliveries, s.chain.services, s.chain.attested[i].serviceId,
                         s.chain.attested[i].paymentTxHash, s.chain.attested[i].success))
            && (forall i, j :: 0 <= i < j < |s.chain.attested| ==>
                  (s.chain.attested[i].serviceId, s.chain.attested[i].paymentTxHash)
                  != (s.chain.attested[j].serviceId, s.chain.attested[j].paymentTxHash))
  {
    hide RunOf, Earned, RequestsOk, DeliveriesPaid, QueueEarned, TasksEarned, AllOnRecord;
    RunIsEarned(cfg, events);
    RunIsPaidUp(cfg, events);
  }

  /** Every payment whose enqueue returned is, at every later moment and again after any crash,
      still queued, dead-lettered, or on chain for its service. */
  lemma {:induction false} NothingEnqueuedIsLost(cfg: Config, events: seq<Event>, serviceId: nat, txHash: TxHash)
    requires (serviceId, txHash) in RunOf(cfg, events).enqueued
    ensures var s := RunOf(cfg, events);
            && (|| txHash in Q.Keys(s.queue.memory.items)
                || txHash in Q.DeadKeys(s.queue.memory.dead)
                || Attested(s.chain.attested, serviceId, txHash))
            && (|| txHash in Q.Keys(s.queue.disk.live)
                || txHash in Q.DeadKeys(s.queue.disk.dead)
                || Attested(s.chain.attested, serviceId, txHash))
  {
    hide RunOf, PaidUp, Q.Keys, Q.DeadKeys, Attested;
    RunLosesNone(cfg, events);
    RunIsPaidUp(cfg, events);
    var s := RunOf(cfg, events);
    var p := (serviceId, txHash);
    assert p in s.enqueued;
    assert txHash in KeysOf(s.enqueued);
    if txHash in Recorded(s.enqueued, s.chain.attested) {
      var p' :| p' in s.enqueued && Attested(s.chain.attested, p'.0, p'.1) && p'.1 == txHash;
      var i :| 0 <= i < |s.deliveries| && s.deliveries[i].serviceId == p.0 && s.deliveries[i].txHash == p.1;
      var j :| 0 <= j < |s.deliveries| && s.deliveries[j].serviceId == p'.0 && s.deliveries[j].txHash == p'.1;
      OneServicePerHash(cfg, s, i, j);
    }
  }

  /** The delivered calls of a service that may be scored, and those of them that succeeded. */
  function Scorable(deliveries: seq<Delivery>, service: Service): Score {
    if deliveries == [] then Score(0, 0)
    else
      var before := Scorable(deliveries[1..], service);
      var d := deliveries[0];
      if d.serviceId != service.id || IsSelfPayment(d.payer, service) then before
      else Score(before.total + 1, before.success + if IsSuccess(d.status) then 1 else 0)
  }

  lemma {:induction false} TakeDelivery(deliveries: seq<Delivery>, i: nat, service: Service)
    requires i < |deliveries|
    requires deliveries[i].serviceId == service.id && !IsSelfPayment(deliveries[i].payer, service)
    ensures var rest := Scorable(Without(deliveries, i), service);
            Scorable(deliveries, service)
            == Score(rest.total + 1, rest.success + if IsSuccess(deliveries[i].status) then 1 else 0)
  {
    if i > 0 {
      TakeDelivery(deliveries[1..], i - 1, service);
      assert Without(deliveries, i)[1..] == Without(deliveries[1..], i - 1);
    } else {
      assert Without(deliveries, 0) == deliveries[1..];
    }
  }

  ghost predicate DistinctPayments(records: seq<Attestation>) {
    forall i, j :: 0 <= i < j < |records| ==> records[i].paymentTxHash != records[j].paymentTxHash
  }

  predicate Backs(d: Delivery, record: Attestation, service: Service) {
    && d.serviceId == service.id && !IsSelfPayment(d.payer, service)
    && d.txHash == record.paymentTxHash && IsSuccess(d.status) == record.success
  }

  ghost predicate Backed(record: Attestation, deliveries: seq<Delivery>, service: Service) {
    exists d :: d in deliveries && Backs(d, record, service)
  }

  /** Records of one service, each with a delivery of its own. */
  ghost predicate EachEarned(records: seq<Attestation>, deliveries: seq<Delivery>, service: Service) {
    && DistinctPayments(records)
    && (forall i :: 0 <= i < |records| ==> Backed(records[i], deliveries, service))
  }

  lemma {:induction false} RecordsAreCovered(records: seq<Attestation>, deliveries: seq<Delivery>, service: Service)
    requires EachEarned(records, deliveries, service)
    ensures |records| <= Scorable(deliveries, service).total
    ensures Successes(records) <= Scorable(deliveries, service).success
    ensures |records| - Successes(records)
        <= Scorable(deliveries, service).total - Scorable(deliveries, service).success
  {
    if records == [] {
      ScorableBounds(deliveries, service);
    } else {
      var before, last := records[..|records| - 1], records[|records| - 1];
      assert Backed(records[|records| - 1], deliveries, service);
      var d :| d in deliveries && Backs(d, last, service);
      var i :| 0 <= i < |deliveries| && deliveries[i] == d;
      TakeDelivery(deliveries, i, service);
      forall k | 0 <= k < |before|
        ensures Backed(before[k], Without(deliveries, i), service)
      {
        assert before[k] == records[k] && Backed(records[k], deliveries, service);
        var u :| u in deliveries && Backs(u, before[k], service);
        var j :| 0 <= j < |deliveries| && deliveries[j] == u;
        assert j != i;
        assert u in Without(deliveries, i) by {
          assert Without(deliveries, i)[if j < i then j else j - 1] == u;
        }
      }
      RecordsAreCovered(before, Without(deliveries, i), service);
    }
  }

  lemma {:induction false} ScorableBounds(deliveries: seq<Delivery>, service: Service)
    ensures Scorable(deliveries, service).success <= Scorable(deliveries, service).total
  {
    if deliveries != [] {
      ScorableBounds(deliveries[1..], service);
    }
  }

  lemma {:induction false} OfServiceMembers(attested: seq<Attestation>, serviceId: nat)
    requires forall i, j :: 0 <= i < j < |attested| ==>
               (attested[i].serviceId, attested[i].paymentTxHash) != (attested[j].serviceId, attested[j].paymentTxHash)
    ensures forall a :: a in OfService(attested, serviceId) ==> a in attested && a.serviceId == serviceId
    ensures DistinctPayments(OfService(attested, serviceId))
  {
    if attested != [] {
      var before, last := attested[..|attested| - 1], attested[|attested| - 1];
      OfServiceMembers(before, serviceId);
      var earlier := OfService(before, serviceId);
      if last.serviceId == serviceId {
        forall i | 0 <= i < |earlier|
          ensures earlier[i].paymentTxHash != last.paymentTxHash
        {
          assert earlier[i] in earlier;
          var k :| 0 <= k < |before| && before[k] == earlier[i];
          assert attested[k] == earlier[i];
        }
        assert OfService(attested, serviceId) == earlier + [last];
      } else {
        assert OfService(attested, serviceId) == earlier + [];
        assert earlier + [] == earlier;
      }
    }
  }

  /** A service's score never counts more calls, more successes or more failures than were
      delivered to buyers other than its own accounts. */
  lemma {:induction false} ScoreIsBounded(cfg: Config, events: seq<Event>, serviceId: nat)
    ensures var s := RunOf(cfg, events);
            serviceId in s.chain.services ==>
              var score := ScoreOf(s.chain.attested, serviceId);
              var scorable := Scorable(s.deliveries, s.chain.services[serviceId]);
              && score.total <= scorable.total
              && score.success <= scorable.success
              && score.total - score.success <= scorable.total - scorable.success
  {
    hide RunOf, Scorable, Successes, OfService, RequestsOk, DeliveriesPaid, QueueEarned, TasksEarned, AllOnRecord;
    ScoresAreEarned(cfg, events);
    RunIsPaidUp(cfg, events);
    var s := RunOf(cfg, events);
    if serviceId in s.chain.services {
      var service := s.chain.services[serviceId];
      var mine := OfService(s.chain.attested, serviceId);
      OfServiceMembers(s.chain.attested, serviceId);
      forall i | 0 <= i < |mine|
        ensures Backed(mine[i], s.deliveries, service)
      {
        assert mine[i] in s.chain.attested && mine[i].serviceId == serviceId;
        var k :| 0 <= k < |s.chain.attested| && s.chain.attested[k] == mine[i];
        assert Earned(s.deliveries, s.chain.services, serviceId, mine[i].paymentTxHash, mine[i].success);
        var j :| 0 <= j < |s.deliveries|
                 && Scores(s.deliveries[j], s.chain.services, serviceId, mine[i].paymentTxHash, mine[i].success);
        assert s.deliveries[j] in s.deliveries && Backs(s.deliveries[j], mine[i], service);
      }
      RecordsAreCovered(mine, s.deliveries, service);
    }
  }
}
