/** Single use: what every run of the gateway keeps about invoices and their holders. */
module GatewaySafety {
  import opened Basics
  import opened ChainLedger
  import opened Verification
  import opened Gateway
  import I = Invoices
  import Q = PendingQueue

  // ---- the invariant, over the parts of the state it speaks about ------------------------

  /** Both images hold issued invoices, changed in nothing but their flag. */
  ghost predicate ImageOk(image: I.Image, issued: map<nat, I.Invoice>) {
    forall nonce :: nonce in image ==> nonce in issued && image[nonce].(used := false) == issued[nonce]
  }

  ghost predicate StoreOk(cfg: Config, store: I.FileState, issued: map<nat, I.Invoice>, acked: set<nat>) {
    && ImageOk(store.memory, issued)
    && ImageOk(store.disk, issued)
    && (forall nonce :: nonce in issued ==> issued[nonce].nonce == nonce && !issued[nonce].used)
    && acked <= issued.Keys
    && (!cfg.invoicesOnDisk ==> store.disk == map[])
  }

  /** The request is proxying the call this invoice pays for. */
  predicate Proxies(requests: map<nat, Request>, id: nat, nonce: nat) {
    id in requests && requests[id].phase.Burnt? && requests[id].proof.Some? && requests[id].proof.value.nonce == nonce
  }

  /** A known invoice is used exactly when it has a holder, and it is held in flight by
      exactly the request that is proxying it. */
  ghost predicate HoldersOk(
    memory: I.Image, holders: map<nat, Holder>, requests: map<nat, Request>, issued: map<nat, I.Invoice>)
  {
    && (forall nonce :: nonce in memory ==> (memory[nonce].used <==> nonce in holders))
    && (forall nonce, id: nat :: nonce in holders && holders[nonce] == InFlight(id) <==> Proxies(requests, id, nonce))
    && (forall nonce :: nonce in holders ==> nonce in issued)
  }

  /** What was delivered, or is in flight, is burnt on disk and stays burnt after a crash. */
  ghost predicate DeliveredOk(
    store: I.FileState, holders: map<nat, Holder>, deliveries: seq<Delivery>, issued: map<nat, I.Invoice>)
  {
    && (forall nonce :: nonce in holders && holders[nonce].InFlight? ==>
          !HasDelivery(deliveries, nonce) && (nonce in store.disk ==> store.disk[nonce].used))
    && (forall nonce :: nonce in holders && holders[nonce].Delivered? ==> HasDelivery(deliveries, nonce))
    && (forall nonce :: HasDelivery(deliveries, nonce) ==>
          && nonce in issued
          && (nonce in store.memory ==> nonce in holders && holders[nonce] == Delivered)
          && (nonce in store.disk ==> store.disk[nonce].used))
    && (forall i, j :: 0 <= i < j < |deliveries| ==> deliveries[i].nonce != deliveries[j].nonce)
  }

  ghost predicate SingleUse(cfg: Config, s: State) {
    && StoreOk(cfg, s.store, s.issued, s.acked)
    && HoldersOk(s.store.memory, s.holders, s.requests, s.issued)
    && DeliveredOk(s.store, s.holders, s.deliveries, s.issued)
    && (!s.up ==> s.requests == map[])
  }

  // ---- how the parts change -----------------------------------------------------------------

  lemma StoreOutcome(cfg: Config, store: I.FileState, op: I.Op, writes: bool)
    ensures var (store', ok) := Store(cfg, store, op, writes);
            && store'.memory == I.Apply(store.memory, op, cfg.redemptionWindowMs)
            && (store'.disk == store.disk || (cfg.invoicesOnDisk && store'.disk == store'.memory))
            && (cfg.invoicesOnDisk && ok && I.Flushes(store.memory, op, cfg.redemptionWindowMs) ==>
                  store'.disk == store'.memory)
  {
  }

  /** An image rewritten from another keeps its invoices as they were issued. */
  lemma StoreStep(
    cfg: Config, store: I.FileState, op: I.Op, writes: bool, issued: map<nat, I.Invoice>, acked: set<nat>)
    requires StoreOk(cfg, store, issued, acked)
    requires op.PutOp? ==> op.invoice.nonce in issued && op.invoice == issued[op.invoice.nonce]
    ensures StoreOk(cfg, Store(cfg, store, op, writes).0, issued, acked)
  {
    hide Store;
    StoreOutcome(cfg, store, op, writes);
  }

  /** Updating one request. */
  lemma ProxiesAfter(requests: map<nat, Request>, id: nat, r: Request, requests': map<nat, Request>)
    requires requests' == requests[id := r]
    ensures forall other: nat, nonce: nat :: Proxies(requests', other, nonce) <==>
              if other == id then r.phase.Burnt? && r.proof.Some? && r.proof.value.nonce == nonce
              else Proxies(requests, other, nonce)
  {
  }

  lemma DeliveryPushed(deliveries: seq<Delivery>, d: Delivery)
    ensures forall nonce :: HasDelivery(deliveries + [d], nonce) <==> HasDelivery(deliveries, nonce) || nonce == d.nonce
    ensures forall i :: 0 <= i < |deliveries| ==> HasDelivery(deliveries, deliveries[i].nonce)
  {
    forall nonce
      ensures HasDelivery(deliveries + [d], nonce) <==> HasDelivery(deliveries, nonce) || nonce == d.nonce
    {
      if HasDelivery(deliveries, nonce) {
        var i :| 0 <= i < |deliveries| && deliveries[i].nonce == nonce;
        assert (deliveries + [d])[i].nonce == nonce;
      }
      assert (deliveries + [d])[|deliveries|] == d;
    }
  }

  // ---- steps that touch neither invoices nor burnt requests ------------------------------------

  ghost predicate Framed(s: State, s': State) {
    && s'.store == s.store && s'.issued == s.issued && s'.acked == s.acked
    && s'.holders == s.holders && s'.deliveries == s.deliveries
    && (forall id: nat, nonce :: Proxies(s'.requests, id, nonce) <==> Proxies(s.requests, id, nonce))
    && (s'.up || (!s.up && s'.requests == s.requests))
  }

  lemma FramedKeeps(cfg: Config, s: State, s': State)
    requires SingleUse(cfg, s) && Framed(s, s')
    ensures SingleUse(cfg, s')
  {
    hide StoreOk, DeliveredOk, Proxies;
  }

  /** Moving a request that is not proxying to another such phase. */
  lemma PhaseFramed(s: State, s0: State, id: nat, phase: Phase)
    requires s.up && s0.requests == s.requests && Framed(s, s0)
    requires id in s.requests && !s.requests[id].phase.Burnt? && !phase.Burnt?
    ensures Framed(s, SetPhase(s0, id, phase))
  {
    hide Proxies;
    ProxiesAfter(s.requests, id, s.requests[id].(phase := phase), SetPhase(s0, id, phase).requests);
    NotProxying(s.requests, id);
  }

  lemma NotProxying(requests: map<nat, Request>, id: nat)
    requires id !in requests || !requests[id].phase.Burnt?
    ensures forall nonce :: !Proxies(requests, id, nonce)
  {
  }

  lemma FramedSelf(s: State)
    ensures Framed(s, s)
  {
  }

  lemma ChecksAreFramed(cfg: Config, s: State, id: nat)
    requires !s.up ==> s.requests == map[]
    ensures Framed(s, DoLookup(s, id))
    ensures Framed(s, DoReadChain(s, id))
    ensures Framed(s, DoJudge(cfg, s, id))
    ensures Framed(s, DoCheckPayer(cfg, s, id))
  {
    hide FindTransfer, LookedUp, Judged, PayerChecked, Framed, SetPhase;
    FramedSelf(s);
    if id in s.requests && !s.requests[id].phase.Burnt? {
      forall phase: Phase | !phase.Burnt?
        ensures Framed(s, SetPhase(s, id, phase))
      {
        PhaseFramed(s, s, id, phase);
      }
    }
  }

  lemma ArriveIsFramed(s: State, id: nat, serviceId: nat, seenActive: bool, proof: Option<Proof>)
    ensures Framed(s, DoArrive(s, id, serviceId, seenActive, proof))
  {
    hide Proxies;
    if s.up && id !in s.requests && serviceId in s.chain.services && seenActive {
      var service := s.chain.services[serviceId].(active := seenActive);
      var phase := if proof.None? then Rejected(PaymentRequired) else Resolved;
      ProxiesAfter(s.requests, id, Request(serviceId, service, proof, phase),
          DoArrive(s, id, serviceId, seenActive, proof).requests);
      NotProxying(s.requests, id);
    }
  }

  lemma ScheduleIsFramed(cfg: Config, s: State, id: nat, task: nat, pruneWrites: nat, queueWrites: nat)
    requires !s.up ==> s.requests == map[]
    ensures Framed(s, DoSchedule(cfg, s, id, task, pruneWrites, queueWrites))
  {
    hide Q.EnqueueStep, Proxies;
    if id in s.requests && s.requests[id].phase.Sent? {
      PhaseFramed(s, s, id, Finished);
    }
  }

  predicate Quiet(e: Event) {
    !(e.Burn? || e.Answer? || e.FailUpstream? || e.Challenge? || e.SweepInvoices? || e.Crash?)
  }

  lemma SubmitIsFramed(s: State, task: nat, arrives: bool)
    ensures Framed(s, DoSubmit(s, task, arrives))
  {
    hide Framed, Record;
    SameIsFramed(s, DoSubmit(s, task, arrives));
  }

  lemma SettleIsFramed(cfg: Config, s: State, task: nat, heard: bool, queueWrites: nat)
    ensures Framed(s, DoSettle(cfg, s, task, heard, queueWrites))
  {
    hide Framed, Q.RemoveStep;
    SameIsFramed(s, DoSettle(cfg, s, task, heard, queueWrites));
  }

  lemma BootIsFramed(cfg: Config, s: State, queueWrites: nat, unanswered: set<nat>)
    ensures Framed(s, DoBoot(cfg, s, queueWrites, unanswered))
  {
    hide Framed, Q.PruneStep;
    SameIsFramed(s, DoBoot(cfg, s, queueWrites, unanswered));
  }

  lemma BackgroundIsFramed(cfg: Config, s: State, e: Event)
    requires e.Tick? || e.ChainStep? || e.PruneQueue?
    ensures Framed(s, Next(cfg, s, e))
  {
    hide Framed, Apply, PassesGateway, Q.PruneStep, DoArrive, DoLookup, DoReadChain, DoJudge, DoCheckPayer, DoBurn,
         DoAnswer, DoFailUpstream, DoChallenge, DoSchedule, DoSubmit, DoSettle, DoSweep, DoCrash, DoBoot;
    SameIsFramed(s, Next(cfg, s, e));
  }

  lemma SameIsFramed(s: State, s': State)
    requires s'.store == s.store && s'.issued == s.issued && s'.acked == s.acked
    requires s'.holders == s.holders && s'.deliveries == s.deliveries && s'.requests == s.requests
    requires s.up ==> s'.up
    ensures Framed(s, s')
  {
  }

  lemma QuietIsFramed(cfg: Config, s: State, e: Event)
    requires Quiet(e)
    requires !s.up ==> s.requests == map[]
    ensures Framed(s, Next(cfg, s, e))
  {
    hide Framed, DoArrive, DoLookup, DoReadChain, DoJudge, DoCheckPayer, DoSchedule, DoSubmit, DoSettle, DoPruneQueue,
         DoBoot;
    match e
    case Arrive(id, serviceId, seenActive, proof) => ArriveIsFramed(s, id, serviceId, seenActive, proof);
    case Lookup(id) => ChecksAreFramed(cfg, s, id);
    case ReadChain(id) => ChecksAreFramed(cfg, s, id);
    case Judge(id) => ChecksAreFramed(cfg, s, id);
    case CheckPayer(id) => ChecksAreFramed(cfg, s, id);
    case Schedule(id, task, pruneWrites, queueWrites) => ScheduleIsFramed(cfg, s, id, task, pruneWrites, queueWrites);
    case Submit(task, arrives) => SubmitIsFramed(s, task, arrives);
    case Settle(task, heard, queueWrites) => SettleIsFramed(cfg, s, task, heard, queueWrites);
    case Boot(queueWrites, unanswered) => BootIsFramed(cfg, s, queueWrites, unanswered);
    case _ => BackgroundIsFramed(cfg, s, e);
  }

  // ---- steps that do ---------------------------------------------------------------------------

  /** How the requests that proxy differ after one request changed. */
  ghost predicate OnlyChanged(requests: map<nat, Request>, requests': map<nat, Request>, id: nat, burnt: Option<nat>) {
    forall other: nat, nonce: nat :: Proxies(requests', other, nonce) <==>
      if other == id then burnt == Some(nonce) else Proxies(requests, other, nonce)
  }

  lemma Changed(requests: map<nat, Request>, id: nat, r: Request, requests': map<nat, Request>)
    requires requests' == requests[id := r]
    ensures OnlyChanged(requests, requests', id,
              if r.phase.Burnt? && r.proof.Some? then Some(r.proof.value.nonce) else None)
  {
    ProxiesAfter(requests, id, r, requests');
  }

  lemma HoldersTaken(
    memory: I.Image, holders: map<nat, Holder>, requests: map<nat, Request>, issued: map<nat, I.Invoice>,
    id: nat, nonce: nat, ok: bool, requests': map<nat, Request>)
    requires HoldersOk(memory, holders, requests, issued)
    requires I.Burnable(memory, nonce) && nonce in issued
    requires forall n: nat :: !Proxies(requests, id, n)
    requires OnlyChanged(requests, requests', id, if ok then Some(nonce) else None)
    ensures HoldersOk(I.MarkUsed(memory, nonce), holders[nonce := if ok then InFlight(id) else Lost], requests', issued)
  {
    hide Proxies;
  }

  lemma DeliveredTaken(
    cfg: Config, store: I.FileState, holders: map<nat, Holder>, deliveries: seq<Delivery>, issued: map<nat, I.Invoice>,
    nonce: nat, writes: bool, id: nat)
    requires DeliveredOk(store, holders, deliveries, issued)
    requires I.Burnable(store.memory, nonce) && nonce !in holders
    requires forall n :: n in store.memory ==> (store.memory[n].used <==> n in holders)
    requires !cfg.invoicesOnDisk ==> store.disk == map[]
    ensures var (store', ok) := Store(cfg, store, I.MarkUsedOp(nonce), writes);
            DeliveredOk(store', holders[nonce := if ok then InFlight(id) else Lost], deliveries, issued)
  {
    hide Store, HasDelivery;
    StoreOutcome(cfg, store, I.MarkUsedOp(nonce), writes);
  }

  lemma BurnKeeps(cfg: Config, s: State, id: nat, writes: bool)
    requires SingleUse(cfg, s)
    ensures SingleUse(cfg, DoBurn(cfg, s, id, writes))
  {
    hide Store, Proxies, StoreOk, DeliveredOk, OnlyChanged;
    if id in s.requests && s.requests[id].phase.Cleared? && s.requests[id].proof.Some? {
      var r := s.requests[id];
      var nonce := r.proof.value.nonce;
      var s' := DoBurn(cfg, s, id, writes);
      NotProxying(s.requests, id);
      if I.Burnable(s.store.memory, nonce) {
        Changed(s.requests, id, s'.requests[id], s'.requests);
        StoreOutcome(cfg, s.store, I.MarkUsedOp(nonce), writes);
        StoreStep(cfg, s.store, I.MarkUsedOp(nonce), writes, s.issued, s.acked);
        InMemoryIsIssued(cfg, s, nonce);
        HoldersTaken(s.store.memory, s.holders, s.requests, s.issued, id, nonce,
                     Store(cfg, s.store, I.MarkUsedOp(nonce), writes).1, s'.requests);
        DeliveredTaken(cfg, s.store, s.holders, s.deliveries, s.issued, nonce, writes, id);
      } else {
        PhaseFramed(s, s, id, Rejected(InvoiceUsed));
        FramedKeeps(cfg, s, s');
      }
    }
  }

  lemma HoldersDelivered(
    memory: I.Image, holders: map<nat, Holder>, requests: map<nat, Request>, issued: map<nat, I.Invoice>,
    id: nat, nonce: nat, requests': map<nat, Request>)
    requires HoldersOk(memory, holders, requests, issued)
    requires nonce in holders && holders[nonce] == InFlight(id)
    requires forall n: nat :: Proxies(requests, id, n) ==> n == nonce
    requires OnlyChanged(requests, requests', id, None)
    ensures HoldersOk(memory, holders[nonce := Delivered], requests', issued)
  {
    hide Proxies;
  }

  lemma DeliveredNow(
    store: I.FileState, holders: map<nat, Holder>, deliveries: seq<Delivery>, issued: map<nat, I.Invoice>, d: Delivery)
    requires DeliveredOk(store, holders, deliveries, issued)
    requires d.nonce in holders && holders[d.nonce].InFlight? && d.nonce in issued
    ensures DeliveredOk(store, holders[d.nonce := Delivered], deliveries + [d], issued)
  {
    hide HasDelivery;
    DeliveryPushed(deliveries, d);
  }

  lemma AnswerKeeps(cfg: Config, s: State, id: nat, status: nat)
    requires SingleUse(cfg, s)
    ensures SingleUse(cfg, DoAnswer(s, id, status))
  {
    hide StoreOk, DeliveredOk, OnlyChanged;
    if id in s.requests && s.requests[id].phase.Burnt? && s.requests[id].proof.Some? {
      var s' := DoAnswer(s, id, status);
      var nonce := s.requests[id].proof.value.nonce;
      assert Proxies(s.requests, id, nonce);
      Changed(s.requests, id, s'.requests[id], s'.requests);
      HoldersDelivered(s.store.memory, s.holders, s.requests, s.issued, id, nonce, s'.requests);
      DeliveredNow(s.store, s.holders, s.deliveries, s.issued, s'.deliveries[|s.deliveries|]);
    }
  }

  lemma HoldersReleased(
    memory: I.Image, holders: map<nat, Holder>, requests: map<nat, Request>, issued: map<nat, I.Invoice>,
    id: nat, nonce: nat, requests': map<nat, Request>)
    requires HoldersOk(memory, holders, requests, issued)
    requires nonce in holders && holders[nonce] == InFlight(id)
    requires forall n: nat :: Proxies(requests, id, n) ==> n == nonce
    requires OnlyChanged(requests, requests', id, None)
    ensures HoldersOk(I.Release(memory, nonce), holders - {nonce}, requests', issued)
  {
    hide Proxies;
  }

  lemma DeliveredReleased(
    cfg: Config, store: I.FileState, holders: map<nat, Holder>, deliveries: seq<Delivery>, issued: map<nat, I.Invoice>,
    nonce: nat, writes: bool)
    requires DeliveredOk(store, holders, deliveries, issued)
    requires nonce in holders && holders[nonce].InFlight?
    requires forall n :: n in store.memory ==> (store.memory[n].used <==> n in holders)
    ensures DeliveredOk(Store(cfg, store, I.ReleaseOp(nonce), writes).0, holders - {nonce}, deliveries, issued)
  {
    hide Store, HasDelivery;
    StoreOutcome(cfg, store, I.ReleaseOp(nonce), writes);
  }

  lemma FailUpstreamKeeps(cfg: Config, s: State, id: nat, writes: bool)
    requires SingleUse(cfg, s)
    ensures SingleUse(cfg, DoFailUpstream(cfg, s, id, writes))
  {
    hide Store, StoreOk, DeliveredOk, OnlyChanged;
    if id in s.requests && s.requests[id].phase.Burnt? && s.requests[id].proof.Some? {
      var s' := DoFailUpstream(cfg, s, id, writes);
      var nonce := s.requests[id].proof.value.nonce;
      assert Proxies(s.requests, id, nonce);
      Changed(s.requests, id, s'.requests[id], s'.requests);
      StoreOutcome(cfg, s.store, I.ReleaseOp(nonce), writes);
      StoreStep(cfg, s.store, I.ReleaseOp(nonce), writes, s.issued, s.acked);
      HoldersReleased(s.store.memory, s.holders, s.requests, s.issued, id, nonce, s'.requests);
      DeliveredReleased(cfg, s.store, s.holders, s.deliveries, s.issued, nonce, writes);
    }
  }

  lemma StoreGrows(
    cfg: Config, store: I.FileState, issued: map<nat, I.Invoice>, acked: set<nat>, invoice: I.Invoice)
    requires StoreOk(cfg, store, issued, acked) && invoice.nonce !in issued && !invoice.used
    ensures StoreOk(cfg, store, issued[invoice.nonce := invoice], acked)
    ensures StoreOk(cfg, store, issued[invoice.nonce := invoice], acked + {invoice.nonce})
    ensures invoice.nonce !in store.memory && invoice.nonce !in store.disk
  {
  }

  lemma DeliveredGrows(
    cfg: Config, store: I.FileState, holders: map<nat, Holder>, deliveries: seq<Delivery>, issued: map<nat, I.Invoice>,
    invoice: I.Invoice, writes: bool)
    requires DeliveredOk(store, holders, deliveries, issued)
    requires forall n :: n in store.memory ==> (store.memory[n].used <==> n in holders)
    requires invoice.nonce !in issued && invoice.nonce !in holders && invoice.nonce !in store.memory
    ensures DeliveredOk(Store(cfg, store, I.PutOp(invoice), writes).0, holders, deliveries,
        issued[invoice.nonce := invoice])
  {
    hide Store, HasDelivery;
    StoreOutcome(cfg, store, I.PutOp(invoice), writes);
  }

  lemma ChallengeKeeps(cfg: Config, s: State, id: nat, nonce: nat, writes: bool)
    requires SingleUse(cfg, s)
    ensures SingleUse(cfg, DoChallenge(cfg, s, id, nonce, writes))
  {
    hide Store, StoreOk, DeliveredOk, Proxies;
    if id in s.requests && s.requests[id].phase.Rejected? && nonce !in s.issued {
      var s' := DoChallenge(cfg, s, id, nonce, writes);
      var invoice := s'.issued[nonce];
      NotProxying(s.requests, id);
      ProxiesAfter(s.requests, id, s'.requests[id], s'.requests);
      StoreOutcome(cfg, s.store, I.PutOp(invoice), writes);
      StoreGrows(cfg, s.store, s.issued, s.acked, invoice);
      StoreStep(cfg, s.store, I.PutOp(invoice), writes, s'.issued, s'.acked);
      DeliveredGrows(cfg, s.store, s.holders, s.deliveries, s.issued, invoice, writes);
    }
  }

  lemma SweepKeeps(cfg: Config, s: State, writes: bool)
    requires SingleUse(cfg, s)
    ensures SingleUse(cfg, DoSweep(cfg, s, writes))
  {
    hide Store, HasDelivery, Proxies, StoreOk;
    StoreOutcome(cfg, s.store, I.SweepOp(s.now), writes);
    StoreStep(cfg, s.store, I.SweepOp(s.now), writes, s.issued, s.acked);
  }

  lemma CrashKeeps(cfg: Config, s: State)
    requires SingleUse(cfg, s)
    ensures SingleUse(cfg, DoCrash(cfg, s))
  {
    hide HasDelivery;
  }

  lemma SingleUseStep(cfg: Config, s: State, e: Event)
    requires SingleUse(cfg, s)
    ensures SingleUse(cfg, Next(cfg, s, e))
  {
    hide HoldersOk, DeliveredOk, StoreOk, Framed, DoBurn, DoAnswer, DoFailUpstream, DoChallenge, DoSweep, DoCrash;
    if Quiet(e) {
      QuietIsFramed(cfg, s, e);
      FramedKeeps(cfg, s, Next(cfg, s, e));
    } else {
      match e
      case Burn(id, writes) => BurnKeeps(cfg, s, id, writes);
      case Answer(id, status) => AnswerKeeps(cfg, s, id, status);
      case FailUpstream(id, writes) => FailUpstreamKeeps(cfg, s, id, writes);
      case Challenge(id, nonce, writes) => ChallengeKeeps(cfg, s, id, nonce, writes);
      case SweepInvoices(writes) => SweepKeeps(cfg, s, writes);
      case Crash => CrashKeeps(cfg, s);
    }
  }

  lemma InMemoryIsIssued(cfg: Config, s: State, nonce: nat)
    requires StoreOk(cfg, s.store, s.issued, s.acked)
    ensures nonce in s.store.memory ==> nonce in s.issued
    ensures nonce in s.store.disk ==> nonce in s.issued
    ensures !cfg.invoicesOnDisk ==> s.store.disk == map[]
  {
  }

  lemma {:induction false} RunIsSingleUse(cfg: Config, events: seq<Event>)
    ensures SingleUse(cfg, RunOf(cfg, events))
  {
    if events != [] {
      hide SingleUse, Next;
      RunIsSingleUse(cfg, events[..|events| - 1]);
      SingleUseStep(cfg, RunOf(cfg, events[..|events| - 1]), events[|events| - 1]);
    }
  }

  // ---- the theorems -----------------------------------------------------------------------------

  /** In every interleaving of requests, releases, sweeps, throwing writes, crashes and boots,
      at most one upstream response is delivered per invoice, and a delivered invoice can
      never be burnt again, in this process or after any crash. */
  lemma {:induction false} AtMostOneDelivery(cfg: Config, events: seq<Event>)
    ensures var s := RunOf(cfg, events);
            && (forall i, j :: 0 <= i < j < |s.deliveries| ==> s.deliveries[i].nonce != s.deliveries[j].nonce)
            && (forall i :: 0 <= i < |s.deliveries| ==>
                  !I.Burnable(s.store.memory, s.deliveries[i].nonce)
                      && !I.Burnable(s.store.disk, s.deliveries[i].nonce))
  {
    hide RunOf;
    RunIsSingleUse(cfg, events);
    var s := RunOf(cfg, events);
    forall i | 0 <= i < |s.deliveries|
      ensures HasDelivery(s.deliveries, s.deliveries[i].nonce)
    {
    }
  }

  /** A known invoice is used exactly when it has a holder, and an invoice is held in flight
      by exactly the request that is proxying it; so no two requests proxy the same one. */
  lemma {:induction false} UsedMeansHeld(cfg: Config, events: seq<Event>)
    ensures var s := RunOf(cfg, events);
            && (forall nonce :: nonce in s.store.memory ==> (s.store.memory[nonce].used <==> nonce in s.holders))
            && (forall nonce, id: nat :: nonce in s.holders && s.holders[nonce] == InFlight(id) <==>
                Proxies(s.requests, id, nonce))
            && (forall nonce: nat, a: nat, b: nat ::
                Proxies(s.requests, a, nonce) && Proxies(s.requests, b, nonce) ==> a == b)
  {
    hide RunOf, Proxies;
    RunIsSingleUse(cfg, events);
    var s := RunOf(cfg, events);
    forall nonce: nat, a: nat, b: nat | Proxies(s.requests, a, nonce) && Proxies(s.requests, b, nonce)
      ensures a == b
    {
      assert s.holders[nonce] == InFlight(a);
    }
  }
}
