/** An honest purchase, from the first request to the record on chain: at any point of any run of a
    running gateway it goes through, whatever the upstream answers. */
module GatewayPurchase {
  import opened Basics
  import opened ChainLedger
  import opened Gateway
  import opened GatewaySafety
  import opened GatewayPayments
  import opened GatewayProgress
  import opened GatewaySteps
  import opened GatewayAttestations
  import I = Invoices
  import Q = PendingQueue

  /** Who buys what, under which ids of the run, nonce and attempt. */
  datatype Buy = Buy(buyer: Account, serviceId: nat, asking: nat, paying: nat, nonce: nat, task: nat)

  function PriceOf(s: State, b: Buy): nat
    requires b.serviceId in s.chain.services
  {
    s.chain.services[b.serviceId].priceWei
  }

  /** The transfer the buyer makes: the price, to the service's target, under the invoice's nonce. */
  function PaymentOp(s: State, b: Buy): Op
    requires b.serviceId in s.chain.services
  {
    PayOp(b.buyer, s.chain.services[b.serviceId].paymentTarget, PriceOf(s, b), b.nonce, b.serviceId)
  }

  function PaymentMadeBy(s: State, b: Buy): Transfer
    requires b.serviceId in s.chain.services
  {
    var target := s.chain.services[b.serviceId].paymentTarget;
    NewTransfer(s.chain, b.buyer, target, PriceOf(s, b), b.nonce, b.serviceId, s.now)
  }

  function ProofBy(s: State, b: Buy): Proof
    requires b.serviceId in s.chain.services
  {
    Proof(PaymentMadeBy(s, b).txHash, b.nonce, Some(b.buyer))
  }

  /** The gateway runs, the service is active, and a stranger to it holds its price; ids, nonce and
      attempt are new. */
  ghost predicate CanBuy(s: State, b: Buy) {
    && s.up && b.serviceId in s.chain.services && s.chain.services[b.serviceId].active
    && BalanceOf(s.chain.balances, b.buyer) >= PriceOf(s, b) && IsStranger(b.buyer, s.chain.services[b.serviceId])
    && b.asking !in s.requests && b.paying !in s.requests && b.asking != b.paying
    && b.nonce !in s.issued && b.task !in s.tasks
  }

  /** The buyer asks and is challenged. */
  function Quoted(events: seq<Event>, b: Buy): seq<Event> {
    events + [Arrive(b.asking, b.serviceId, true, None)] + [Challenge(b.asking, b.nonce, true)]
  }

  /** The buyer pays, and presents the proof. */
  function Presented(events: seq<Event>, s: State, b: Buy): seq<Event>
    requires b.serviceId in s.chain.services
  {
    Quoted(events, b) + [ChainStep(PaymentOp(s, b))] + [Arrive(b.paying, b.serviceId, true, Some(ProofBy(s, b)))]
  }

  /** The proof is handled, and the upstream answers. */
  function Handled(events: seq<Event>, id: nat, status: nat): seq<Event> {
    events + [Lookup(id)] + [ReadChain(id)] + [Judge(id)] + [CheckPayer(id)] + [Burn(id, true)] + [Answer(id, status)]
  }

  ghost predicate IsQuoted(cfg: Config, s: State, t: State, b: Buy) {
    && t.up && t.now == s.now && t.chain == s.chain && t.tasks == s.tasks && t.deliveries == s.deliveries
    && b.paying !in t.requests && b.nonce in t.store.memory
    && t.store.memory[b.nonce].serviceId == b.serviceId && !t.store.memory[b.nonce].used
    && t.store.memory[b.nonce].expiresAt == s.now + cfg.invoiceTtlMs
  }

  lemma Quotes(cfg: Config, events: seq<Event>, b: Buy)
    requires CanBuy(RunOf(cfg, events), b)
    ensures IsQuoted(cfg, RunOf(cfg, events), RunOf(cfg, Quoted(events, b)), b)
  {
    hide RunOf, Next;
    var s := RunOf(cfg, events);
    var asked := events + [Arrive(b.asking, b.serviceId, true, None)];
    RunPush(cfg, events, Arrive(b.asking, b.serviceId, true, None));
    RunPush(cfg, asked, Challenge(b.asking, b.nonce, true));
    ArrivalIsAdmitted(cfg, s, b.asking, b.serviceId, None);
    ChallengeIssues(cfg, RunOf(cfg, asked), b.asking, b.nonce, true);
    ChallengeLeaves(cfg, RunOf(cfg, asked), b.asking, b.nonce, true);
  }

  lemma ChallengeLeaves(cfg: Config, s: State, id: nat, nonce: nat, writes: bool)
    ensures var s' := Next(cfg, s, Challenge(id, nonce, writes));
            s'.up == s.up && s'.now == s.now && s'.chain == s.chain && s'.tasks == s.tasks
            && s'.requests.Keys == s.requests.Keys
  {
    hide Store;
  }

  lemma PayingSettles(cfg: Config, s: State, b: Buy)
    requires WellFormed(s.chain) && b.serviceId in s.chain.services
    requires BalanceOf(s.chain.balances, b.buyer) >= PriceOf(s, b)
    ensures var s' := Next(cfg, s, ChainStep(PaymentOp(s, b)));
            && s'.(chain := s.chain) == s && s'.chain.services == s.chain.services
            && FindTransfer(s'.chain.transfers, PaymentMadeBy(s, b).txHash) == Some(PaymentMadeBy(s, b))
  {
    hide WellFormed, FindTransfer, Moved;
    var target := s.chain.services[b.serviceId].paymentTarget;
    var l := Pay(s.chain, b.buyer, target, PriceOf(s, b), b.nonce, b.serviceId, s.now).0;
    PayKeepsWellFormed(s.chain, b.buyer, target, PriceOf(s, b), b.nonce, b.serviceId, s.now);
    assert l.transfers[|s.chain.transfers|] == PaymentMadeBy(s, b);
    FindsTheNewest(l, |s.chain.transfers|);
  }

  lemma PresentsRedeemable(cfg: Config, events: seq<Event>, b: Buy)
    requires CanBuy(RunOf(cfg, events), b)
    ensures var s := RunOf(cfg, events);
            var t := RunOf(cfg, Presented(events, s, b));
            && t.tasks == s.tasks && t.deliveries == s.deliveries && t.now == s.now
            && t.chain.services == s.chain.services
            && b.paying in t.requests && t.requests[b.paying].phase == Resolved
            && t.requests[b.paying].proof == Some(ProofBy(s, b)) && t.requests[b.paying].serviceId == b.serviceId
            && t.requests[b.paying].service == s.chain.services[b.serviceId]
            && Redeemable(cfg, t, t.requests[b.paying])
            && FindTransfer(t.chain.transfers, ProofBy(s, b).txHash) == Some(PaymentMadeBy(s, b))
  {
    hide RunOf, Next, FindTransfer, WellFormed, RequestsOk, DeliveriesPaid;
    var s := RunOf(cfg, events);
    var quoted := Quoted(events, b);
    var pay := ChainStep(PaymentOp(s, b));
    Quotes(cfg, events, b);
    RunIsPaidUp(cfg, events);
    RunPush(cfg, quoted, pay);
    RunPush(cfg, quoted + [pay], Arrive(b.paying, b.serviceId, true, Some(ProofBy(s, b))));
    var t := RunOf(cfg, quoted);
    PayingSettles(cfg, t, b);
    ArrivalIsAdmitted(cfg, RunOf(cfg, quoted + [pay]), b.paying, b.serviceId, Some(ProofBy(s, b)));
    ActiveIsItself(s.chain.services[b.serviceId]);
  }

  lemma ActiveIsItself(service: Service)
    ensures service.active ==> service.(active := true) == service
  {
  }

  lemma HandledIsServed(cfg: Config, events: seq<Event>, id: nat, status: nat)
    ensures RunOf(cfg, Handled(events, id, status)) == Served(cfg, RunOf(cfg, events), id, status)
  {
    hide RunOf, Next;
    RunPush(cfg, events, Lookup(id));
    RunPush(cfg, events + [Lookup(id)], ReadChain(id));
    RunPush(cfg, events + [Lookup(id)] + [ReadChain(id)], Judge(id));
    RunPush(cfg, events + [Lookup(id)] + [ReadChain(id)] + [Judge(id)], CheckPayer(id));
    RunPush(cfg, events + [Lookup(id)] + [ReadChain(id)] + [Judge(id)] + [CheckPayer(id)], Burn(id, true));
    RunPush(cfg, events + [Lookup(id)] + [ReadChain(id)] + [Judge(id)] + [CheckPayer(id)] + [Burn(id, true)],
      Answer(id, status));
  }

  lemma ServingLeaves(cfg: Config, s: State, id: nat, status: nat)
    ensures OnlyCalls(s, Served(cfg, s, id, status))
  {
    hide Next;
    var s1 := Next(cfg, s, Lookup(id));
    var s2 := Next(cfg, s1, ReadChain(id));
    var s3 := Next(cfg, s2, Judge(id));
    var s4 := Next(cfg, s3, CheckPayer(id));
    var s5 := Next(cfg, s4, Burn(id, true));
    ReadingLeaves(cfg, s, id);
    ReadingLeaves(cfg, s1, id);
    CheckingLeaves(cfg, s2, id);
    CheckingLeaves(cfg, s3, id);
    BurningLeaves(cfg, s4, id);
    AnsweringLeaves(cfg, s5, id, status);
  }

  /** Handling moves requests from phase to phase, and changes nothing else of them. */
  ghost predicate CallsStay(requests: map<nat, Request>, requests': map<nat, Request>) {
    && requests'.Keys == requests.Keys
    && forall id :: id in requests ==> requests'[id].(phase := Finished) == requests[id].(phase := Finished)
  }

  ghost predicate OnlyCalls(s: State, s': State) {
    s'.tasks == s.tasks && s'.chain == s.chain && s'.now == s.now && CallsStay(s.requests, s'.requests)
  }

  lemma PhaseStays(requests: map<nat, Request>, id: nat, phase: Phase)
    ensures CallsStay(requests, requests)
    ensures id in requests ==> CallsStay(requests, requests[id := requests[id].(phase := phase)])
  {
  }

  lemma ReadingLeaves(cfg: Config, s: State, id: nat)
    ensures OnlyCalls(s, Next(cfg, s, Lookup(id)))
    ensures OnlyCalls(s, Next(cfg, s, ReadChain(id)))
  {
    hide LookedUp, FindTransfer, CallsStay;
    PhaseStays(s.requests, id, Finished);
    if id in s.requests {
      PhaseStays(s.requests, id, Next(cfg, s, Lookup(id)).requests[id].phase);
      PhaseStays(s.requests, id, Next(cfg, s, ReadChain(id)).requests[id].phase);
    }
  }

  lemma CheckingLeaves(cfg: Config, s: State, id: nat)
    ensures OnlyCalls(s, Next(cfg, s, Judge(id)))
    ensures OnlyCalls(s, Next(cfg, s, CheckPayer(id)))
  {
    hide Judged, PayerChecked, CallsStay;
    PhaseStays(s.requests, id, Finished);
    if id in s.requests {
      PhaseStays(s.requests, id, Next(cfg, s, Judge(id)).requests[id].phase);
      PhaseStays(s.requests, id, Next(cfg, s, CheckPayer(id)).requests[id].phase);
    }
  }

  lemma BurningLeaves(cfg: Config, s: State, id: nat)
    ensures OnlyCalls(s, Next(cfg, s, Burn(id, true)))
  {
    hide Store, I.Burnable, CallsStay;
    PhaseStays(s.requests, id, Finished);
    if id in s.requests {
      PhaseStays(s.requests, id, Next(cfg, s, Burn(id, true)).requests[id].phase);
    }
  }

  lemma AnsweringLeaves(cfg: Config, s: State, id: nat, status: nat)
    ensures OnlyCalls(s, Next(cfg, s, Answer(id, status)))
  {
    hide DeliveryOf, CallsStay;
    PhaseStays(s.requests, id, Finished);
    if id in s.requests {
      PhaseStays(s.requests, id, Next(cfg, s, Answer(id, status)).requests[id].phase);
    }
  }

  /** In every run: a stranger with the price in hand who asks, pays what the invoice says and presents
      the signed proof is served, once, with what the upstream answered, whatever that is; the invoice
      is spent, in memory and on disk; and the call is on record after one attempt, as a success
      exactly for a 2xx answer, unless that payment was recorded before. */
  lemma {:induction false} PurchaseCompletes(cfg: Config, events: seq<Event>, b: Buy, status: nat)
    requires CanBuy(RunOf(cfg, events), b)
    ensures var s := RunOf(cfg, events);
            var t := RunOf(cfg, Handled(Presented(events, s, b), b.paying, status));
            && |t.deliveries| == |s.deliveries| + 1 && t.deliveries[..|s.deliveries|] == s.deliveries
            && t.deliveries[|s.deliveries|]
               == Delivery(b.serviceId, b.nonce, PaymentMadeBy(s, b).txHash, b.buyer, Some(b.buyer), PriceOf(s, b),
                           status)
            && b.nonce in t.store.memory && t.store.memory[b.nonce].used
            && (cfg.invoicesOnDisk ==> t.store.disk == t.store.memory)
            && var scheduled := Next(cfg, t, Schedule(b.paying, b.task, 2, 2));
               && b.task in scheduled.tasks
               && var t', e := Attempted(cfg, scheduled, b.task), scheduled.tasks[b.task].entry;
                  && e.paymentTxHash == PaymentMadeBy(s, b).txHash && e.serviceId == b.serviceId
                  && (e.success <==> 200 <= status < 300)
                  && RecordedAs(s.chain.attested, t'.chain.attested, e)
                  && e.paymentTxHash !in Q.Keys(t'.queue.memory.items)
  {
    hide RunOf, Next, Served, Attempted, FindTransfer, Redeems, CallsStay, RecordedAs, Q.Keys;
    var s := RunOf(cfg, events);
    var presented := Presented(events, s, b);
    var p := RunOf(cfg, presented);
    PresentsRedeemable(cfg, events, b);
    HandledIsServed(cfg, presented, b.paying, status);
    RedeemableIsServed(cfg, p, b.paying, status);
    ServingLeaves(cfg, p, b.paying, status);
    StaysInCall(p, Served(cfg, p, b.paying, status), b.paying);
    AnsweredCallIsRecorded(cfg, Handled(presented, b.paying, status), b.paying, b.task);
    PayingAttestsNone(cfg, events, b);
  }

  lemma StaysInCall(s: State, s': State, id: nat)
    requires OnlyCalls(s, s') && id in s.requests
    ensures id in s'.requests && s'.requests[id].service == s.requests[id].service
            && s'.requests[id].serviceId == s.requests[id].serviceId && s'.requests[id].proof == s.requests[id].proof
  {
  }

  lemma PayingAttestsNone(cfg: Config, events: seq<Event>, b: Buy)
    requires CanBuy(RunOf(cfg, events), b)
    ensures var s := RunOf(cfg, events);
            RunOf(cfg, Presented(events, s, b)).chain.attested == s.chain.attested
  {
    hide RunOf, Next;
    var s := RunOf(cfg, events);
    var quoted := Quoted(events, b);
    var pay := ChainStep(PaymentOp(s, b));
    Quotes(cfg, events, b);
    RunPush(cfg, quoted, pay);
    RunPush(cfg, quoted + [pay], Arrive(b.paying, b.serviceId, true, Some(ProofBy(s, b))));
    OnlyPays(cfg, RunOf(cfg, quoted), b);
    ArrivalLeavesChain(cfg, RunOf(cfg, quoted + [pay]), b.paying, b.serviceId, Some(ProofBy(s, b)));
  }

  lemma OnlyPays(cfg: Config, s: State, b: Buy)
    requires b.serviceId in s.chain.services
    ensures Next(cfg, s, ChainStep(PaymentOp(s, b))).chain.attested == s.chain.attested
  {
  }

  lemma ArrivalLeavesChain(cfg: Config, s: State, id: nat, serviceId: nat, proof: Option<Proof>)
    ensures Next(cfg, s, Arrive(id, serviceId, true, proof)).chain == s.chain
  {
  }
}
