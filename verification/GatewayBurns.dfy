/** The burn of an invoice, after the checks: exactly when it is refused, and how a buyer who paid in
    time can be refused an invoice nobody used.

    The machine of `Gateway` lets any event come between any two steps of a request. The code does
    not: from the verdict to the burn a request waits for nothing but the recovery of the signer,
    so without signatures no timer runs in between, and between the payer check and the burn none
    ever does. `TimersWait` singles out the runs that respect this. */
module GatewayBurns {
  import opened Basics
  import opened ChainLedger
  import opened Verification
  import opened Gateway
  import opened GatewaySafety
  import opened GatewayPayments
  import opened GatewayRetention
  import opened GatewayRejections
  import Decimal
  import Text
  import I = Invoices
  import Q = PendingQueue

  /** No sweep comes between a verdict and its burn, save while a signer is being recovered. */
  ghost predicate TimersWait(cfg: Config, events: seq<Event>) {
    forall k: nat :: k < |events| && events[k].SweepInvoices? ==> MaySweep(cfg, RunOf(cfg, events[..k]))
  }

  ghost predicate MaySweep(cfg: Config, s: State) {
    forall id :: id in s.requests ==>
      !s.requests[id].phase.Cleared? && (s.requests[id].phase.Verified? ==> cfg.demandsSignature)
  }

  lemma TimersWaitPush(cfg: Config, events: seq<Event>, e: Event)
    requires TimersWait(cfg, events) && (e.SweepInvoices? ==> MaySweep(cfg, RunOf(cfg, events)))
    ensures TimersWait(cfg, events + [e])
  {
    hide RunOf, MaySweep;
    forall k: nat | k < |events + [e]| && (events + [e])[k].SweepInvoices?
      ensures MaySweep(cfg, RunOf(cfg, (events + [e])[..k]))
    {
      assert (events + [e])[..k] == events[..k];
      assert events[..|events|] == events;
    }
  }

  lemma TimersWaitBefore(cfg: Config, events: seq<Event>)
    requires TimersWait(cfg, events) && events != []
    ensures TimersWait(cfg, events[..|events| - 1])
    ensures events[|events| - 1].SweepInvoices? ==> MaySweep(cfg, RunOf(cfg, events[..|events| - 1]))
  {
    hide RunOf, MaySweep;
    var before := events[..|events| - 1];
    forall k: nat | k < |before| && before[k].SweepInvoices?
      ensures MaySweep(cfg, RunOf(cfg, before[..k]))
    {
      assert before[..k] == events[..k] && before[k] == events[k];
    }
  }

  // ---- what takes an invoice out of memory -----------------------------------------------------

  /** The event is a sweep of the running gateway that comes after the invoice's window. */
  ghost predicate SweepsOut(cfg: Config, s: State, e: Event, nonce: nat) {
    e.SweepInvoices? && s.up && nonce in s.issued && TooLate(cfg, s, nonce)
  }

  lemma BurnKeepsKnown(cfg: Config, s: State, id: nat, writes: bool, nonce: nat)
    ensures nonce in DoBurn(cfg, s, id, writes).store.memory <==> nonce in s.store.memory
  {
    hide Store;
    if id in s.requests && s.requests[id].proof.Some? {
      StoreOutcome(cfg, s.store, I.MarkUsedOp(s.requests[id].proof.value.nonce), writes);
    }
  }

  lemma FailUpstreamKeepsKnown(cfg: Config, s: State, id: nat, writes: bool, nonce: nat)
    ensures nonce in DoFailUpstream(cfg, s, id, writes).store.memory <==> nonce in s.store.memory
  {
    hide Store;
    if id in s.requests && s.requests[id].proof.Some? {
      StoreOutcome(cfg, s.store, I.ReleaseOp(s.requests[id].proof.value.nonce), writes);
    }
  }

  lemma ChallengeKeepsKnown(cfg: Config, s: State, id: nat, drawn: nat, writes: bool, nonce: nat)
    requires nonce in s.issued
    ensures nonce in DoChallenge(cfg, s, id, drawn, writes).store.memory <==> nonce in s.store.memory
  {
    hide Store;
    if id in s.requests {
      var r := s.requests[id];
      var invoice := I.Invoice(drawn, r.serviceId, r.service.priceWei, s.now + cfg.invoiceTtlMs, false);
      StoreOutcome(cfg, s.store, I.PutOp(invoice), writes);
    }
  }

  lemma SweepKeepsKnown(cfg: Config, s: State, writes: bool, nonce: nat)
    requires StoreOk(cfg, s.store, s.issued, s.acked) && nonce in s.issued
    ensures nonce in DoSweep(cfg, s, writes).store.memory <==>
              nonce in s.store.memory && !SweepsOut(cfg, s, SweepInvoices(writes), nonce)
  {
    hide Store;
    StoreOutcome(cfg, s.store, I.SweepOp(s.now), writes);
    assert nonce in s.store.memory ==> s.store.memory[nonce].(used := false) == s.issued[nonce];
  }

  lemma HandlerKeepsKnown(cfg: Config, s: State, e: Event, nonce: nat)
    requires nonce in s.issued && (e.Burn? || e.Answer? || e.FailUpstream? || e.Challenge?)
    ensures nonce in Next(cfg, s, e).store.memory <==> nonce in s.store.memory
  {
    hide DoBurn, DoAnswer, DoFailUpstream, DoChallenge;
    match e
    case Burn(id, writes) => BurnKeepsKnown(cfg, s, id, writes, nonce);
    case Answer(id, status) => AnswerKeepsStore(s, id, status);
    case FailUpstream(id, writes) => FailUpstreamKeepsKnown(cfg, s, id, writes, nonce);
    case Challenge(id, drawn, writes) => ChallengeKeepsKnown(cfg, s, id, drawn, writes, nonce);
  }

  /** While the process lives, an issued invoice is known exactly as long as no late sweep came. */
  lemma {:induction false} KnownAfter(cfg: Config, s: State, e: Event, nonce: nat)
    requires SingleUse(cfg, s) && nonce in s.issued && !e.Crash?
    ensures nonce in Next(cfg, s, e).store.memory <==> nonce in s.store.memory && !SweepsOut(cfg, s, e, nonce)
    ensures nonce in Next(cfg, s, e).issued && Next(cfg, s, e).issued[nonce] == s.issued[nonce]
  {
    hide SingleUse, SweepsOut;
    IssuedStays(cfg, s, e, nonce);
    OnlySweepsOut(cfg, s, e, nonce);
    if e.SweepInvoices? {
      hide DoSweep;
      StoreIsOk(cfg, s);
      SweepKeepsKnown(cfg, s, e.writes, nonce);
    } else {
      hide Next;
      if Quiet(e) {
        NoRequestsWhenDown(cfg, s);
        QuietIsFramed(cfg, s, e);
      } else {
        HandlerKeepsKnown(cfg, s, e, nonce);
      }
    }
  }

  lemma OnlySweepsOut(cfg: Config, s: State, e: Event, nonce: nat)
    ensures SweepsOut(cfg, s, e, nonce) ==> e.SweepInvoices?
  {
  }

  lemma StoreIsOk(cfg: Config, s: State)
    requires SingleUse(cfg, s)
    ensures StoreOk(cfg, s.store, s.issued, s.acked)
  {
  }

  lemma AnswerKeepsStore(s: State, id: nat, status: nat)
    ensures DoAnswer(s, id, status).store == s.store && DoAnswer(s, id, status).issued == s.issued
  {
    hide DeliveryOf;
  }

  lemma IssuedStays(cfg: Config, s: State, e: Event, nonce: nat)
    requires SingleUse(cfg, s) && nonce in s.issued
    ensures nonce in Next(cfg, s, e).issued && Next(cfg, s, e).issued[nonce] == s.issued[nonce]
  {
    hide SingleUse;
    if Quiet(e) {
      hide Next;
      NoRequestsWhenDown(cfg, s);
      QuietIsFramed(cfg, s, e);
    } else {
      hide Store, DeliveryOf;
    }
  }

  // ---- the burn ----------------------------------------------------------------------------------

  /** The burn of a cleared request is refused exactly when the invoice has a holder or has left
      memory. An invoice that left was found unused by this call's own lookup, and an acknowledged
      one left only after its window. */
  lemma {:induction false} BurnRefusedExactly(cfg: Config, events: seq<Event>, id: nat, writes: bool)
    requires var s := RunOf(cfg, events);
             id in s.requests && s.requests[id].phase.Cleared? && s.requests[id].proof.Some?
    ensures var s, s' := RunOf(cfg, events), RunOf(cfg, events + [Burn(id, writes)]);
            var nonce := s.requests[id].proof.value.nonce;
            && id in s'.requests
            && (s'.requests[id].phase.Rejected? <==> nonce in s.holders || nonce !in s.store.memory)
            && (s'.requests[id].phase.Rejected? ==> s'.holders == s.holders && s'.deliveries == s.deliveries)
            && (nonce !in s.store.memory ==>
                  && SawUnused(cfg, events, id, CallOf(s.requests[id]))
                  && (nonce in s.acked ==> TooLate(cfg, s, nonce)))
  {
    hide RunOf, FindTransfer, DeliveredOk, Store, SawUnused, SawAnswer;
    RunPush(cfg, events, Burn(id, writes));
    RunIsSingleUse(cfg, events);
    RunRetains(cfg, events);
    RequestsHaveSeen(cfg, events, id);
  }

  /** A settlement by the deadline, judged inside the window, is of an invoice still known. */
  lemma JudgedIsKnown(cfg: Config, s: State, id: nat)
    requires id in s.requests && s.requests[id].phase.Read? && s.requests[id].proof.Some?
    requires PaidUp(cfg, s) && Retained(cfg, s) && s.requests[id].proof.value.nonce in s.acked
    ensures Judged(cfg, s.requests[id], s.now).Verified? ==> s.requests[id].proof.value.nonce in s.store.memory
  {
    hide DeliveriesPaid, WellFormed;
    assert RequestOk(cfg, s.requests[id], s.chain, s.issued);
  }

  lemma PastLookupIsIssued(cfg: Config, s: State, id: nat)
    requires PaidUp(cfg, s) && id in s.requests
    ensures var r := s.requests[id];
            r.phase.Read? || r.phase.Verified? || r.phase.Cleared? ==>
              r.proof.Some? && r.proof.value.nonce in s.issued
  {
    hide DeliveriesPaid, WellFormed;
    assert RequestOk(cfg, s.requests[id], s.chain, s.issued);
  }

  lemma AckedBefore(cfg: Config, s: State, e: Event, nonce: nat)
    requires SingleUse(cfg, s) && nonce in s.issued && nonce in Next(cfg, s, e).acked
    ensures nonce in s.acked
  {
    hide SingleUse;
    if Quiet(e) {
      hide Next;
      NoRequestsWhenDown(cfg, s);
      QuietIsFramed(cfg, s, e);
    } else {
      hide Store, DeliveryOf;
    }
  }

  /** A request that waits for nothing after its verdict. */
  predicate PastVerdict(r: Request) {
    r.proof.Some? && (r.phase.Verified? || r.phase.Cleared?)
  }

  lemma {:induction false} ClearedIsKnown(cfg: Config, events: seq<Event>, id: nat)
    requires TimersWait(cfg, events) && !cfg.demandsSignature
    requires var s := RunOf(cfg, events);
             id in s.requests && PastVerdict(s.requests[id]) && s.requests[id].proof.value.nonce in s.acked
    ensures var s := RunOf(cfg, events); s.requests[id].proof.value.nonce in s.store.memory
  {
    hide Next, Moves, SingleUse, PaidUp, Retained, SweepsOut, Judged, PayerChecked;
    if events != [] {
      var before, last := events[..|events| - 1], events[|events| - 1];
      assert events == before + [last];
      var s := RunOf(cfg, before);
      var nonce := RunOf(cfg, events).requests[id].proof.value.nonce;
      CrashEndsAll(cfg, s);
      NextMoves(cfg, s, last, id);
      TimersWaitBefore(cfg, events);
      RunIsSingleUse(cfg, before);
      RunIsPaidUp(cfg, before);
      RunRetains(cfg, before);
      PastVerdictBefore(cfg, s, last, id);
      PastLookupIsIssued(cfg, s, id);
      AckedBefore(cfg, s, last, nonce);
      KnownAfter(cfg, s, last, nonce);
      OnlySweepsOut(cfg, s, last, nonce);
      if PastVerdict(s.requests[id]) {
        ClearedIsKnown(cfg, before, id);
      } else {
        JudgedIsKnown(cfg, s, id);
      }
    }
  }

  /** Where such a request comes from. */
  lemma PastVerdictBefore(cfg: Config, s: State, e: Event, id: nat)
    requires id in Next(cfg, s, e).requests && Follows(cfg, s, e, Next(cfg, s, e), id)
    requires PastVerdict(Next(cfg, s, e).requests[id])
    ensures id in s.requests && s.requests[id].proof == Next(cfg, s, e).requests[id].proof
    ensures var r := s.requests[id];
            if PastVerdict(r) then (r.phase.Verified? || r == Next(cfg, s, e).requests[id])
            else e == Judge(id) && r.phase.Read? && Judged(cfg, r, s.now).Verified?
  {
    hide Next, Judged, PayerChecked, LookedUp, FindTransfer, I.Burnable;
  }

  /** Where no signature is demanded a cleared request is refused exactly when the invoice has a
      holder, in every run the code's timers allow: a buyer who paid in time is served, or the
      invoice was spent. */
  lemma {:induction false} UnsignedRefusalMeansHeld(cfg: Config, events: seq<Event>, id: nat, writes: bool)
    requires TimersWait(cfg, events) && !cfg.demandsSignature
    requires var s := RunOf(cfg, events);
             && id in s.requests && s.requests[id].phase.Cleared? && s.requests[id].proof.Some?
             && s.requests[id].proof.value.nonce in s.acked
    ensures var s, s' := RunOf(cfg, events), RunOf(cfg, events + [Burn(id, writes)]);
            id in s'.requests && (s'.requests[id].phase.Rejected? <==> s.requests[id].proof.value.nonce in s.holders)
  {
    hide RunOf, TimersWait, TooLate, SawUnused;
    BurnRefusedExactly(cfg, events, id, writes);
    ClearedIsKnown(cfg, events, id);
  }

  // ---- while the signer is being recovered ------------------------------------------------------

  /** A sweep among `during`, which follow `start`, came after the invoice's window. */
  ghost predicate SweptIn(cfg: Config, start: seq<Event>, during: seq<Event>, nonce: nat) {
    exists k: nat :: k < |during| && SweepsOut(cfg, RunOf(cfg, start + during[..k]), during[k], nonce)
  }

  lemma SweptInPush(cfg: Config, start: seq<Event>, during: seq<Event>, e: Event, nonce: nat)
    ensures SweptIn(cfg, start, during + [e], nonce) <==>
              SweptIn(cfg, start, during, nonce) || SweepsOut(cfg, RunOf(cfg, start + during), e, nonce)
  {
    hide RunOf, SweepsOut;
    var longer := during + [e];
    assert longer[..|during|] == during && longer[|during|] == e;
    assert forall k: nat :: k < |during| ==> longer[..k] == during[..k] && longer[k] == during[k];
    if SweptIn(cfg, start, during, nonce) {
      var k: nat :| k < |during| && SweepsOut(cfg, RunOf(cfg, start + during[..k]), during[k], nonce);
      assert SweepsOut(cfg, RunOf(cfg, start + longer[..k]), longer[k], nonce);
    }
    if SweepsOut(cfg, RunOf(cfg, start + during), e, nonce) {
      assert SweepsOut(cfg, RunOf(cfg, start + longer[..|during|]), longer[|during|], nonce);
    }
  }

  /** Events that are no steps of this request, and among which the process lives. */
  ghost predicate Elsewhere(during: seq<Event>, id: nat) {
    forall k :: 0 <= k < |during| ==> !Names(during[k], id) && !during[k].Crash?
  }

  lemma {:induction false} ThroughElsewhere(cfg: Config, start: seq<Event>, during: seq<Event>, id: nat, nonce: nat)
    requires Elsewhere(during, id)
    requires id in RunOf(cfg, start).requests && nonce in RunOf(cfg, start).issued
    ensures var s, s' := RunOf(cfg, start), RunOf(cfg, start + during);
            && id in s'.requests && s'.requests[id] == s.requests[id] && nonce in s'.issued
            && (nonce in s'.store.memory <==> nonce in s.store.memory && !SweptIn(cfg, start, during, nonce))
  {
    hide RunOf, Next, Moves, SingleUse, SweepsOut, SweptIn;
    if during == [] {
      assert start + during == start;
      NoneSweptIn(cfg, start, nonce);
    } else {
      var earlier, last := during[..|during| - 1], during[|during| - 1];
      assert during == earlier + [last] && start + during == start + earlier + [last];
      ThroughElsewhere(cfg, start, earlier, id, nonce);
      var s := RunOf(cfg, start + earlier);
      RunPush(cfg, start + earlier, last);
      RunIsSingleUse(cfg, start + earlier);
      SweptInPush(cfg, start, earlier, last, nonce);
      KnownAfter(cfg, s, last, nonce);
      StaysUnnamed(cfg, s, last, id);
    }
  }

  lemma NoneSweptIn(cfg: Config, start: seq<Event>, nonce: nat)
    ensures !SweptIn(cfg, start, [], nonce)
  {
  }

  lemma StaysUnnamed(cfg: Config, s: State, e: Event, id: nat)
    requires id in s.requests && !Names(e, id) && !e.Crash?
    ensures id in Next(cfg, s, e).requests && Next(cfg, s, e).requests[id] == s.requests[id]
  {
    hide Moves, Next;
    NextMoves(cfg, s, e, id);
  }

  /** The events between the verdict of a request and its burn. */
  function Stretch(before: seq<Event>, id: nat, during: seq<Event>): seq<Event> {
    before + [Judge(id)] + during + [CheckPayer(id)]
  }

  lemma Judges(cfg: Config, s: State, id: nat)
    requires id in s.requests && s.requests[id].phase.Read? && s.requests[id].proof.Some?
    ensures var s' := Next(cfg, s, Judge(id));
            && s'.store == s.store && s'.issued == s.issued && id in s'.requests
            && s'.requests[id] == s.requests[id].(phase := Judged(cfg, s.requests[id], s.now))
  {
    hide Judged;
  }

  lemma ChecksPayer(cfg: Config, s: State, id: nat)
    requires id in s.requests && (s.requests[id].phase.Verified? || s.requests[id].phase.Rejected?)
    ensures var s' := Next(cfg, s, CheckPayer(id));
            && s'.store == s.store && id in s'.requests && s'.requests[id].proof == s.requests[id].proof
            && (s'.requests[id].phase.Cleared? ==> s.requests[id].phase.Verified?)
  {
    hide PayerChecked;
  }

  /** What the stretch does to the request's invoice, when both checks pass. */
  lemma StretchKnown(cfg: Config, before: seq<Event>, id: nat, during: seq<Event>, nonce: nat)
    requires Elsewhere(during, id)
    requires var s := RunOf(cfg, before);
             && id in s.requests && s.requests[id].phase.Read? && s.requests[id].proof.Some?
             && s.requests[id].proof.value.nonce == nonce && nonce in s.acked
    requires var t := RunOf(cfg, Stretch(before, id, during));
             id in t.requests && t.requests[id].phase.Cleared?
    ensures var t := RunOf(cfg, Stretch(before, id, during));
            && t.requests[id].proof == RunOf(cfg, before).requests[id].proof
            && (nonce in t.store.memory <==> !SweptIn(cfg, before + [Judge(id)], during, nonce))
  {
    hide RunOf, Next, SingleUse, PaidUp, Retained, SweptIn, Elsewhere, Judged;
    var s := RunOf(cfg, before);
    var judged := before + [Judge(id)];
    RunIsPaidUp(cfg, before);
    RunRetains(cfg, before);
    RunPush(cfg, before, Judge(id));
    RunPush(cfg, judged + during, CheckPayer(id));
    PastLookupIsIssued(cfg, s, id);
    JudgedIsKnown(cfg, s, id);
    Judges(cfg, s, id);
    ThroughElsewhere(cfg, judged, during, id, nonce);
    ChecksPayer(cfg, RunOf(cfg, judged + during), id);
  }

  /** The exact condition, for every run and whatever else happens meanwhile: between the verdict
      and the burn of a request, the burn is refused exactly when the invoice has a holder by then,
      or a sweep came while the signer was being recovered, after the invoice's window. */
  lemma {:induction false} RefusedExactly(cfg: Config, before: seq<Event>, id: nat, during: seq<Event>, writes: bool)
    requires Elsewhere(during, id)
    requires var s := RunOf(cfg, before);
             && id in s.requests && s.requests[id].phase.Read? && s.requests[id].proof.Some?
             && s.requests[id].proof.value.nonce in s.acked
    requires var t := RunOf(cfg, Stretch(before, id, during));
             id in t.requests && t.requests[id].phase.Cleared?
    ensures var nonce := RunOf(cfg, before).requests[id].proof.value.nonce;
            var t := RunOf(cfg, Stretch(before, id, during));
            var t' := RunOf(cfg, Stretch(before, id, during) + [Burn(id, writes)]);
            && id in t'.requests
            && (t'.requests[id].phase.Rejected? <==>
                  nonce in t.holders || SweptIn(cfg, before + [Judge(id)], during, nonce))
  {
    hide RunOf, SweptIn, Stretch, SawUnused, TooLate;
    StretchKnown(cfg, before, id, during, RunOf(cfg, before).requests[id].proof.value.nonce);
    BurnRefusedExactly(cfg, Stretch(before, id, during), id, writes);
  }

  // ---- a buyer who paid in time and is told the invoice is used --------------------------------

  const SELLER := "0x" + Decimal.Zeros(40)
  const BUYER := "buyer"
  const NONCE: nat := 7
  const SOLD := Service(1, MIN_PRICE_WEI, SELLER, "owner", "attestor", true)

  function InvoiceAt(cfg: Config): I.Invoice {
    I.Invoice(NONCE, 1, MIN_PRICE_WEI, cfg.invoiceTtlMs, false)
  }

  /** Paid at the very deadline. */
  function PaymentAt(cfg: Config): Transfer {
    Transfer(Sha256(TransferPayload(BUYER, SELLER, MIN_PRICE_WEI, NONCE, 1), 2), BUYER, SELLER, MIN_PRICE_WEI, NONCE, 1,
             cfg.invoiceTtlMs)
  }

  /** A service and a buyer with the price in hand. */
  function Opened(): seq<Event> {
    [] + [Boot(2, {})] + [ChainStep(RegisterOp("s", MIN_PRICE_WEI, SELLER, "owner", "attestor"))]
    + [ChainStep(FaucetOp(BUYER, MIN_PRICE_WEI))]
  }

  /** The buyer asks, is challenged, and pays as the invoice lapses. */
  function PaidLate(cfg: Config): seq<Event> {
    Opened() + [Arrive(0, 1, true, None)] + [Challenge(0, NONCE, true)] + [Tick(cfg.invoiceTtlMs)]
    + [ChainStep(PayOp(BUYER, SELLER, MIN_PRICE_WEI, NONCE, 1))]
  }

  /** As the window closes the signed proof arrives, is looked up, and judged. */
  function JudgedLate(cfg: Config): seq<Event> {
    PaidLate(cfg) + [Tick(cfg.redemptionWindowMs)]
    + [Arrive(1, 1, true, Some(Proof(PaymentAt(cfg).txHash, NONCE, Some(BUYER))))]
    + [Lookup(1)] + [ReadChain(1)] + [Judge(1)]
  }

  /** While its signer is being recovered the sweeper runs, one millisecond later. */
  function Overtaken(cfg: Config): seq<Event> {
    JudgedLate(cfg) + [Tick(1)] + [SweepInvoices(true)] + [CheckPayer(1)]
  }

  lemma SellerIsAddress()
    ensures Text.IsAddress(Text.Lower(Text.Trim(SELLER))) && Text.Lower(Text.Trim(SELLER)) == SELLER
    ensures Text.Trim("s") == "s"
  {
    Text.TrimNothing(SELLER);
    Text.TrimNothing("s");
    assert Text.Lower(SELLER) == SELLER;
  }

  ghost predicate AfterOpening(s: State) {
    && s.up && s.now == 0 && 1 in s.chain.services && s.chain.services[1] == SOLD
    && BalanceOf(s.chain.balances, BUYER) == MIN_PRICE_WEI && s.chain.transfers == [] && s.chain.txCounter == 1
    && s.store.memory == map[] && s.requests == map[] && s.issued == map[] && s.holders == map[] && s.deliveries == []
  }

  lemma OpeningOnChain()
    ensures var registered := Register(GENESIS, "s", MIN_PRICE_WEI, SELLER, "owner", "attestor", 0).0;
            var l := Faucet(registered, BUYER, MIN_PRICE_WEI);
            && 1 in l.services && l.services[1] == SOLD && BalanceOf(l.balances, BUYER) == MIN_PRICE_WEI
            && l.transfers == [] && l.txCounter == 1
  {
    hide Text.Trim, Text.Lower, Text.IsAddress;
    SellerIsAddress();
  }

  lemma BootsEmpty(cfg: Config)
    ensures var s := DoBoot(cfg, START, 2, {});
            && s.up && s.now == 0 && s.chain == GENESIS && s.store.memory == map[]
            && s.requests == map[] && s.issued == map[] && s.holders == map[] && s.deliveries == []
  {
  }

  lemma Opens(cfg: Config)
    ensures AfterOpening(RunOf(cfg, Opened()))
  {
    hide RunOf, DoBoot, Register, Faucet;
    var register := ChainStep(RegisterOp("s", MIN_PRICE_WEI, SELLER, "owner", "attestor"));
    RunPush(cfg, [], Boot(2, {}));
    RunPush(cfg, [] + [Boot(2, {})], register);
    RunPush(cfg, [] + [Boot(2, {})] + [register], ChainStep(FaucetOp(BUYER, MIN_PRICE_WEI)));
    NothingHappened(cfg);
    BootsEmpty(cfg);
    OpeningOnChain();
  }

  lemma NothingHappened(cfg: Config)
    ensures RunOf(cfg, []) == START
  {
  }

  ghost predicate AfterPaying(cfg: Config, s: State) {
    && s.up && 1 in s.chain.services && s.chain.services[1] == SOLD
    && s.chain.transfers == [PaymentAt(cfg)]
    && s.store.memory == map[NONCE := InvoiceAt(cfg)] && s.issued == map[NONCE := InvoiceAt(cfg)] && NONCE in s.acked
    && 1 !in s.requests && (forall id :: id in s.requests ==> s.requests[id].phase.Finished?)
    && s.holders == map[] && s.deliveries == []
  }

  lemma Challenges(cfg: Config, s: State)
    requires AfterOpening(s)
    ensures var s' := DoChallenge(cfg, DoArrive(s, 0, 1, true, None), 0, NONCE, true);
            && s'.up && s'.now == 0 && s'.chain == s.chain && 1 !in s'.requests
            && (forall id :: id in s'.requests ==> s'.requests[id].phase.Finished?)
            && s'.store.memory == map[NONCE := InvoiceAt(cfg)] && s'.issued == map[NONCE := InvoiceAt(cfg)]
            && NONCE in s'.acked && s'.holders == map[] && s'.deliveries == []
  {
  }

  lemma PaysAtDeadline(cfg: Config, l: Ledger)
    requires BalanceOf(l.balances, BUYER) == MIN_PRICE_WEI && l.transfers == [] && l.txCounter == 1
    ensures var l' := Pay(l, BUYER, SELLER, MIN_PRICE_WEI, NONCE, 1, cfg.invoiceTtlMs).0;
            l'.transfers == [PaymentAt(cfg)] && l'.services == l.services
  {
  }

  lemma PaysLate(cfg: Config)
    ensures AfterPaying(cfg, RunOf(cfg, PaidLate(cfg))) && RunOf(cfg, PaidLate(cfg)).now == cfg.invoiceTtlMs
  {
    hide RunOf, DoArrive, DoChallenge, Pay;
    var before := Opened();
    var pay := ChainStep(PayOp(BUYER, SELLER, MIN_PRICE_WEI, NONCE, 1));
    Opens(cfg);
    RunPush(cfg, before, Arrive(0, 1, true, None));
    RunPush(cfg, before + [Arrive(0, 1, true, None)], Challenge(0, NONCE, true));
    RunPush(cfg, before + [Arrive(0, 1, true, None)] + [Challenge(0, NONCE, true)], Tick(cfg.invoiceTtlMs));
    RunPush(cfg, before + [Arrive(0, 1, true, None)] + [Challenge(0, NONCE, true)] + [Tick(cfg.invoiceTtlMs)], pay);
    Challenges(cfg, RunOf(cfg, before));
    PaysAtDeadline(cfg, RunOf(cfg, before).chain);
  }

  ghost predicate AfterJudging(cfg: Config, s: State) {
    && s.up && s.now == cfg.invoiceTtlMs + cfg.redemptionWindowMs
    && s.store.memory == map[NONCE := InvoiceAt(cfg)] && s.issued == map[NONCE := InvoiceAt(cfg)] && NONCE in s.acked
    && 1 in s.requests && s.requests[1].phase == Verified(PaymentAt(cfg))
    && s.requests[1].proof == Some(Proof(PaymentAt(cfg).txHash, NONCE, Some(BUYER)))
    && (forall id :: id in s.requests && id != 1 ==> s.requests[id].phase.Finished?)
    && s.holders == map[] && s.deliveries == []
  }

  lemma ReadsPayment(cfg: Config, s: State)
    requires AfterPaying(cfg, s)
    ensures var proof := Proof(PaymentAt(cfg).txHash, NONCE, Some(BUYER));
            var s' := DoReadChain(DoLookup(DoArrive(s, 1, 1, true, Some(proof)), 1), 1);
            s' == s.(requests := s.requests[1 := Request(1, SOLD, Some(proof),
                Read(InvoiceAt(cfg), Some(PaymentAt(cfg))))])
  {
    assert FindTransfer([PaymentAt(cfg)], PaymentAt(cfg).txHash) == Some(PaymentAt(cfg));
  }

  lemma JudgesPayment(cfg: Config, s: State)
    requires s.now == cfg.invoiceTtlMs + cfg.redemptionWindowMs && 1 in s.requests
    requires s.requests[1] == Request(1, SOLD, Some(Proof(PaymentAt(cfg).txHash, NONCE, Some(BUYER))),
                                      Read(InvoiceAt(cfg), Some(PaymentAt(cfg))))
    ensures DoJudge(cfg, s, 1) == SetPhase(s, 1, Verified(PaymentAt(cfg)))
  {
  }

  lemma JudgesLate(cfg: Config)
    ensures AfterJudging(cfg, RunOf(cfg, JudgedLate(cfg)))
  {
    hide RunOf, DoArrive, DoLookup, DoReadChain, DoJudge;
    var before := PaidLate(cfg);
    var arrive := Arrive(1, 1, true, Some(Proof(PaymentAt(cfg).txHash, NONCE, Some(BUYER))));
    var wait := Tick(cfg.redemptionWindowMs);
    PaysLate(cfg);
    RunPush(cfg, before, wait);
    RunPush(cfg, before + [wait], arrive);
    RunPush(cfg, before + [wait] + [arrive], Lookup(1));
    RunPush(cfg, before + [wait] + [arrive] + [Lookup(1)], ReadChain(1));
    RunPush(cfg, before + [wait] + [arrive] + [Lookup(1)] + [ReadChain(1)], Judge(1));
    ReadsPayment(cfg, RunOf(cfg, before + [wait]));
    JudgesPayment(cfg, RunOf(cfg, before + [wait] + [arrive] + [Lookup(1)] + [ReadChain(1)]));
  }

  lemma NoSweepYet(cfg: Config)
    ensures TimersWait(cfg, JudgedLate(cfg) + [Tick(1)])
  {
    hide RunOf, MaySweep;
  }

  lemma SweepsAndRefuses(cfg: Config, s: State)
    requires AfterJudging(cfg, s)
    ensures var checked := DoCheckPayer(cfg, DoSweep(cfg, s.(now := s.now + 1), true), 1);
            var s' := DoBurn(cfg, checked, 1, true);
            && 1 in checked.requests && checked.requests[1].phase == Cleared(PaymentAt(cfg))
            && 1 in s'.requests && s'.requests[1].phase == Rejected(InvoiceUsed)
            && s'.holders == map[] && s'.deliveries == []
  {
    var swept := DoSweep(cfg, s.(now := s.now + 1), true);
    assert I.Lapsed(InvoiceAt(cfg), s.now + 1, cfg.redemptionWindowMs);
    assert NONCE !in swept.store.memory;
  }

  lemma TimersWaitHere(cfg: Config)
    requires cfg.demandsSignature
    ensures TimersWait(cfg, Overtaken(cfg) + [Burn(1, true)])
  {
    hide RunOf, TimersWait, JudgedLate;
    var ticked := JudgedLate(cfg) + [Tick(1)];
    JudgesLate(cfg);
    RunPush(cfg, JudgedLate(cfg), Tick(1));
    NoSweepYet(cfg);
    TimersWaitPush(cfg, ticked, SweepInvoices(true));
    TimersWaitPush(cfg, ticked + [SweepInvoices(true)], CheckPayer(1));
    TimersWaitPush(cfg, ticked + [SweepInvoices(true)] + [CheckPayer(1)], Burn(1, true));
  }

  /** Wherever signatures are demanded, a buyer can pay by the deadline, present a signed proof that
      is judged inside the window, pass every check, and still be told that the invoice, which
      nobody ever used, is used: the sweeper runs while the signer is being recovered. The timers
      of the run are ones the code allows. */
  lemma {:induction false} PaidInTimeToldUsed(cfg: Config)
    requires cfg.demandsSignature
    ensures TimersWait(cfg, Overtaken(cfg) + [Burn(1, true)])
    ensures var s := RunOf(cfg, JudgedLate(cfg));
            && 1 in s.requests && s.requests[1].phase == Verified(PaymentAt(cfg))
            && NONCE in s.issued && PaymentAt(cfg).timestamp <= s.issued[NONCE].expiresAt
            && s.now - PaymentAt(cfg).timestamp <= cfg.redemptionWindowMs
    ensures var t, t' := RunOf(cfg, Overtaken(cfg)), RunOf(cfg, Overtaken(cfg) + [Burn(1, true)]);
            && 1 in t.requests && t.requests[1].phase == Cleared(PaymentAt(cfg))
            && 1 in t'.requests && t'.requests[1].phase == Rejected(InvoiceUsed)
            && t'.holders == map[] && t'.deliveries == []
  {
    hide RunOf, DoSweep, DoCheckPayer, DoBurn, TimersWait, JudgedLate;
    var before := JudgedLate(cfg);
    var ticked := before + [Tick(1)];
    var swept := ticked + [SweepInvoices(true)];
    JudgesLate(cfg);
    RunPush(cfg, before, Tick(1));
    RunPush(cfg, ticked, SweepInvoices(true));
    RunPush(cfg, swept, CheckPayer(1));
    RunPush(cfg, swept + [CheckPayer(1)], Burn(1, true));
    SweepsAndRefuses(cfg, RunOf(cfg, before));
    TimersWaitHere(cfg);
  }
}
