/** What a rejected buyer is told, in every run: each reason is true of the invoice and the
    payment, except that an invoice swept between its lookup and its burn is called used.
    `GatewayBurns` says when that happens. */
module GatewayRejections {
  import opened Basics
  import opened ChainLedger
  import opened Verification
  import opened Gateway
  import opened GatewaySafety
  import opened GatewayPayments
  import opened GatewayRetention
  import I = Invoices
  import Q = PendingQueue

  // ---- how a request moves ----------------------------------------------------------------

  /** The event is one of the handler's steps for this request. */
  predicate Names(e: Event, id: nat) {
    match e
    case Lookup(other) => other == id
    case ReadChain(other) => other == id
    case Judge(other) => other == id
    case CheckPayer(other) => other == id
    case Burn(other, _) => other == id
    case Answer(other, _) => other == id
    case FailUpstream(other, _) => other == id
    case Challenge(other, _, _) => other == id
    case Schedule(other, _, _, _) => other == id
    case _ => false
  }

  /** The phases event `e` can move a request of state `s` to. */
  ghost predicate Moves(cfg: Config, s: State, e: Event, id: nat, r: Request, phase: Phase) {
    r.proof.Some? &&
    match r.phase
    case Resolved => e == Lookup(id) && phase == LookedUp(r, s.store.memory)
    case Found(invoice) =>
      e == ReadChain(id) && phase == Read(invoice, FindTransfer(s.chain.transfers, r.proof.value.txHash))
    case Read(_, _) => e == Judge(id) && phase == Judged(cfg, r, s.now)
    case Verified(_) => e == CheckPayer(id) && phase == PayerChecked(cfg, r)
    case Cleared(t) =>
      e.Burn? && if I.Burnable(s.store.memory, r.proof.value.nonce) then phase == Burnt(t) || phase == Finished
                 else phase == Rejected(InvoiceUsed)
    case Burnt(t) => phase == Finished || (phase.Sent? && phase.settled == t)
    case _ => false
  }

  /** A request after an event: newly arrived, as it was, or moved by a step of its own. */
  ghost predicate Follows(cfg: Config, s: State, e: Event, s': State, id: nat)
    requires id in s'.requests
  {
    var r' := s'.requests[id];
    if id !in s.requests then
      e.Arrive? && r'.phase == if r'.proof.None? then Rejected(PaymentRequired) else Resolved
    else
      var r := s.requests[id];
      || r' == r
      || (&& Names(e, id) && r' == r.(phase := r'.phase)
          && (r'.phase.Finished? || Moves(cfg, s, e, id, r, r'.phase)))
  }

  /** No request comes or goes, and this one follows. */
  ghost predicate Stays(cfg: Config, s: State, e: Event, s': State, id: nat) {
    s'.requests.Keys == s.requests.Keys && (id in s.requests ==> Follows(cfg, s, e, s', id))
  }

  lemma ReadingMoves(cfg: Config, s: State, other: nat, id: nat)
    ensures Stays(cfg, s, Lookup(other), DoLookup(s, other), id)
    ensures Stays(cfg, s, ReadChain(other), DoReadChain(s, other), id)
  {
    hide FindTransfer, LookedUp;
  }

  lemma CheckingMoves(cfg: Config, s: State, other: nat, id: nat)
    ensures Stays(cfg, s, Judge(other), DoJudge(cfg, s, other), id)
    ensures Stays(cfg, s, CheckPayer(other), DoCheckPayer(cfg, s, other), id)
  {
    hide Judged, PayerChecked;
  }

  lemma BurningMoves(cfg: Config, s: State, other: nat, writes: bool, id: nat)
    ensures Stays(cfg, s, Burn(other, writes), DoBurn(cfg, s, other, writes), id)
  {
    hide Store, I.Burnable;
  }

  lemma EndingMoves(cfg: Config, s: State, other: nat, status: nat, writes: bool, nonce: nat, id: nat)
    ensures Stays(cfg, s, Answer(other, status), DoAnswer(s, other, status), id)
    ensures Stays(cfg, s, FailUpstream(other, writes), DoFailUpstream(cfg, s, other, writes), id)
    ensures Stays(cfg, s, Challenge(other, nonce, writes), DoChallenge(cfg, s, other, nonce, writes), id)
  {
    hide Store, DeliveryOf;
  }

  lemma SchedulingMoves(cfg: Config, s: State, other: nat, task: nat, pruneWrites: nat, queueWrites: nat, id: nat)
    ensures var e := Schedule(other, task, pruneWrites, queueWrites);
            Stays(cfg, s, e, DoSchedule(cfg, s, other, task, pruneWrites, queueWrites), id)
  {
    hide Q.EnqueueStep;
  }

  lemma ArrivingMoves(
    cfg: Config, s: State, other: nat, serviceId: nat, seenActive: bool, proof: Option<Proof>, id: nat)
    ensures var e, s' := Arrive(other, serviceId, seenActive, proof), DoArrive(s, other, serviceId, seenActive, proof);
            s.requests.Keys <= s'.requests.Keys && (id in s'.requests ==> Follows(cfg, s, e, s', id))
  {
  }

  lemma TasksMoveNone(cfg: Config, s: State, task: nat, arrives: bool, heard: bool, queueWrites: nat)
    ensures DoSubmit(s, task, arrives).requests == DoSettle(cfg, s, task, heard, queueWrites).requests == s.requests
  {
    hide Record, Q.RemoveStep;
  }

  lemma NextMoves(cfg: Config, s: State, e: Event, id: nat)
    ensures id in Next(cfg, s, e).requests ==> Follows(cfg, s, e, Next(cfg, s, e), id)
    ensures !e.Crash? ==> s.requests.Keys <= Next(cfg, s, e).requests.Keys
  {
    hide Moves, DoArrive, DoLookup, DoReadChain, DoJudge, DoCheckPayer, DoBurn, DoAnswer, DoFailUpstream, DoChallenge,
         DoSchedule, DoSubmit, DoSettle, Store, Q.PruneStep, Apply;
    if e.Arrive? {
      ArrivingMoves(cfg, s, e.id, e.serviceId, e.seenActive, e.proof, id);
    } else {
      match e
      case Lookup(other) => ReadingMoves(cfg, s, other, id);
      case ReadChain(other) => ReadingMoves(cfg, s, other, id);
      case Judge(other) => CheckingMoves(cfg, s, other, id);
      case CheckPayer(other) => CheckingMoves(cfg, s, other, id);
      case Burn(other, writes) => BurningMoves(cfg, s, other, writes, id);
      case Answer(other, status) => EndingMoves(cfg, s, other, status, true, 0, id);
      case FailUpstream(other, writes) => EndingMoves(cfg, s, other, 0, writes, 0, id);
      case Challenge(other, nonce, writes) => EndingMoves(cfg, s, other, 0, writes, nonce, id);
      case Schedule(other, task, pruneWrites, queueWrites) =>
        SchedulingMoves(cfg, s, other, task, pruneWrites, queueWrites, id);
      case Submit(task, arrives) => TasksMoveNone(cfg, s, task, arrives, true, 2);
      case Settle(task, heard, queueWrites) => TasksMoveNone(cfg, s, task, true, heard, queueWrites);
      case _ =>
    }
  }

  // ---- what a request has seen --------------------------------------------------------------

  /** A call without the phase it is in. */
  function CallOf(r: Request): Request {
    r.(phase := Finished)
  }

  /** Event `k` of the run met this very call under this id, and the process has lived since. */
  ghost predicate Met(cfg: Config, events: seq<Event>, k: nat, id: nat, call: Request) {
    && k < |events|
    && id in RunOf(cfg, events[..k]).requests && CallOf(RunOf(cfg, events[..k]).requests[id]) == call
    && forall j :: k <= j < |events| ==> !events[j].Crash?
  }

  /** The call's own lookup found its invoice unused. */
  ghost predicate SawUnused(cfg: Config, events: seq<Event>, id: nat, call: Request) {
    call.proof.Some? && exists k: nat ::
      && k < |events| && Met(cfg, events, k, id, call) && events[k] == Lookup(id)
      && I.Burnable(RunOf(cfg, events[..k]).store.memory, call.proof.value.nonce)
  }

  /** The call's own reading of the chain gave this answer for the hash it presents. */
  ghost predicate SawAnswer(cfg: Config, events: seq<Event>, id: nat, call: Request, answer: Option<Transfer>) {
    call.proof.Some? && exists k: nat ::
      && k < |events| && Met(cfg, events, k, id, call) && events[k] == ReadChain(id)
      && FindTransfer(RunOf(cfg, events[..k]).chain.transfers, call.proof.value.txHash) == answer
  }

  ghost predicate HasSeen(cfg: Config, events: seq<Event>, id: nat, r: Request) {
    r.phase.Found? || r.phase.Read? || r.phase.Verified? || r.phase.Cleared? ==>
      && SawUnused(cfg, events, id, CallOf(r))
      && (r.phase.Read? ==> SawAnswer(cfg, events, id, CallOf(r), r.phase.answer))
      && (r.phase.Verified? ==> SawAnswer(cfg, events, id, CallOf(r), Some(r.phase.paid)))
      && (r.phase.Cleared? ==> SawAnswer(cfg, events, id, CallOf(r), Some(r.phase.payment)))
  }

  lemma StillMet(cfg: Config, events: seq<Event>, e: Event, k: nat, id: nat, call: Request)
    requires Met(cfg, events, k, id, call) && !e.Crash?
    ensures Met(cfg, events + [e], k, id, call) && (events + [e])[k] == events[k] && (events + [e])[..k] == events[..k]
  {
    hide RunOf;
    assert (events + [e])[..k] == events[..k];
  }

  lemma StillUnused(cfg: Config, events: seq<Event>, e: Event, id: nat, call: Request)
    requires SawUnused(cfg, events, id, call) && !e.Crash?
    ensures SawUnused(cfg, events + [e], id, call)
  {
    hide RunOf, Met, I.Burnable;
    var k: nat :| k < |events| && Met(cfg, events, k, id, call) && events[k] == Lookup(id)
                  && I.Burnable(RunOf(cfg, events[..k]).store.memory, call.proof.value.nonce);
    StillMet(cfg, events, e, k, id, call);
  }

  lemma StillAnswered(cfg: Config, events: seq<Event>, e: Event, id: nat, call: Request, answer: Option<Transfer>)
    requires SawAnswer(cfg, events, id, call, answer) && !e.Crash?
    ensures SawAnswer(cfg, events + [e], id, call, answer)
  {
    hide RunOf, Met, FindTransfer;
    var k: nat :| k < |events| && Met(cfg, events, k, id, call) && events[k] == ReadChain(id)
                  && FindTransfer(RunOf(cfg, events[..k]).chain.transfers, call.proof.value.txHash) == answer;
    StillMet(cfg, events, e, k, id, call);
  }

  lemma StillSeen(cfg: Config, events: seq<Event>, e: Event, id: nat, r: Request)
    requires HasSeen(cfg, events, id, r) && !e.Crash?
    ensures HasSeen(cfg, events + [e], id, r)
  {
    hide SawUnused, SawAnswer;
    if r.phase.Found? || r.phase.Read? || r.phase.Verified? || r.phase.Cleared? {
      StillUnused(cfg, events, e, id, CallOf(r));
      if !r.phase.Found? {
        var answer := match r.phase
                      case Read(_, answer) => answer
                      case Verified(t) => Some(t)
                      case Cleared(t) => Some(t)
                      case _ => None;
        StillAnswered(cfg, events, e, id, CallOf(r), answer);
      }
    }
  }

  lemma MetNow(cfg: Config, events: seq<Event>, e: Event, id: nat)
    requires id in RunOf(cfg, events).requests && !e.Crash?
    ensures Met(cfg, events + [e], |events|, id, CallOf(RunOf(cfg, events).requests[id]))
    ensures (events + [e])[|events|] == e && (events + [e])[..|events|] == events
  {
    hide RunOf;
    assert (events + [e])[..|events|] == events;
  }

  lemma MovedHasSeen(cfg: Config, events: seq<Event>, e: Event, id: nat, phase: Phase)
    requires id in RunOf(cfg, events).requests && !e.Crash?
    requires var s := RunOf(cfg, events);
             HasSeen(cfg, events, id, s.requests[id]) && Moves(cfg, s, e, id, s.requests[id], phase)
    ensures HasSeen(cfg, events + [e], id, RunOf(cfg, events).requests[id].(phase := phase))
  {
    hide RunOf, FindTransfer, SawUnused, SawAnswer, Met;
    var s := RunOf(cfg, events);
    var r := s.requests[id];
    StillSeen(cfg, events, e, id, r);
    if r.phase.Resolved? {
      LookupSees(cfg, events, id);
    } else if r.phase.Found? {
      ReadingSees(cfg, events, id);
    }
  }

  lemma LookupSees(cfg: Config, events: seq<Event>, id: nat)
    requires id in RunOf(cfg, events).requests
    ensures var s := RunOf(cfg, events);
            var r := s.requests[id];
            r.proof.Some? && LookedUp(r, s.store.memory).Found? ==> SawUnused(cfg, events + [Lookup(id)], id, CallOf(r))
  {
    hide RunOf, Met;
    MetNow(cfg, events, Lookup(id), id);
  }

  lemma ReadingSees(cfg: Config, events: seq<Event>, id: nat)
    requires id in RunOf(cfg, events).requests
    ensures var s := RunOf(cfg, events);
            var r := s.requests[id];
            r.proof.Some? ==> SawAnswer(cfg, events + [ReadChain(id)], id, CallOf(r),
                                        FindTransfer(s.chain.transfers, r.proof.value.txHash))
  {
    hide RunOf, Met, FindTransfer;
    MetNow(cfg, events, ReadChain(id), id);
  }

  lemma CrashEndsAll(cfg: Config, s: State)
    ensures Next(cfg, s, Crash).requests == map[]
  {
  }

  /** In every run, a call past its lookup found its invoice unused then, and one past its reading
      of the chain got exactly the answer it goes on with. */
  lemma {:induction false} RequestsHaveSeen(cfg: Config, events: seq<Event>, id: nat)
    requires id in RunOf(cfg, events).requests
    ensures HasSeen(cfg, events, id, RunOf(cfg, events).requests[id])
  {
    if events != [] {
      hide HasSeen, Next, Moves;
      var before, last := events[..|events| - 1], events[|events| - 1];
      assert events == before + [last];
      var s := RunOf(cfg, before);
      var r' := RunOf(cfg, events).requests[id];
      CrashEndsAll(cfg, s);
      NextMoves(cfg, s, last, id);
      if id in s.requests {
        RequestsHaveSeen(cfg, before, id);
        StillSeen(cfg, before, last, id, s.requests[id]);
        if r' != s.requests[id] && !r'.phase.Finished? {
          MovedHasSeen(cfg, before, last, id, r'.phase);
        }
      }
      NothingToSee(cfg, events, id, r');
    }
  }

  lemma NothingToSee(cfg: Config, events: seq<Event>, id: nat, r: Request)
    ensures r.phase.Resolved? || r.phase.Rejected? || r.phase.Finished? ==> HasSeen(cfg, events, id, r)
  {
  }

  // ---- the reasons -----------------------------------------------------------------------------

  /** The presented transfer, on the chain at `s`. */
  ghost predicate Presents(s: State, r: Request, t: Transfer) {
    r.proof.Some? && t in s.chain.transfers && t.txHash == r.proof.value.txHash
  }

  /** The window in which the proof could be redeemed has closed. */
  ghost predicate TooLate(cfg: Config, s: State, nonce: nat) {
    nonce in s.issued ==> s.now > s.issued[nonce].expiresAt + cfg.redemptionWindowMs
  }

  /** The reason a request is rejected for, by an event after `events`, is true of its invoice and
      its payment: `NotFound` says that the hash was not among the kept transfers when this call
      read the chain. Only `InvoiceUsed` has a second meaning: an invoice that this call's lookup
      found unused, and that has been dropped since. */
  ghost predicate ToldTruly(cfg: Config, events: seq<Event>, id: nat, r: Request)
    requires r.phase.Rejected?
  {
    var s := RunOf(cfg, events);
    if r.proof.None? then r.phase.why == PaymentRequired else
    var proof := r.proof.value;
    match r.phase.why
    case PaymentRequired => false
    case UnknownNonce =>
      proof.nonce in s.acked && proof.nonce in s.issued && s.issued[proof.nonce].serviceId == r.serviceId ==>
        TooLate(cfg, s, proof.nonce)
    case InvoiceUsed =>
      || proof.nonce in s.holders
      || (&& proof.nonce !in s.store.memory && SawUnused(cfg, events, id, CallOf(r))
          && (proof.nonce in s.acked ==> TooLate(cfg, s, proof.nonce)))
    case NotSettled(Pending) => false
    case NotSettled(NotFound) => SawAnswer(cfg, events, id, CallOf(r), None)
    case NotSettled(WrongTarget) => exists t :: Presents(s, r, t) && t.to != r.service.paymentTarget
    case NotSettled(WrongNonce) => exists t :: Presents(s, r, t) && (t.nonce, t.serviceId) != (proof.nonce, r.serviceId)
    case NotSettled(AmountTooLow) => exists t :: Presents(s, r, t) && t.amountWei < r.service.priceWei
    case NotSettled(Stale) => exists t :: Presents(s, r, t) && s.now - t.timestamp > cfg.redemptionWindowMs
    case InvoiceExpired =>
      proof.nonce in s.issued && exists t :: Presents(s, r, t) && t.timestamp > s.issued[proof.nonce].expiresAt
    case ProofUnsigned => cfg.demandsSignature && proof.signer.None?
    case ProofInvalid =>
      cfg.demandsSignature && proof.signer.Some? && exists t :: Presents(s, r, t) && proof.signer != Some(t.from)
  }

  /** The step from one state to the next rejected the request. */
  ghost predicate RejectedBy(s: State, s': State, id: nat) {
    id in s'.requests && s'.requests[id].phase.Rejected? && (id in s.requests ==> s.requests[id] != s'.requests[id])
  }

  /** Every reason given by some step of some run holds when it is given, in every interleaving. */
  lemma {:induction false} RejectionsAreTrue(cfg: Config, events: seq<Event>, e: Event, id: nat)
    ensures var s, s' := RunOf(cfg, events), RunOf(cfg, events + [e]);
            RejectedBy(s, s', id) ==> ToldTruly(cfg, events, id, s'.requests[id])
  {
    hide RunOf, Next, Moves, ToldTruly, SingleUse, Retained, PaidUp;
    var s := RunOf(cfg, events);
    RunPush(cfg, events, e);
    if RejectedBy(s, Next(cfg, s, e), id) {
      NextMoves(cfg, s, e, id);
      var r' := Next(cfg, s, e).requests[id];
      if id in s.requests {
        RequestsHaveSeen(cfg, events, id);
        RunIsSingleUse(cfg, events);
        RunRetains(cfg, events);
        RunIsPaidUp(cfg, events);
        MovedTruly(cfg, events, s, e, id, r'.phase);
      } else {
        ArrivedTruly(cfg, events, id, r');
      }
    }
  }

  lemma ArrivedTruly(cfg: Config, events: seq<Event>, id: nat, r: Request)
    requires r.phase == Rejected(PaymentRequired) && r.proof.None?
    ensures ToldTruly(cfg, events, id, r)
  {
    hide RunOf;
  }

  lemma MovedTruly(cfg: Config, events: seq<Event>, s: State, e: Event, id: nat, phase: Phase)
    requires s == RunOf(cfg, events) && id in s.requests && phase.Rejected?
    requires Moves(cfg, s, e, id, s.requests[id], phase) && HasSeen(cfg, events, id, s.requests[id])
    requires SingleUse(cfg, s) && Retained(cfg, s) && PaidUp(cfg, s)
    ensures ToldTruly(cfg, events, id, s.requests[id].(phase := phase))
  {
    hide RunOf, RequestOk, DeliveredOk, DeliveriesPaid, WellFormed, ToldTruly, HasSeen, HoldersOk, StoreOk, Kept;
    var r := s.requests[id];
    assert RequestOk(cfg, r, s.chain, s.issued);
    match r.phase
    case Resolved => LookupTruly(cfg, events, id, s, r);
    case Read(_, _) => VerdictTruly(cfg, events, id, s, r);
    case Verified(_) => PayerTruly(cfg, events, id, s, r);
    case Cleared(_) => BurnTruly(cfg, events, id, s, r);
    case _ =>
  }

  lemma LookupTruly(cfg: Config, events: seq<Event>, id: nat, s: State, r: Request)
    requires s == RunOf(cfg, events) && r.proof.Some? && LookedUp(r, s.store.memory).Rejected?
    requires StoreOk(cfg, s.store, s.issued, s.acked) && Retained(cfg, s)
    requires HoldersOk(s.store.memory, s.holders, s.requests, s.issued)
    ensures ToldTruly(cfg, events, id, r.(phase := LookedUp(r, s.store.memory)))
  {
    hide RunOf, SawUnused;
    assert r.proof.value.nonce in s.store.memory ==> r.proof.value.nonce in s.issued;
  }

  lemma VerdictTruly(cfg: Config, events: seq<Event>, id: nat, s: State, r: Request)
    requires s == RunOf(cfg, events) && r.proof.Some? && r.phase.Read? && Judged(cfg, r, s.now).Rejected?
    requires RequestOk(cfg, r, s.chain, s.issued)
    ensures HasSeen(cfg, events, id, r) ==> ToldTruly(cfg, events, id, r.(phase := Judged(cfg, r, s.now)))
  {
    hide RunOf, SawUnused, SawAnswer;
    if r.phase.answer.Some? {
      assert Presents(s, r.(phase := Judged(cfg, r, s.now)), r.phase.answer.value);
    }
  }

  lemma PayerTruly(cfg: Config, events: seq<Event>, id: nat, s: State, r: Request)
    requires s == RunOf(cfg, events) && r.proof.Some? && r.phase.Verified? && PayerChecked(cfg, r).Rejected?
    requires RequestOk(cfg, r, s.chain, s.issued)
    ensures ToldTruly(cfg, events, id, r.(phase := PayerChecked(cfg, r)))
  {
    hide RunOf;
    assert Presents(s, r.(phase := PayerChecked(cfg, r)), r.phase.paid);
  }

  lemma BurnTruly(cfg: Config, events: seq<Event>, id: nat, s: State, r: Request)
    requires s == RunOf(cfg, events) && r.proof.Some? && r.phase.Cleared?
    requires !I.Burnable(s.store.memory, r.proof.value.nonce)
    requires Retained(cfg, s)
    requires HoldersOk(s.store.memory, s.holders, s.requests, s.issued)
    ensures HasSeen(cfg, events, id, r) ==> ToldTruly(cfg, events, id, r.(phase := Rejected(InvoiceUsed)))
    ensures r.proof.value.nonce !in s.store.memory || r.proof.value.nonce in s.holders
  {
    hide RunOf, SawUnused;
  }
}
