/** Invoices outlive their deadline by the redemption window: a buyer who paid in time and presents
    the proof inside it is never told, by the lookup, that the invoice is unknown. */
module GatewayRetention {
  import opened Basics
  import opened ChainLedger
  import opened Verification
  import opened Gateway
  import opened GatewaySafety
  import I = Invoices
  import Q = PendingQueue

  /** Until its window closes, an invoice whose challenge was sent is known to the running
      gateway and, for the file store, to the file. */
  ghost predicate Kept(cfg: Config, now: int, acked: set<nat>, issued: map<nat, I.Invoice>, store: I.FileState) {
    forall nonce :: nonce in acked ==>
      nonce in issued &&
      (now <= issued[nonce].expiresAt + cfg.redemptionWindowMs ==>
         nonce in store.memory && (cfg.invoicesOnDisk ==> nonce in store.disk))
  }

  ghost predicate Retained(cfg: Config, s: State) {
    Kept(cfg, s.now, s.acked, s.issued, s.store)
  }

  lemma QuietRetains(cfg: Config, s: State, e: Event)
    requires SingleUse(cfg, s) && Retained(cfg, s) && Quiet(e)
    ensures Retained(cfg, Next(cfg, s, e))
  {
    hide Next, SingleUse, Proxies;
    NoRequestsWhenDown(cfg, s);
    QuietIsFramed(cfg, s, e);
    ClockIsMonotone(cfg, s, e);
  }

  lemma NoRequestsWhenDown(cfg: Config, s: State)
    requires SingleUse(cfg, s)
    ensures !s.up ==> s.requests == map[]
  {
    hide StoreOk, HoldersOk, DeliveredOk;
  }

  lemma ReadingTakesNoTime(cfg: Config, s: State, id: nat)
    ensures DoLookup(s, id).now == DoReadChain(s, id).now == s.now
    ensures DoJudge(cfg, s, id).now == DoCheckPayer(cfg, s, id).now == s.now
  {
    hide FindTransfer, Judged, PayerChecked, LookedUp;
  }

  lemma WritingTakesNoTime(cfg: Config, s: State, id: nat, other: nat, status: nat, writes: bool)
    ensures DoBurn(cfg, s, id, writes).now == DoAnswer(s, id, status).now == s.now
    ensures DoFailUpstream(cfg, s, id, writes).now == DoChallenge(cfg, s, id, other, writes).now == s.now
  {
    hide Store, DeliveryOf;
  }

  lemma SchedulingTakesNoTime(cfg: Config, s: State, id: nat, task: nat, pruneWrites: nat, queueWrites: nat)
    ensures DoSchedule(cfg, s, id, task, pruneWrites, queueWrites).now == s.now
  {
    hide Q.EnqueueStep;
  }

  lemma BackgroundTakesNoTime(
    cfg: Config, s: State, task: nat, arrives: bool, heard: bool, queueWrites: nat, unanswered: set<nat>)
    ensures DoSubmit(s, task, arrives).now == DoSettle(cfg, s, task, heard, queueWrites).now == s.now
    ensures DoPruneQueue(cfg, s, queueWrites).now == DoBoot(cfg, s, queueWrites, unanswered).now == s.now
  {
    hide Record, Q.RemoveStep, Q.PruneStep;
  }

  lemma HandlerTakesNoTime(cfg: Config, s: State, e: Event)
    requires e.Lookup? || e.ReadChain? || e.Judge? || e.CheckPayer? || e.Burn? || e.Answer? || e.FailUpstream?
             || e.Challenge? || e.Schedule?
    ensures Next(cfg, s, e).now == s.now
  {
    hide DoLookup, DoReadChain, DoJudge, DoCheckPayer, DoBurn, DoAnswer, DoFailUpstream, DoChallenge, DoSchedule;
    match e
    case Lookup(id) => ReadingTakesNoTime(cfg, s, id);
    case ReadChain(id) => ReadingTakesNoTime(cfg, s, id);
    case Judge(id) => ReadingTakesNoTime(cfg, s, id);
    case CheckPayer(id) => ReadingTakesNoTime(cfg, s, id);
    case Burn(id, writes) => WritingTakesNoTime(cfg, s, id, 0, 0, writes);
    case Answer(id, status) => WritingTakesNoTime(cfg, s, id, 0, status, true);
    case FailUpstream(id, writes) => WritingTakesNoTime(cfg, s, id, 0, 0, writes);
    case Challenge(id, nonce, writes) => WritingTakesNoTime(cfg, s, id, nonce, 0, writes);
    case Schedule(id, task, pruneWrites, queueWrites) =>
      SchedulingTakesNoTime(cfg, s, id, task, pruneWrites, queueWrites);
  }

  lemma RestIsMonotone(cfg: Config, s: State, e: Event)
    requires e.Tick? || e.ChainStep? || e.Arrive? || e.Submit? || e.Settle? || e.SweepInvoices? || e.PruneQueue?
             || e.Crash? || e.Boot?
    ensures s.now <= Next(cfg, s, e).now
  {
    hide Store, Apply, PassesGateway, DoSubmit, DoSettle, DoPruneQueue, DoBoot, DoLookup, DoReadChain, DoJudge,
         DoCheckPayer, DoBurn, DoAnswer, DoFailUpstream, DoChallenge, DoSchedule;
    match e
    case Submit(task, arrives) => BackgroundTakesNoTime(cfg, s, task, arrives, true, 2, {});
    case Settle(task, heard, queueWrites) => BackgroundTakesNoTime(cfg, s, task, true, heard, queueWrites, {});
    case PruneQueue(queueWrites) => BackgroundTakesNoTime(cfg, s, 0, true, true, queueWrites, {});
    case Boot(queueWrites, unanswered) => BackgroundTakesNoTime(cfg, s, 0, true, true, queueWrites, unanswered);
    case _ =>
  }

  lemma ClockIsMonotone(cfg: Config, s: State, e: Event)
    ensures s.now <= Next(cfg, s, e).now
  {
    hide Next;
    if e.Tick? || e.ChainStep? || e.Arrive? || e.Submit? || e.Settle? || e.SweepInvoices? || e.PruneQueue?
       || e.Crash? || e.Boot? {
      RestIsMonotone(cfg, s, e);
    } else {
      HandlerTakesNoTime(cfg, s, e);
    }
  }

  /** Only a sweep forgets. */
  lemma OpKeeps(
    cfg: Config, now: int, acked: set<nat>, issued: map<nat, I.Invoice>, store: I.FileState, op: I.Op, writes: bool)
    requires Kept(cfg, now, acked, issued, store) && !op.SweepOp?
    ensures Kept(cfg, now, acked, issued, Store(cfg, store, op, writes).0)
  {
    hide Store;
    StoreOutcome(cfg, store, op, writes);
  }

  lemma PutKeeps(
    cfg: Config, now: int, acked: set<nat>, issued: map<nat, I.Invoice>, store: I.FileState,
    invoice: I.Invoice, writes: bool)
    requires Kept(cfg, now, acked, issued, store) && invoice.nonce !in issued
    ensures var (store', ok) := Store(cfg, store, I.PutOp(invoice), writes);
            Kept(cfg, now, if ok then acked + {invoice.nonce} else acked, issued[invoice.nonce := invoice], store')
  {
    hide Store;
    StoreOutcome(cfg, store, I.PutOp(invoice), writes);
  }

  lemma BurnRetains(cfg: Config, s: State, id: nat, writes: bool)
    requires Retained(cfg, s)
    ensures Retained(cfg, DoBurn(cfg, s, id, writes)) && Retained(cfg, DoFailUpstream(cfg, s, id, writes))
  {
    hide Store, Kept, I.Burnable;
    if id in s.requests && s.requests[id].proof.Some? {
      var nonce := s.requests[id].proof.value.nonce;
      OpKeeps(cfg, s.now, s.acked, s.issued, s.store, I.MarkUsedOp(nonce), writes);
      OpKeeps(cfg, s.now, s.acked, s.issued, s.store, I.ReleaseOp(nonce), writes);
    }
  }

  lemma ChallengeRetains(cfg: Config, s: State, id: nat, nonce: nat, writes: bool)
    requires Retained(cfg, s)
    ensures Retained(cfg, DoChallenge(cfg, s, id, nonce, writes))
  {
    hide Store, Kept;
    if id in s.requests && nonce !in s.issued {
      var r := s.requests[id];
      PutKeeps(cfg, s.now, s.acked, s.issued, s.store,
        I.Invoice(nonce, r.serviceId, r.service.priceWei, s.now + cfg.invoiceTtlMs, false), writes);
    }
  }

  lemma StoreRetains(cfg: Config, s: State, e: Event)
    requires Retained(cfg, s)
    requires e.Burn? || e.Answer? || e.FailUpstream? || e.Challenge?
    ensures Retained(cfg, Next(cfg, s, e))
  {
    hide Kept, DoBurn, DoFailUpstream, DoChallenge, DeliveryOf;
    match e
    case Burn(id, writes) => BurnRetains(cfg, s, id, writes);
    case Answer(_, _) =>
    case FailUpstream(id, writes) => BurnRetains(cfg, s, id, writes);
    case Challenge(id, nonce, writes) => ChallengeRetains(cfg, s, id, nonce, writes);
  }

  lemma SweepRetains(cfg: Config, s: State, writes: bool)
    requires SingleUse(cfg, s) && Retained(cfg, s)
    ensures Retained(cfg, DoSweep(cfg, s, writes))
  {
    hide Store, HoldersOk, DeliveredOk;
    StoreOutcome(cfg, s.store, I.SweepOp(s.now), writes);
    forall nonce | nonce in s.store.memory
      ensures s.store.memory[nonce].expiresAt == s.issued[nonce].expiresAt
    {
      assert s.store.memory[nonce].(used := false) == s.issued[nonce];
    }
  }

  lemma RetainedStep(cfg: Config, s: State, e: Event)
    requires SingleUse(cfg, s) && Retained(cfg, s)
    ensures Retained(cfg, Next(cfg, s, e))
  {
    if Quiet(e) {
      QuietRetains(cfg, s, e);
    } else if e.SweepInvoices? {
      SweepRetains(cfg, s, e.writes);
    } else if e.Crash? {
      hide SingleUse;
    } else {
      StoreRetains(cfg, s, e);
    }
  }

  lemma {:induction false} RunRetains(cfg: Config, events: seq<Event>)
    ensures Retained(cfg, RunOf(cfg, events))
  {
    if events != [] {
      hide SingleUse, Retained, Next;
      RunRetains(cfg, events[..|events| - 1]);
      RunIsSingleUse(cfg, events[..|events| - 1]);
      RetainedStep(cfg, RunOf(cfg, events[..|events| - 1]), events[|events| - 1]);
    }
  }

  lemma {:induction false} ClockOverRun(cfg: Config, before: seq<Event>, after: seq<Event>)
    ensures RunOf(cfg, before).now <= RunOf(cfg, before + after).now
  {
    hide Next;
    if after == [] {
      assert before + after == before;
    } else {
      var shorter := after[..|after| - 1];
      ClockOverRun(cfg, before, shorter);
      assert (before + after)[..|before + after| - 1] == before + shorter;
      ClockIsMonotone(cfg, RunOf(cfg, before + shorter), after[|after| - 1]);
    }
  }

  lemma LookupRuns(cfg: Config, before: seq<Event>, id: nat)
    ensures RunOf(cfg, before + [Lookup(id)]) == DoLookup(RunOf(cfg, before), id)
  {
    RunPush(cfg, before, Lookup(id));
  }

  /** A payment that settled by the invoice's deadline, and whose proof still passes the age
      check at any point after the lookup, was not answered `unknown_nonce` by the lookup. */
  lemma {:induction false} NeverToldUnknown(cfg: Config, before: seq<Event>, id: nat, after: seq<Event>, settledAt: int)
    requires var s := RunOf(cfg, before);
             && id in s.requests && s.requests[id].phase.Resolved? && s.requests[id].proof.Some?
             && s.requests[id].proof.value.nonce in s.acked
             && s.requests[id].proof.value.nonce in s.issued
             && s.issued[s.requests[id].proof.value.nonce].serviceId == s.requests[id].serviceId
             && settledAt <= s.issued[s.requests[id].proof.value.nonce].expiresAt
    requires RunOf(cfg, before + [Lookup(id)] + after).now - settledAt <= cfg.redemptionWindowMs
    ensures var s' := RunOf(cfg, before + [Lookup(id)]);
            id in s'.requests && (s'.requests[id].phase.Found? || s'.requests[id].phase == Rejected(InvoiceUsed))
  {
    var s := RunOf(cfg, before);
    hide RunOf, HoldersOk, DeliveredOk;
    LookupRuns(cfg, before, id);
    ClockOverRun(cfg, before + [Lookup(id)], after);
    RunRetains(cfg, before);
    RunIsSingleUse(cfg, before);
    var nonce := s.requests[id].proof.value.nonce;
    assert s.store.memory[nonce].(used := false) == s.issued[nonce];
  }
}
