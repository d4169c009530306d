/** Verifying a settlement: the mock client (packages/chain/src/mock.ts), which looks one
    transfer up, and the live client (packages/chain/src/live-0g.ts), which searches the logs
    of a receipt. */
module Verification {
  import opened Basics
  import opened ChainLedger

  datatype Query = Query(
    txHash: TxHash, serviceId: nat, expectedTarget: Account, minAmountWei: nat, expectedNonce: nat, maxAgeMs: nat)

  datatype Refusal = Pending | NotFound | WrongTarget | WrongNonce | AmountTooLow | Stale

  datatype Verdict =
    | Settled(amountWei: nat, from: Account, timestamp: int)
    | Refused(reason: Refusal)

  /** The mock client's verdict on the transfer the chain returned for the hash. */
  function MockVerdict(found: Option<Transfer>, q: Query, now: int): Verdict {
    match found
    case None => Refused(NotFound)
    case Some(t) =>
      if t.to != q.expectedTarget then Refused(WrongTarget)
      else if t.nonce != q.expectedNonce || t.serviceId != q.serviceId then Refused(WrongNonce)
      else if t.amountWei < q.minAmountWei then Refused(AmountTooLow)
      else if now - t.timestamp > q.maxAgeMs then Refused(Stale)
      else Settled(t.amountWei, t.from, t.timestamp)
  }

  /** A `Paid` event as it appears in a receipt, with the contract that emitted it. */
  datatype PaidLog = PaidLog(
    address: Account, payTo: Account, payer: Account, serviceId: nat, nonce: nat, amount: nat, timestamp: int)

  datatype Receipt = Receipt(succeeded: bool, logs: seq<PaidLog>)

  function EmittedBy(logs: seq<PaidLog>, router: Account): seq<PaidLog> {
    if logs == [] then []
    else if logs[0].address == router then [logs[0]] + EmittedBy(logs[1..], router)
    else EmittedBy(logs[1..], router)
  }

  function PaidTo(logs: seq<PaidLog>, target: Account): seq<PaidLog> {
    if logs == [] then []
    else if logs[0].payTo == target then [logs[0]] + PaidTo(logs[1..], target)
    else PaidTo(logs[1..], target)
  }

  function FirstFor(logs: seq<PaidLog>, nonce: nat, serviceId: nat): Option<PaidLog> {
    if logs == [] then None
    else if logs[0].nonce == nonce && logs[0].serviceId == serviceId then Some(logs[0])
    else FirstFor(logs[1..], nonce, serviceId)
  }

  /** The live client's verdict. No receipt means the transaction is unmined or has not reached
      this node; `wellFormedHash` is whether the presented hash is 32 bytes of hex. */
  function LiveVerdict(
    wellFormedHash: bool, receipt: Option<Receipt>, router: Account, q: Query, now: int): Verdict
  {
    if !wellFormedHash then Refused(NotFound)
    else if receipt.None? then Refused(Pending)
    else if !receipt.value.succeeded then Refused(NotFound) else
    var events := EmittedBy(receipt.value.logs, router);
    if events == [] then Refused(NotFound) else
    var toTarget := PaidTo(events, q.expectedTarget);
    if toTarget == [] then Refused(WrongTarget) else
    match FirstFor(toTarget, q.expectedNonce, q.serviceId)
    case None => Refused(WrongNonce)
    case Some(e) =>
      if e.amount < q.minAmountWei then Refused(AmountTooLow)
      else if now - e.timestamp > q.maxAgeMs then Refused(Stale)
      else Settled(e.amount, e.payer, e.timestamp)
  }

  /** The transfer a `Paid` log records, under the hash it was found by. */
  function AsTransfer(log: PaidLog, txHash: TxHash): Transfer {
    Transfer(txHash, log.payer, log.payTo, log.amount, log.nonce, log.serviceId, log.timestamp)
  }

  predicate Pays(log: PaidLog, router: Account, q: Query) {
    log.address == router && log.payTo == q.expectedTarget && log.nonce == q.expectedNonce
        && log.serviceId == q.serviceId
  }

  ghost predicate Covers(log: PaidLog, q: Query, now: int) {
    log.amount >= q.minAmountWei && now - log.timestamp <= q.maxAgeMs
  }

  lemma {:induction false} EmittedByMeans(logs: seq<PaidLog>, router: Account)
    ensures forall log :: log in EmittedBy(logs, router) <==> log in logs && log.address == router
  {
    if logs != [] {
      EmittedByMeans(logs[1..], router);
    }
  }

  lemma {:induction false} PaidToMeans(logs: seq<PaidLog>, target: Account)
    ensures forall log :: log in PaidTo(logs, target) <==> log in logs && log.payTo == target
  {
    if logs != [] {
      PaidToMeans(logs[1..], target);
    }
  }

  lemma {:induction false} FirstForMeans(logs: seq<PaidLog>, nonce: nat, serviceId: nat)
    ensures match FirstFor(logs, nonce, serviceId)
            case Some(log) => log in logs && log.nonce == nonce && log.serviceId == serviceId
            case None => forall log :: log in logs ==> log.nonce != nonce || log.serviceId != serviceId
  {
    if logs != [] {
      FirstForMeans(logs[1..], nonce, serviceId);
    }
  }

  /** A live settlement comes from a log of our own router that matches target, service and
      nonce, covers the price and is young enough. */
  lemma {:induction false} LiveSettlementIsReal(receipt: Receipt, router: Account, q: Query, now: int)
    requires LiveVerdict(true, Some(receipt), router, q, now).Settled?
    ensures receipt.succeeded
    ensures exists log :: log in receipt.logs && Pays(log, router, q) && Covers(log, q, now)
                          && LiveVerdict(true, Some(receipt), router, q, now)
                              == Settled(log.amount, log.payer, log.timestamp)
  {
    var events := EmittedBy(receipt.logs, router);
    EmittedByMeans(receipt.logs, router);
    PaidToMeans(events, q.expectedTarget);
    FirstForMeans(PaidTo(events, q.expectedTarget), q.expectedNonce, q.serviceId);
    var log := FirstFor(PaidTo(events, q.expectedTarget), q.expectedNonce, q.serviceId).value;
    assert log in receipt.logs && Pays(log, router, q) && Covers(log, q, now);
  }

  /** On a chain where one receipt settles a (service, nonce) pair at most once, a live
      settlement is reported exactly when such a log exists. */
  lemma {:induction false} LiveSettlesExactly(receipt: Receipt, router: Account, q: Query, now: int)
    requires forall a, b | a in receipt.logs && b in receipt.logs && Pays(a, router, q) && Pays(b, router, q) :: a == b
    ensures LiveVerdict(true, Some(receipt), router, q, now).Settled? <==>
            receipt.succeeded && exists log :: log in receipt.logs && Pays(log, router, q) && Covers(log, q, now)
  {
    if LiveVerdict(true, Some(receipt), router, q, now).Settled? {
      LiveSettlementIsReal(receipt, router, q, now);
    } else if receipt.succeeded {
      var events := EmittedBy(receipt.logs, router);
      EmittedByMeans(receipt.logs, router);
      PaidToMeans(events, q.expectedTarget);
      FirstForMeans(PaidTo(events, q.expectedTarget), q.expectedNonce, q.serviceId);
      forall log | log in receipt.logs && Pays(log, router, q)
        ensures !Covers(log, q, now)
      {
        assert log in PaidTo(events, q.expectedTarget);
        var first := FirstFor(PaidTo(events, q.expectedTarget), q.expectedNonce, q.serviceId);
        assert first.Some? && Pays(first.value, router, q) && first.value in receipt.logs;
      }
    }
  }

  /** On a receipt with exactly one log of our router both clients give the same verdict, so
      they also test in the same order, whatever other contracts logged around it. */
  lemma {:induction false} ClientsAgree(
    before: seq<PaidLog>, log: PaidLog, after: seq<PaidLog>, router: Account, q: Query, now: int)
    requires log.address == router
    requires forall other :: other in before + after ==> other.address != router
    ensures LiveVerdict(true, Some(Receipt(true, before + [log] + after)), router, q, now)
            == MockVerdict(Some(AsTransfer(log, q.txHash)), q, now)
  {
    var logs := before + ([log] + after);
    assert before + [log] + after == logs;
    NoneEmitted(before, router);
    NoneEmitted(after, router);
    EmittedByConcat(before, [log] + after, router);
    assert ([log] + after)[1..] == after;
    assert EmittedBy(logs, router) == [log];
    assert [log][1..] == [];
    assert PaidTo([log], q.expectedTarget) == if log.payTo == q.expectedTarget then [log] else [];
    assert FirstFor([log], q.expectedNonce, q.serviceId)
        == if log.nonce == q.expectedNonce && log.serviceId == q.serviceId then Some(log) else None;
    assert Receipt(true, before + [log] + after).logs == logs;
  }

  lemma {:induction false} NoneEmitted(logs: seq<PaidLog>, router: Account)
    requires forall other :: other in logs ==> other.address != router
    ensures EmittedBy(logs, router) == []
  {
    if logs != [] {
      NoneEmitted(logs[1..], router);
    }
  }

  lemma {:induction false} EmittedByConcat(logs: seq<PaidLog>, more: seq<PaidLog>, router: Account)
    ensures EmittedBy(logs + more, router) == EmittedBy(logs, router) + EmittedBy(more, router)
  {
    if logs == [] {
      assert logs + more == more;
    } else {
      EmittedByConcat(logs[1..], more, router);
      assert (logs + more)[1..] == logs[1..] + more;
      if logs[0].address == router {
        assert [logs[0]] + (EmittedBy(logs[1..], router) + EmittedBy(more, router))
            == ([logs[0]] + EmittedBy(logs[1..], router)) + EmittedBy(more, router);
      }
    }
  }

  // ---- one condition per verdict ------------------------------------------------------------

  /** The receipt is that of a transaction that went through. */
  predicate WentThrough(wellFormedHash: bool, receipt: Option<Receipt>) {
    wellFormedHash && receipt.Some? && receipt.value.succeeded
  }

  /** The first log that pays for the query is the one at `i`. */
  ghost predicate PaysFirst(logs: seq<PaidLog>, i: nat, router: Account, q: Query) {
    i < |logs| && Pays(logs[i], router, q) && forall j :: 0 <= j < i ==> !Pays(logs[j], router, q)
  }

  lemma {:induction false} FirstPayingIsChosen(logs: seq<PaidLog>, router: Account, q: Query, i: nat)
    requires PaysFirst(logs, i, router, q)
    ensures FirstFor(PaidTo(EmittedBy(logs, router), q.expectedTarget), q.expectedNonce, q.serviceId) == Some(logs[i])
  {
    var events := EmittedBy(logs[1..], router);
    var rest := PaidTo(events, q.expectedTarget);
    if i > 0 {
      assert !Pays(logs[0], router, q);
      FirstPayingIsChosen(logs[1..], router, q, i - 1);
    }
    if logs[0].address == router {
      assert EmittedBy(logs, router)[1..] == events;
      if logs[0].payTo == q.expectedTarget {
        assert PaidTo(EmittedBy(logs, router), q.expectedTarget)[1..] == rest;
      }
    }
  }

  /** How far the filters get says how far the logs meet the query. */
  lemma FiltersMean(logs: seq<PaidLog>, router: Account, q: Query)
    ensures var events := EmittedBy(logs, router);
            var mine := PaidTo(events, q.expectedTarget);
            && (events != [] <==> exists log :: log in logs && log.address == router)
            && (mine != [] <==> exists log :: log in logs && log.address == router && log.payTo == q.expectedTarget)
            && (FirstFor(mine, q.expectedNonce, q.serviceId).Some? <==>
                  exists log :: log in logs && Pays(log, router, q))
  {
    var events := EmittedBy(logs, router);
    var mine := PaidTo(events, q.expectedTarget);
    EmittedByMeans(logs, router);
    PaidToMeans(events, q.expectedTarget);
    FirstForMeans(mine, q.expectedNonce, q.serviceId);
    if events != [] {
      assert events[0] in events;
    }
    if mine != [] {
      assert mine[0] in mine;
    }
    if log :| log in logs && Pays(log, router, q) {
      assert log in mine;
    }
    var first := FirstFor(mine, q.expectedNonce, q.serviceId);
    if first.Some? {
      assert first.value in logs && Pays(first.value, router, q);
    }
  }

  /** What the live client says, each verdict by its own condition on the receipt: the hash of a
      transaction that is not mined yet is worth retrying, all other refusals are final, and they are
      told apart by how far the receipt's logs go to meet the query. */
  lemma {:induction false} LiveRefusesExactly(
    wellFormedHash: bool, receipt: Option<Receipt>, router: Account, q: Query, now: int)
    ensures var v := LiveVerdict(wellFormedHash, receipt, router, q, now);
            var through := WentThrough(wellFormedHash, receipt);
            var logs := if receipt.Some? then receipt.value.logs else [];
            var ours := exists log :: log in logs && log.address == router;
            var toTarget := exists log :: log in logs && log.address == router && log.payTo == q.expectedTarget;
            var paying := exists log :: log in logs && Pays(log, router, q);
            && (v == Refused(Pending) <==> wellFormedHash && receipt.None?)
            && (v == Refused(NotFound) <==>
                  !wellFormedHash || (receipt.Some? && (!receipt.value.succeeded || !ours)))
            && (v == Refused(WrongTarget) <==> through && ours && !toTarget)
            && (v == Refused(WrongNonce) <==> through && toTarget && !paying)
  {
    hide EmittedBy, PaidTo, FirstFor, Pays;
    if receipt.Some? {
      FiltersMean(receipt.value.logs, router, q);
    }
  }

  /** And where a log pays for the query, the first such log alone decides. */
  lemma {:induction false} FirstPayingDecides(receipt: Receipt, router: Account, q: Query, now: int, i: nat)
    requires receipt.succeeded && PaysFirst(receipt.logs, i, router, q)
    ensures LiveVerdict(true, Some(receipt), router, q, now) ==
            var log := receipt.logs[i];
            if log.amount < q.minAmountWei then Refused(AmountTooLow)
            else if now - log.timestamp > q.maxAgeMs then Refused(Stale)
            else Settled(log.amount, log.payer, log.timestamp)
  {
    FirstPayingIsChosen(receipt.logs, router, q, i);
    var events := EmittedBy(receipt.logs, router);
    EmittedByMeans(receipt.logs, router);
    PaidToMeans(events, q.expectedTarget);
    assert receipt.logs[i] in PaidTo(events, q.expectedTarget);
  }

  /** The mock client's verdict on a transfer, each by its own condition. */
  lemma {:induction false} MockDecidesExactly(found: Option<Transfer>, q: Query, now: int)
    ensures var v := MockVerdict(found, q, now);
            && (v == Refused(NotFound) <==> found.None?)
            && v != Refused(Pending)
            && (found.Some? ==>
                  var t := found.value;
                  var paying := t.to == q.expectedTarget && t.nonce == q.expectedNonce && t.serviceId == q.serviceId;
                  && (v == Refused(WrongTarget) <==> t.to != q.expectedTarget)
                  && (v == Refused(WrongNonce) <==> t.to == q.expectedTarget && !paying)
                  && (v == Refused(AmountTooLow) <==> paying && t.amountWei < q.minAmountWei)
                  && (v == Refused(Stale) <==>
                        paying && t.amountWei >= q.minAmountWei && now - t.timestamp > q.maxAgeMs)
                  && (v.Settled? <==>
                        paying && t.amountWei >= q.minAmountWei && now - t.timestamp <= q.maxAgeMs)
                  && (v.Settled? ==> v == Settled(t.amountWei, t.from, t.timestamp)))
  {
  }
}
